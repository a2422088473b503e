/**
 The pool of write-combined and uncached pages.

 Every method of the pool runs under the pool lock, except that filling and freeing
 drop it in between; PoolRuns puts their locked sections into any order.
 */
module PagePool {
  import opened Arithmetic
  import opened Base

  type Page = nat

  const NUM_PAGES_TO_ALLOC: nat := 512
  const FREE_ALL_PAGES: nat := 0xFFFF_FFFF
  const NUM_POOLS: nat := 4

  function Min(a: int, b: int): int { if a <= b then a else b }

  function Max(a: int, b: int): int { if a <= b then b else a }

  // ---------------------------------------------------------------- what a locked section does to the pool

  // The pages a request of `count` gets, and what it leaves.
  function Got(list: seq<Page>, count: nat): seq<Page> { list[..Min(count, |list|)] }

  function Rest(list: seq<Page>, count: nat): seq<Page> { list[Min(count, |list|)..] }

  // The list without its last pages, and those pages in the order they are freed.
  function Kept(list: seq<Page>, n: nat): seq<Page> { list[..|list| - Min(n, |list|)] }

  function Freed(list: seq<Page>, n: nat): seq<Page> { Reverse(list[|list| - Min(n, |list|)..]) }

  lemma FreedTwice(list: seq<Page>, m: nat, n: nat)
    requires m <= |list|
    ensures Kept(Kept(list, m), n) == Kept(list, m + n)
    ensures Freed(list, m) + Freed(Kept(list, m), n) == Freed(list, m + n)
  {
    var two, one := Freed(list, m) + Freed(Kept(list, m), n), Freed(list, m + n);
    forall i | 0 <= i < |one| ensures two[i] == one[i] {
      assert one[i] == list[|list| - 1 - i];
      if i >= m { assert Freed(Kept(list, m), n)[i - m] == Kept(list, m)[|list| - m - 1 - (i - m)]; }
    }
  }

  // No page is lost or doubled between the pool and what left it.
  ghost predicate Conserves(list: seq<Page>, gone: seq<Page>, all: seq<Page>) {
    multiset(list) + multiset(gone) == multiset(all)
  }

  lemma FreedConserves(list: seq<Page>, n: nat)
    ensures Conserves(Kept(list, n), Freed(list, n), list)
  {
    var k := |list| - Min(n, |list|);
    assert list == list[..k] + list[k..];
    ReverseConserves(list[k..]);
  }

  lemma {:induction false} ReverseConserves(s: seq<Page>)
    ensures multiset(Reverse(s)) == multiset(s)
  {
    if s != [] {
      ReverseConserves(s[..|s| - 1]);
      assert s == s[..|s| - 1] + [s[|s| - 1]];
    }
  }

  // ---------------------------------------------------------------- new pages

  // How many allocations succeed before the first failure.
  function Supplied(allocs: seq<Option<Page>>): (k: nat)
    ensures k <= |allocs| && (forall j :: 0 <= j < k ==> allocs[j].Some?) && (k < |allocs| ==> allocs[k] == None)
  {
    if allocs == [] || allocs[0] == None then 0 else 1 + Supplied(allocs[1..])
  }

  // How many of k pages are in the last, partial batch of m.
  function Batch(k: nat, m: nat): (b: nat)
    ensures b <= k && (m > 0 ==> b < m)
  {
    if k == 0 then 0 else if Batch(k - 1, m) + 1 == m then 0 else Batch(k - 1, m) + 1
  }

  lemma {:induction false} WholeBatches(k: nat, m: nat) returns (q: nat)
    requires m > 0
    ensures k == m * q + Batch(k, m)
  {
    q := 0;
    if k > 0 {
      q := WholeBatches(k - 1, m);
      if Batch(k - 1, m) + 1 == m {
        assert m * (q + 1) == m * q + m;
        q := q + 1;
      }
    }
  }

  lemma BatchIsRemainder(k: nat, m: nat)
    requires m > 0
    ensures Batch(k, m) == k % m
  {
    var q := WholeBatches(k, m);
    DivisionUnique(k, m, q, Batch(k, m));
  }

  // They are lost if its change of caching fails.
  function Lost(count: nat, k: nat, cachingFails: bool): nat {
    if cachingFails then Batch(k, Min(count, NUM_PAGES_TO_ALLOC)) else 0
  }

  // The pages that come in, newest first.
  function NewPages(allocs: seq<Option<Page>>, cachingFails: bool): seq<Page> {
    var k := Supplied(allocs);
    var pages := Reverse(Present(allocs[..k]));
    pages[Min(Lost(|allocs|, k, cachingFails), |pages|)..]
  }

  // ttm_alloc_new_pages: what the system answers to each allocation, and whether the
  // last, partial change of caching fails.
  method AllocNewPages(count: nat, allocs: seq<Option<Page>>, cachingFails: bool) returns (ok: bool, pages: seq<Page>)
    requires |allocs| == count
    ensures ok <==> Supplied(allocs) == count && Lost(count, count, cachingFails) == 0
    ensures pages == NewPages(allocs, cachingFails) && |pages| <= count && (ok ==> |pages| == count)
  {
    var maxCpages := Min(count, NUM_PAGES_TO_ALLOC);
    var cachingArray := new Page[maxCpages];
    var cpages := 0;
    pages := [];
    for i := 0 to count
      invariant Stocked(allocs, i, maxCpages, pages, cpages)
    {
      if allocs[i] == None {
        Delivered(allocs, i, pages, cpages, cachingFails);
        return false, if cpages > 0 && cachingFails then pages[cpages..] else pages;
      }
      StockedNext(allocs, i, maxCpages, pages, cpages);
      cachingArray[cpages] := allocs[i].value;
      cpages := cpages + 1;
      if cpages == maxCpages { cpages := 0; }
      pages := [allocs[i].value] + pages;
    }
    Delivered(allocs, count, pages, cpages, cachingFails);
    ok := true;
    if cpages > 0 && cachingFails {
      ok, pages := false, pages[cpages..];
    }
  }

  // The first i allocations succeeded: their pages, newest first, and those in the last batch of m.
  ghost predicate Stocked(allocs: seq<Option<Page>>, i: nat, m: nat, pages: seq<Page>, cpages: nat) {
    && i <= |allocs| && (forall j :: 0 <= j < i ==> allocs[j].Some?)
    && |pages| == i && pages == Reverse(Present(allocs[..i]))
    && cpages == Batch(i, m)
  }

  lemma StockedNext(allocs: seq<Option<Page>>, i: nat, m: nat, pages: seq<Page>, cpages: nat)
    requires Stocked(allocs, i, m, pages, cpages) && i < |allocs| && allocs[i].Some? && m == Min(|allocs|, NUM_PAGES_TO_ALLOC)
    ensures cpages < m
    ensures Stocked(allocs, i + 1, m, [allocs[i].value] + pages, if cpages + 1 == m then 0 else cpages + 1)
  {
    PresentNext(allocs, i);
  }

  lemma Delivered(allocs: seq<Option<Page>>, k: nat, pages: seq<Page>, cpages: nat, cachingFails: bool)
    requires Stocked(allocs, k, Min(|allocs|, NUM_PAGES_TO_ALLOC), pages, cpages) && (k < |allocs| ==> allocs[k] == None)
    ensures Supplied(allocs) == k && Lost(|allocs|, k, cachingFails) == (if cachingFails then cpages else 0) && cpages <= k == |pages|
    ensures NewPages(allocs, cachingFails) == pages[if cachingFails then cpages else 0..]
  {
    SuppliedIs(allocs, k);
  }

  lemma SuppliedIs(allocs: seq<Option<Page>>, k: nat)
    requires k <= |allocs| && (forall j :: 0 <= j < k ==> allocs[j].Some?) && (k < |allocs| ==> allocs[k] == None)
    ensures Supplied(allocs) == k
  {
  }

  lemma PresentNext(allocs: seq<Option<Page>>, i: nat)
    requires i < |allocs| && allocs[i].Some?
    ensures Present(allocs[..i + 1]) == Present(allocs[..i]) + [allocs[i].value]
    ensures Reverse(Present(allocs[..i + 1])) == [allocs[i].value] + Reverse(Present(allocs[..i]))
  {
    assert allocs[..i + 1][..i] == allocs[..i];
    var s := Present(allocs[..i + 1]);
    assert s[..|s| - 1] == Present(allocs[..i]);
  }

  class Pool {
    var list: seq<Page>
    var npages: nat
    var nfrees: nat
    var nrefills: nat
    var fillLock: bool

    ghost predicate Valid()
      reads this
    {
      npages == |list|
    }

    constructor ()
      ensures Valid() && list == [] && nfrees == 0 && !fillLock
    {
      list, npages, nfrees, nrefills, fillLock := [], 0, 0, 0, false;
    }

    // The walk of ttm_page_pool_free from the end of the list: it stays inside the
    // buffer and stops at the entry before the last one collected.
    method Collect(buf: array<Page>, toFree: nat) returns (count: nat)
      requires Valid() && toFree <= NUM_PAGES_TO_ALLOC && toFree <= buf.Length
      modifies buf
      ensures count == Min(toFree, |list|) && buf[..count] == Freed(list, toFree)
    {
      count := 0;
      var p := |list|;
      while p > 0
        invariant 0 <= p == |list| - count && count <= toFree
        invariant forall k :: 0 <= k < count ==> buf[k] == list[|list| - 1 - k]
        decreases p
      {
        if count >= toFree { break; }
        buf[count] := list[p - 1];
        count, p := count + 1, p - 1;
        if count >= NUM_PAGES_TO_ALLOC { break; }
      }
      assert |Freed(list, toFree)| == count;
    }

    // One locked section of ttm_page_pool_free: the last pages, unlinked.
    method FreeBatch(buf: array<Page>, toFree: nat) returns (batch: seq<Page>)
      requires Valid() && toFree <= NUM_PAGES_TO_ALLOC && toFree <= buf.Length
      modifies buf, this`list, this`npages, this`nfrees
      ensures Valid() && list == Kept(old(list), toFree) && batch == Freed(old(list), toFree)
      ensures nfrees == old(nfrees) + |batch|
    {
      var count := Collect(buf, toFree);
      batch := buf[..count];
      list := list[..|list| - count];
      npages, nfrees := npages - count, nfrees + count;
    }

    // ttm_page_pool_free, with nobody else at the pool.
    method Free(nrFree: nat, bufferOk: bool) returns (left: nat, freed: seq<Page>)
      requires Valid() && nrFree <= FREE_ALL_PAGES
      modifies this`list, this`npages, this`nfrees
      ensures Valid()
      ensures !bufferOk ==> left == 0 && freed == [] && list == old(list) && nfrees == old(nfrees)
      ensures bufferOk && nrFree != FREE_ALL_PAGES ==>
                list == Kept(old(list), nrFree) && freed == Freed(old(list), nrFree) && left == nrFree - |freed|
      ensures bufferOk && nrFree == FREE_ALL_PAGES ==> list == [] && freed == Reverse(old(list))
      ensures nfrees == old(nfrees) + |freed|
    {
      freed, left := [], nrFree;
      if !bufferOk { return 0, []; }
      var toFree := Min(nrFree, NUM_PAGES_TO_ALLOC);
      var buf := new Page[toFree];
      ghost var all := list;
      while true
        invariant Valid() && fresh(buf) && FreedSoFar(all, list, freed)
        invariant nfrees == old(nfrees) + |freed|
        invariant left == if nrFree == FREE_ALL_PAGES then nrFree else nrFree - |freed|
        invariant 0 <= toFree == Min(left, NUM_PAGES_TO_ALLOC) <= buf.Length
        decreases |list|
      {
        ghost var before := list;
        var batch := FreeBatch(buf, toFree);
        FreedMore(all, before, freed, toFree);
        freed := freed + batch;
        if |batch| < NUM_PAGES_TO_ALLOC {
          left := left - |batch|;
          return;
        }
        if nrFree != FREE_ALL_PAGES { left := left - |batch|; }
        toFree := Min(left, NUM_PAGES_TO_ALLOC);
        if left == 0 { return; }
      }
    }

    // The first locked part of ttm_page_pool_fill_locked: whether the lock is dropped to get new pages.
    method FillBegin(count: nat, small: nat) returns (filling: bool)
      requires Valid()
      modifies this`fillLock
      ensures filling <==> MustFill(old(fillLock), npages, count, small)
      ensures filling ==> |list| < count && !old(fillLock)
      ensures !filling && count < small ==> count <= |list| || old(fillLock)
      ensures fillLock == (old(fillLock) || filling)
    {
      if fillLock { return false; }
      fillLock := true;
      filling := count < small && count > npages;
      if !filling { fillLock := false; }
    }

    // The second locked part, with what the allocation gave meanwhile.
    method FillEnd(ok: bool, pages: seq<Page>, allocSize: nat)
      requires Valid() && fillLock && (ok ==> |pages| == allocSize)
      modifies this`list, this`npages, this`nrefills, this`fillLock
      ensures Valid() && list == pages + old(list) && !fillLock
      ensures nrefills == old(nrefills) + if ok then 1 else 0
    {
      if ok {
        list, nrefills, npages := pages + list, nrefills + 1, npages + allocSize;
      } else {
        var cpages := 0;
        for i := 0 to |pages|
          invariant cpages == i
        {
          cpages := cpages + 1;
        }
        list, npages := pages + list, npages + cpages;
      }
      fillLock := false;
    }

    // The cut of ttm_page_pool_get_pages.  The walk, from either end, stops at the last
    // page to take, or at the list head, written |list|, if there is none.
    method Take(count: nat) returns (missing: nat, pages: seq<Page>)
      requires Valid()
      modifies this`list, this`npages
      ensures Valid() && pages == Got(old(list), count) && list == Rest(old(list), count)
      ensures missing == count - |pages|
    {
      if count >= npages {
        pages, missing := list, count - npages;
        list, npages := [], 0;
        return;
      }
      var p: int;
      if count <= npages / 2 {
        var i := 0;
        p := 0;
        while p < |list|
          invariant i == p <= |list| && (count > 0 ==> i < count)
        {
          i := i + 1;
          if i == count { break; }
          p := p + 1;
        }
      } else {
        var i := npages + 1;
        p := |list| - 1;
        while p >= 0
          invariant i == p + 2 && i > count && p < |list|
        {
          i := i - 1;
          if i == count { break; }
          p := p - 1;
        }
        if p < 0 { p := |list|; }
      }
      pages, list := if p == |list| then [] else list[..p + 1], if p == |list| then list else list[p + 1..];
      npages, missing := npages - count, 0;
    }

    // The locked part of ttm_put_pages: entries move to the pool and the array is cleared.
    method PutLocked(pages: array<Option<Page>>, n: nat, maxSize: nat) returns (surplus: nat)
      requires Valid() && n <= pages.Length
      modifies this`list, this`npages, pages
      ensures Valid() && list == old(list) + Present(old(pages[..n]))
      ensures forall i :: 0 <= i < pages.Length ==> pages[i] == if i < n then None else old(pages[i])
      ensures surplus == Surplus(|list|, maxSize)
    {
      for i := 0 to n
        invariant Valid() && list == old(list) + Present(old(pages[..i]))
        invariant forall k :: 0 <= k < pages.Length ==> pages[k] == if k < i then None else old(pages[k])
      {
        assert old(pages[..i + 1])[..i] == old(pages[..i]);
        if pages[i].Some? {
          list := list + [pages[i].value];
          pages[i] := None;
          npages := npages + 1;
        }
      }
      surplus := 0;
      if npages > maxSize {
        surplus := npages - maxSize;
        if surplus < NUM_PAGES_TO_ALLOC { surplus := NUM_PAGES_TO_ALLOC; }
      }
    }

    // ttm_put_pages, with nobody else at the pool.
    method PutPages(pages: array<Option<Page>>, n: nat, maxSize: nat, bufferOk: bool) returns (freed: seq<Page>)
      requires Valid() && n <= pages.Length && |list| + n < FREE_ALL_PAGES
      modifies this`list, this`npages, this`nfrees, pages
      ensures Valid() && forall i :: 0 <= i < pages.Length ==> pages[i] == if i < n then None else old(pages[i])
      ensures var all := old(list) + Present(old(pages[..n]));
              && (bufferOk ==> |list| <= maxSize && list == Kept(all, Surplus(|all|, maxSize)))
              && (!bufferOk ==> list == all)
              && Conserves(list, freed, all)
              && (|all| <= maxSize ==> freed == [])
              && |freed| <= Max(|all| - maxSize, NUM_PAGES_TO_ALLOC)
    {
      var surplus := PutLocked(pages, n, maxSize);
      PresentCount(old(pages[..n]));
      freed := FreeSurplus(surplus, bufferOk);
    }

    method FreeSurplus(surplus: nat, bufferOk: bool) returns (freed: seq<Page>)
      requires Valid() && surplus < FREE_ALL_PAGES
      modifies this`list, this`npages, this`nfrees
      ensures Valid() && Conserves(list, freed, old(list)) && |freed| <= surplus
      ensures list == if bufferOk then Kept(old(list), surplus) else old(list)
    {
      freed := [];
      if surplus > 0 {
        FreedConserves(list, surplus);
        var left;
        left, freed := Free(surplus, bufferOk);
      }
    }

    // ttm_page_pool_get_pages, with nobody else at the pool.
    method PoolGetPages(count: nat, small: nat, allocs: seq<Option<Page>>, cachingFails: bool)
      returns (missing: nat, pages: seq<Page>, added: seq<Page>)
      requires Valid()
      modifies this`list, this`npages, this`nrefills, this`fillLock
      ensures Valid() && fillLock == old(fillLock)
      ensures added == if MustFill(old(fillLock), old(npages), count, small) then NewPages(allocs, cachingFails) else []
      ensures pages + list == added + old(list) && missing == count - |pages|
      ensures count <= |old(list)| ==> added == [] && pages == old(list)[..count]
      ensures |pages| == Min(count, |added| + |old(list)|) && |added| <= |allocs|
    {
      var filling := FillBegin(count, small);
      added := [];
      if filling {
        var ok;
        ok, added := AllocNewPages(|allocs|, allocs, cachingFails);
        FillEnd(ok, added, |allocs|);
      }
      missing, pages := Take(count);
    }

    // The end of ttm_get_pages, with `got` in the array: pages the pool did not have; on
    // failure all go to the pool.
    method GetExtra(pages: array<Option<Page>>, got: seq<Page>, maxSize: nat, w: Supply)
      returns (ok: bool, more: seq<Page>, freed: seq<Page>)
      requires Valid() && |got| <= pages.Length == |w.extra| && |list| + pages.Length < FREE_ALL_PAGES
      requires Present(pages[..|got|]) == got
      modifies this`list, this`npages, this`nfrees, pages
      ensures Valid()
      ensures ok ==> freed == [] && list == old(list) && Present(pages[..]) == got + more && |got + more| == pages.Length
      ensures !ok ==> Conserves(list, freed, old(list) + (got + more)) && (w.extraFails || None in w.extra)
    {
      ok, more := AllocNewPages(pages.Length - |got|, w.extra[|got|..], w.extraFails);
      Fill(pages, |got|, more);
      if ok {
        freed := [];
        assert pages[..] == pages[..|got + more|];
      } else {
        assert Present(pages[..|got + more|]) == got + more;
        freed := PutPages(pages, |got + more|, maxSize, w.bufferOk);
      }
    }

    // ttm_get_pages from a pool: the array is filled, or everything goes to the pool.
    method GetPages(pages: array<Option<Page>>, maxSize: nat, w: Supply) returns (ok: bool, added: seq<Page>, freed: seq<Page>)
      requires Valid() && |w.extra| == pages.Length
      requires |list| + |w.fill| + pages.Length < FREE_ALL_PAGES
      modifies this, pages
      ensures Valid() && fillLock == old(fillLock)
      ensures ok ==> freed == [] && |Present(pages[..])| == pages.Length
      ensures ok ==> multiset(list + Present(pages[..])) == multiset(old(list)) + multiset(added)
      ensures !ok ==> multiset(list) + multiset(freed) == multiset(old(list)) + multiset(added)
      ensures !ok ==> w.extraFails || None in w.extra
    {
      var missing, got;
      missing, got, added := PoolGetPages(pages.Length, w.small, w.fill, w.fillFails);
      Fill(pages, 0, got);
      if missing > 0 {
        var more;
        ghost var rest := list;
        ok, more, freed := GetExtra(pages, got, maxSize, w);
        Regroup(got, rest, added, old(list), more);
        added := added + more;
      } else {
        Regroup(got, list, added, old(list), []);
        assert got + [] == got && added + [] == added && pages[..] == pages[..|got|];
        ok, freed := true, [];
      }
    }
  }

  lemma Regroup(a: seq<Page>, b: seq<Page>, c: seq<Page>, d: seq<Page>, more: seq<Page>)
    requires a + b == c + d
    ensures multiset(b + (a + more)) == multiset(d) + multiset(c + more)
  {
    assert a + b == c + d;
    assert multiset(b + (a + more)) == multiset(a + b) + multiset(more);
    assert multiset(d) + multiset(c + more) == multiset(c + d) + multiset(more);
  }

  // Copies a page list into the array.
  method Fill(pages: array<Option<Page>>, at: nat, list: seq<Page>)
    requires at + |list| <= pages.Length
    modifies pages
    ensures forall i :: 0 <= i < pages.Length && !(at <= i < at + |list|) ==> pages[i] == old(pages[i])
    ensures at == 0 ==> Present(pages[..|list|]) == list
    ensures Present(pages[..at + |list|]) == Present(old(pages[..at])) + list
  {
    for i := 0 to |list|
      invariant forall k :: 0 <= k < pages.Length && !(at <= k < at + i) ==> pages[k] == old(pages[k])
      invariant Present(pages[..at + i]) == Present(old(pages[..at])) + list[..i]
    {
      ghost var before := pages[..at + i];
      pages[at + i] := Some(list[i]);
      assert pages[..at + i + 1][..at + i] == before;
      assert list[..i + 1] == list[..i] + [list[i]];
    }
    assert list[..|list|] == list;
  }

  // What counts as a small request, and what the system answers while pages are got; the
  // length of `fill` is the size of a refill.
  datatype Supply = Supply(small: nat, fill: seq<Option<Page>>, fillFails: bool, extra: seq<Option<Page>>, extraFails: bool, bufferOk: bool)

  // Only a request that counts as small and that the pool cannot meet fills it, and only one at a time.
  predicate MustFill(fillLock: bool, npages: nat, count: nat, small: nat) {
    !fillLock && count < small && count > npages
  }

  function Present(pages: seq<Option<Page>>): (r: seq<Page>) {
    if pages == [] then []
    else Present(pages[..|pages| - 1]) + if pages[|pages| - 1].Some? then [pages[|pages| - 1].value] else []
  }

  lemma {:induction false} PresentCount(pages: seq<Option<Page>>)
    ensures |Present(pages)| <= |pages|
  {
    if pages != [] { PresentCount(pages[..|pages| - 1]); }
  }

  // What to free from a pool above its limit, a full batch at least.
  function Surplus(n: nat, maxSize: nat): nat {
    if n > maxSize then Max(n - maxSize, NUM_PAGES_TO_ALLOC) else 0
  }

  // The lists of the pools, and their total length.
  ghost function Lists(pools: seq<Pool>): (r: seq<seq<Page>>)
    reads pools
  {
    seq(|pools|, i requires 0 <= i < |pools| reads pools => pools[i].list)
  }

  function Total(lists: seq<seq<Page>>): nat
    requires |lists| == NUM_POOLS
  {
    |lists[0]| + |lists[1]| + |lists[2]| + |lists[3]|
  }

  ghost predicate Separate(pools: seq<Pool>)
    reads pools
  {
    && |pools| == NUM_POOLS && (forall i, j :: 0 <= i < j < NUM_POOLS ==> pools[i] != pools[j])
    && forall i :: 0 <= i < NUM_POOLS ==> pools[i].Valid()
  }

  // The pool of round i.
  function Turn(offset: nat, i: nat): (k: nat)
    ensures k < NUM_POOLS
  {
    (i + offset) % NUM_POOLS
  }

  method ShrinkPool(pools: seq<Pool>, k: nat, nrFree: nat) returns (left: nat)
    requires Separate(pools) && k < NUM_POOLS && nrFree < FREE_ALL_PAGES
    modifies pools[k]
    ensures Separate(pools) && Lists(pools) == old(Lists(pools))[k := Kept(old(pools[k].list), nrFree)]
    ensures left == nrFree - Min(nrFree, |old(pools[k].list)|)
  {
    var freed;
    left, freed := pools[k].Free(nrFree, true);
  }

  // What i rounds from `lists` have come to, with `left` of `nr` still to free.
  ghost predicate Scanned(lists: seq<seq<Page>>, lists': seq<seq<Page>>, offset: nat, i: nat, nr: nat, left: nat) {
    && |lists| == |lists'| == NUM_POOLS && left <= nr
    && (forall k :: 0 <= k < NUM_POOLS ==> lists'[k] <= lists[k])
    && Total(lists') == Total(lists) - (nr - left)
    && (left > 0 ==> forall k :: 0 <= k < i ==> lists'[Turn(offset, k)] == [])
  }

  lemma ScanMore(lists: seq<seq<Page>>, lists': seq<seq<Page>>, offset: nat, i: nat, nr: nat, left: nat)
    requires Scanned(lists, lists', offset, i, nr, left)
    ensures var k := Turn(offset, i);
            Scanned(lists, lists'[k := Kept(lists'[k], left)], offset, i + 1, nr, left - Min(left, |lists'[k]|))
  {
  }

  lemma ScanDone(lists: seq<seq<Page>>, lists': seq<seq<Page>>, offset: nat, i: nat, nr: nat, left: nat)
    requires Scanned(lists, lists', offset, i, nr, left) && (left == 0 || i == NUM_POOLS)
    ensures nr - left == Min(nr, Total(lists))
  {
    if left > 0 {
      forall k | 0 <= k < NUM_POOLS ensures lists'[k] == [] { EveryTurn(offset, k); }
    }
  }

  // ttm_pool_shrink_scan, round robin from the pool after `startPool`.
  method ShrinkScan(pools: seq<Pool>, startPool: nat, nrToScan: nat) returns (freed: nat)
    requires Separate(pools) && nrToScan < 0x8000_0000
    modifies pools
    ensures Separate(pools) && forall i :: 0 <= i < NUM_POOLS ==> Lists(pools)[i] <= old(Lists(pools))[i]
    ensures freed == Min(nrToScan, Total(old(Lists(pools)))) && Total(Lists(pools)) == Total(old(Lists(pools))) - freed
  {
    var offset := (startPool + 1) % NUM_POOLS;
    var shrink: nat := nrToScan;
    freed := 0;
    ghost var done := 0;
    for i := 0 to NUM_POOLS
      invariant shrink + freed == nrToScan && Separate(pools) && done == i
      invariant Scanned(old(Lists(pools)), Lists(pools), offset, i, nrToScan, shrink)
    {
      if shrink == 0 { break; }
      var nrFree := shrink;
      ScanMore(old(Lists(pools)), Lists(pools), offset, i, nrToScan, shrink);
      shrink := ShrinkPool(pools, Turn(offset, i), nrFree);
      freed := freed + (nrFree - shrink);
      done := done + 1;
    }
    ScanDone(old(Lists(pools)), Lists(pools), offset, done, nrToScan, shrink);
  }

  lemma EveryTurn(offset: nat, k: nat)
    requires k < NUM_POOLS
    ensures 0 <= (k - offset) % NUM_POOLS < NUM_POOLS && Turn(offset, (k - offset) % NUM_POOLS) == k
  {
  }

  ghost predicate FreedSoFar(all: seq<Page>, list: seq<Page>, freed: seq<Page>) {
    |freed| <= |all| && list == Kept(all, |freed|) && freed == Freed(all, |freed|)
  }

  lemma FreedMore(all: seq<Page>, list: seq<Page>, freed: seq<Page>, n: nat)
    requires FreedSoFar(all, list, freed)
    ensures FreedSoFar(all, Kept(list, n), freed + Freed(list, n))
    ensures Kept(list, n) == Kept(all, |freed| + n) && freed + Freed(list, n) == Freed(all, |freed| + n)
  {
    FreedTwice(all, |freed|, n);
  }
}

/**
 Any interleaving of the locked sections of fill, get, put and free.  A fill is two
 sections, and other threads come in between.  What counts as a small request and how
 much a fill allocates may change from call to call.
 */
module PoolRuns {
  import opened Base
  import opened PagePool

  type Tid = nat

  // `fills` are the requests of the threads that dropped the lock to get new pages;
  // `entered` and `gone` are all pages that ever came into the pool and left it.
  datatype State = State(list: seq<Page>, npages: int, fillLock: bool, fills: map<Tid, nat>,
                         entered: multiset<Page>, gone: multiset<Page>)

  datatype Section =
    | GetBegin(t: Tid, count: nat, small: nat)
    | GetEnd(t: Tid, ok: bool, pages: seq<Page>, allocSize: nat)
    | Put(pages: seq<Page>)
    | FreeSome(n: nat)

  ghost predicate Enabled(s: State, e: Section) {
    match e
    case GetBegin(t, _, _) => t !in s.fills
    case GetEnd(t, ok, pages, allocSize) => t in s.fills && (ok ==> |pages| == allocSize)
    case Put(_) => true
    case FreeSome(n) => n <= NUM_PAGES_TO_ALLOC
  }

  // The counter moves as the code moves it, not by looking at the list.
  function TakeFrom(s: State, count: nat): State {
    if count >= s.npages
    then s.(list := [], npages := 0, gone := s.gone + multiset(s.list))
    else s.(list := Rest(s.list, count), npages := s.npages - count, gone := s.gone + multiset(Got(s.list, count)))
  }

  function Refill(s: State, t: Tid, ok: bool, pages: seq<Page>, allocSize: nat): State {
    s.(list := pages + s.list, entered := s.entered + multiset(pages),
       npages := s.npages + if ok then allocSize else |pages|,
       fillLock := false, fills := s.fills - {t})
  }

  ghost function Apply(s: State, e: Section): State
    requires Enabled(s, e)
  {
    match e
    case GetBegin(t, count, small) =>
      if MustFill(s.fillLock, Max(s.npages, 0), count, small) then s.(fillLock := true, fills := s.fills[t := count])
      else TakeFrom(s, count)
    case GetEnd(t, ok, pages, allocSize) => TakeFrom(Refill(s, t, ok, pages, allocSize), s.fills[t])
    case Put(pages) =>
      s.(list := s.list + pages, npages := s.npages + |pages|, entered := s.entered + multiset(pages))
    case FreeSome(n) =>
      s.(list := Kept(s.list, n), npages := s.npages - |Freed(s.list, n)|, gone := s.gone + multiset(Freed(s.list, n)))
  }

  ghost predicate Runs(s: State, es: seq<Section>, t: State)
    decreases es
  {
    if es == [] then s == t else Enabled(s, es[0]) && Runs(Apply(s, es[0]), es[1..], t)
  }

  predicate Initial(s: State) { s == State([], 0, false, map[], multiset{}, multiset{}) }

  ghost predicate Inv(s: State) {
    && s.npages == |s.list|
    && multiset(s.list) + s.gone == s.entered
    && |s.fills| == (if s.fillLock then 1 else 0)
  }

  lemma TakeKeeps(s: State, count: nat)
    requires Inv(s)
    ensures Inv(TakeFrom(s, count))
  {
    assert s.list == Got(s.list, count) + Rest(s.list, count);
  }

  lemma TakeExact(s: State, count: nat)
    requires s.npages == |s.list|
    ensures TakeFrom(s, count) ==
            s.(list := Rest(s.list, count), npages := |Rest(s.list, count)|, gone := s.gone + multiset(Got(s.list, count)))
  {
    if count >= s.npages { assert Got(s.list, count) == s.list && Rest(s.list, count) == []; }
  }

  lemma EnterKeeps(list: seq<Page>, pages: seq<Page>, gone: multiset<Page>, entered: multiset<Page>)
    requires multiset(list) + gone == entered
    ensures multiset(list + pages) + gone == entered + multiset(pages)
    ensures multiset(pages + list) + gone == entered + multiset(pages)
  {
  }

  lemma InvKept(s: State, e: Section)
    requires Inv(s) && Enabled(s, e)
    ensures Inv(Apply(s, e))
  {
    match e {
      case GetBegin(_, count, _) => TakeKeeps(s, count);
      case GetEnd(t, ok, pages, allocSize) =>
        assert (s.fills - {t}).Keys == s.fills.Keys - {t};
        EnterKeeps(s.list, pages, s.gone, s.entered);
        TakeKeeps(Refill(s, t, ok, pages, allocSize), s.fills[t]);
      case Put(pages) => EnterKeeps(s.list, pages, s.gone, s.entered);
      case FreeSome(n) => FreedConserves(s.list, n);
    }
  }

  lemma {:induction false} RunKeepsInv(s: State, es: seq<Section>, t: State)
    requires Inv(s) && Runs(s, es, t)
    ensures Inv(t)
    decreases es
  {
    if es != [] {
      InvKept(s, es[0]);
      RunKeepsInv(Apply(s, es[0]), es[1..], t);
    }
  }

  // Whenever the pool lock is free the counter is the length of the list, no page is
  // lost or doubled, and at most one thread fills the pool.
  lemma PoolConsistent(s0: State, es: seq<Section>, s: State)
    requires Initial(s0) && Runs(s0, es, s)
    ensures s.npages == |s.list| && multiset(s.list) + s.gone == s.entered
    ensures |s.fills| <= 1 && (s.fillLock <==> s.fills != map[])
  {
    RunKeepsInv(s0, es, s);
  }

  // A pool with the threads that fill it and the pages that came and went: its methods are
  // the locked sections, made of the pool's own.
  class SharedPool {
    const pool: Pool
    ghost var fills: map<Tid, nat>
    ghost var entered: multiset<Page>
    ghost var gone: multiset<Page>

    constructor ()
      ensures fresh(pool) && Initial(Abs()) && Valid()
    {
      pool := new Pool();
      fills, entered, gone := map[], multiset{}, multiset{};
    }

    ghost function Abs(): State
      reads this, pool
    {
      State(pool.list, pool.npages, pool.fillLock, fills, entered, gone)
    }

    ghost predicate Valid()
      reads this, pool
    {
      Inv(Abs())
    }

    method TakeSection(count: nat) returns (missing: nat, pages: seq<Page>)
      requires pool.Valid()
      modifies this`gone, pool`list, pool`npages
      ensures Abs() == TakeFrom(old(Abs()), count) && missing == count - |pages| && gone == old(gone) + multiset(pages)
    {
      TakeExact(Abs(), count);
      missing, pages := pool.Take(count);
      gone := gone + multiset(pages);
    }

    // Up to dropping the lock for a fill, or to the end.
    method Begin(ghost t: Tid, count: nat, small: nat) returns (filling: bool, missing: nat, pages: seq<Page>)
      requires Valid() && t !in fills
      modifies this, pool
      ensures Valid() && Abs() == Apply(old(Abs()), GetBegin(t, count, small))
      ensures filling ==> fills == old(fills)[t := count]
      ensures !filling ==> missing == count - |pages| && gone == old(gone) + multiset(pages)
    {
      InvKept(Abs(), GetBegin(t, count, small));
      filling := pool.FillBegin(count, small);
      missing, pages := 0, [];
      if filling {
        fills := fills[t := count];
      } else {
        missing, pages := TakeSection(count);
      }
      assert Abs() == Apply(old(Abs()), GetBegin(t, count, small));
    }

    // With the lock again after a fill.
    method End(ghost t: Tid, count: nat, ok: bool, got: seq<Page>, allocSize: nat) returns (missing: nat, pages: seq<Page>)
      requires Valid() && t in fills && fills[t] == count && (ok ==> |got| == allocSize)
      modifies this, pool
      ensures Valid() && Abs() == Apply(old(Abs()), GetEnd(t, ok, got, allocSize))
      ensures missing == count - |pages| && gone == old(gone) + multiset(pages)
    {
      InvKept(Abs(), GetEnd(t, ok, got, allocSize));
      assert |fills| > 0;
      pool.FillEnd(ok, got, allocSize);
      fills, entered := fills - {t}, entered + multiset(got);
      assert Abs() == Refill(old(Abs()), t, ok, got, allocSize);
      missing, pages := TakeSection(count);
      assert Abs() == Apply(old(Abs()), GetEnd(t, ok, got, allocSize));
    }

    method PutSection(pages: array<Option<Page>>, n: nat, maxSize: nat) returns (surplus: nat)
      requires Valid() && n <= pages.Length
      modifies this, pool, pages
      ensures Valid() && Abs() == Apply(old(Abs()), Put(Present(old(pages[..n]))))
    {
      ghost var put := Present(pages[..n]);
      InvKept(Abs(), Put(put));
      surplus := pool.PutLocked(pages, n, maxSize);
      entered := entered + multiset(put);
    }

    method FreeSection(buf: array<Page>, toFree: nat) returns (batch: seq<Page>)
      requires Valid() && toFree <= NUM_PAGES_TO_ALLOC && toFree <= buf.Length
      modifies this, pool, buf
      ensures Valid() && Abs() == Apply(old(Abs()), FreeSome(toFree)) && gone == old(gone) + multiset(batch)
    {
      InvKept(Abs(), FreeSome(toFree));
      batch := pool.FreeBatch(buf, toFree);
      gone := gone + multiset(batch);
    }
  }
}
