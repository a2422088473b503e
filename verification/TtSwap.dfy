/**
 The contents of a page array across swapping.

 While the array is populated its contents are in the pages; while it is swapped out
 they are in the swap storage, which is a file of the buffer or a private one.  The
 functions on Value say what each call does; the class does it in loops.
 */
module TtSwap {
  import opened Base

  type Content = nat

  datatype TtState = Unpopulated | Unbound | Bound

  // Where a swapped-out array is.
  datatype Storage = Nowhere | Private(contents: seq<Content>) | Persistent

  datatype Value = Value(pages: seq<Option<Content>>, state: TtState, storage: Storage, file: Option<seq<Content>>)

  ghost predicate Wf(v: Value) {
    && (v.state == Unpopulated ==> forall i :: 0 <= i < |v.pages| ==> v.pages[i] == None)
    && (v.state != Unpopulated ==> v.storage == Nowhere && forall i :: 0 <= i < |v.pages| ==> v.pages[i].Some?)
    && (v.file.Some? ==> |v.file.value| == |v.pages| && !v.storage.Private?)
    && (v.storage.Private? ==> |v.storage.contents| == |v.pages|)
    && (v.storage.Persistent? ==> v.file.Some?)
  }

  // The array has contents: it is populated or swapped out.
  predicate Live(v: Value) { v.state != Unpopulated || v.storage != Nowhere }

  ghost function Logical(v: Value): (c: seq<Content>)
    requires Wf(v) && Live(v)
    ensures |c| == |v.pages|
  {
    match v.storage
    case Private(contents) => contents
    case Persistent => v.file.value
    case Nowhere => seq(|v.pages|, i requires 0 <= i < |v.pages| => v.pages[i].value)
  }

  // ---------------------------------------------------------------- what the calls do

  function NoPages(n: nat): seq<Option<Content>> { seq(n, _ => None) }

  // The first page that cannot be read from its file, counting only pages that are asked for.
  function FirstBad(wanted: seq<bool>, readOk: seq<bool>): (k: nat)
    requires |readOk| == |wanted|
    ensures k <= |wanted| && (k < |wanted| ==> wanted[k] && !readOk[k])
    ensures forall i :: 0 <= i < k ==> !wanted[i] || readOk[i]
  {
    if wanted == [] then 0 else if wanted[0] && !readOk[0] then 0 else 1 + FirstBad(wanted[1..], readOk[1..])
  }

  function Wanted(pages: seq<Option<Content>>): seq<bool> {
    seq(|pages|, i requires 0 <= i < |pages| => pages[i].Some?)
  }

  // The storage after the first k pages were copied to it.
  function Copied(pages: seq<Option<Content>>, base: seq<Content>, k: nat): (c: seq<Content>)
    requires |base| == |pages|
    ensures |c| == |base|
  {
    seq(|pages|, i requires 0 <= i < |pages| => if i < k && pages[i].Some? then pages[i].value else base[i])
  }

  // A new file reads as zeros.
  function StorageBefore(v: Value): (c: seq<Content>) {
    if v.file.Some? then v.file.value else seq(|v.pages|, _ => 0)
  }

  // ttm_tt_swapout
  ghost function AfterSwapout(v: Value, setupOk: bool, readOk: seq<bool>): (Value, bool)
    requires Wf(v) && |readOk| == |v.pages|
  {
    if v.file == None && !setupOk then (v, false)
    else
      var n := |v.pages|;
      var bad := FirstBad(Wanted(v.pages), readOk);
      var copied := Copied(v.pages, StorageBefore(v), bad);
      var file := if v.file.Some? then Some(copied) else None;
      if bad < n then (v.(file := file), false)
      else (Value(NoPages(n), Unpopulated, if v.file.Some? then Persistent else Private(copied), file), true)
  }

  // ttm_pool_populate: `got` pages can be allocated, holding `garbage`.
  ghost function AfterPopulate(v: Value, got: nat, garbage: seq<Content>, readOk: seq<bool>): (Value, bool)
    requires Wf(v) && |readOk| == |garbage| == |v.pages|
  {
    if v.state != Unpopulated then (v, true)
    else if got < |v.pages| || (v.storage != Nowhere && false in readOk) then (v, false)
    else (Value(Holding(if v.storage == Nowhere then garbage else Logical(v)), Unbound, Nowhere, v.file), true)
  }

  function Holding(c: seq<Content>): seq<Option<Content>> {
    seq(|c|, i requires 0 <= i < |c| => Some(c[i]))
  }

  // ---------------------------------------------------------------- contents are kept

  lemma PopulateKeeps(v: Value, got: nat, garbage: seq<Content>, readOk: seq<bool>)
    requires Wf(v) && |readOk| == |garbage| == |v.pages|
    ensures var (w, ok) := AfterPopulate(v, got, garbage, readOk);
            && Wf(w) && (Live(v) ==> Live(w) && Logical(w) == Logical(v))
            && (ok <==> v.state != Unpopulated
                        || (got >= |v.pages| && (v.storage != Nowhere ==> forall i :: 0 <= i < |readOk| ==> readOk[i])))
            && (if ok && v.state == Unpopulated then w.state == Unbound && w.storage == Nowhere else w == v)
  {
    assert (false in readOk) <==> exists i :: 0 <= i < |readOk| && !readOk[i];
  }

  lemma SwapoutKeeps(v: Value, setupOk: bool, readOk: seq<bool>)
    requires Wf(v) && |readOk| == |v.pages| && v.state == Unbound
    ensures var (w, ok) := AfterSwapout(v, setupOk, readOk);
            && Wf(w) && Live(w) && Logical(w) == Logical(v)
            && (ok <==> w.state == Unpopulated && w.storage != Nowhere)
            && (ok <==> (v.file.Some? || setupOk) && forall i :: 0 <= i < |readOk| ==> readOk[i])
            && (!ok ==> w.state == Unbound && w.pages == v.pages)
  {
    var bad := FirstBad(Wanted(v.pages), readOk);
    assert bad < |v.pages| ==> !readOk[bad];
    assert forall i :: 0 <= i < |v.pages| ==> Wanted(v.pages)[i];
  }

  // Swapping out an array that is swapped out already keeps its contents exactly if the
  // buffer has a file of its own, the call fails, or all contents are zero.
  lemma SwapoutTwice(v: Value, setupOk: bool, readOk: seq<bool>)
    requires Wf(v) && |readOk| == |v.pages| && v.storage != Nowhere
    ensures var (w, ok) := AfterSwapout(v, setupOk, readOk);
            && Wf(w) && Live(w)
            && (Logical(w) == Logical(v) <==>
                  v.file.Some? || !setupOk || forall i :: 0 <= i < |v.pages| ==> Logical(v)[i] == 0)
  {
    assert FirstBad(Wanted(v.pages), readOk) == |v.pages|;
    if v.file == None && setupOk {
      assert Copied(v.pages, StorageBefore(v), |v.pages|) == seq(|v.pages|, _ => 0);
    } else if v.file.Some? {
      assert Copied(v.pages, StorageBefore(v), |v.pages|) == v.file.value;
    }
  }

  // One page, swapped out twice, reads as zero afterwards.
  lemma SwapoutTwiceLoses()
    ensures var v := Value([None], Unpopulated, Private([7]), None);
            && Wf(v) && Live(v) && Logical(v) == [7]
            && var (w, ok) := AfterSwapout(v, true, [true]); Wf(w) && Live(w) && ok && Logical(w) == [0]
  {
    var v := Value([None], Unpopulated, Private([7]), None);
    assert FirstBad(Wanted(v.pages), [true]) == 1;
  }

  datatype Call =
    | Swapout(setupOk: bool, readOk: seq<bool>)
    | Populate(got: nat, garbage: seq<Content>, readable: seq<bool>)
    | Bind(got: nat, garbage: seq<Content>, readable: seq<bool>, bindOk: bool)
    | Unbind
    | Write(i: nat, c: Content)

  // Only a populated, unbound array is swapped out.
  ghost predicate Enabled(v: Value, e: Call) {
    match e
    case Swapout(_, readOk) => |readOk| == |v.pages| && v.state == Unbound
    case Populate(_, garbage, readOk) => |readOk| == |garbage| == |v.pages|
    case Bind(_, garbage, readOk, _) => |readOk| == |garbage| == |v.pages|
    case Unbind => true
    case Write(i, _) => i < |v.pages| && v.state != Unpopulated
  }

  ghost function Apply(v: Value, e: Call): Value
    requires Wf(v) && Enabled(v, e)
  {
    match e
    case Swapout(setupOk, readOk) => AfterSwapout(v, setupOk, readOk).0
    case Populate(got, garbage, readOk) => AfterPopulate(v, got, garbage, readOk).0
    case Bind(got, garbage, readOk, bindOk) =>
      var (w, ok) := AfterPopulate(v, got, garbage, readOk);
      if ok && bindOk then w.(state := Bound) else w
    case Unbind => if v.state == Bound then v.(state := Unbound) else v
    case Write(i, c) => v.(pages := v.pages[i := Some(c)])
  }

  // A bind leaves the array bound exactly if it could be populated and the backend bound it,
  // and an unbind then leaves what populating alone would have left.
  lemma UnbindUndoesBind(v: Value, got: nat, garbage: seq<Content>, readOk: seq<bool>, bindOk: bool)
    requires Wf(v) && |readOk| == |garbage| == |v.pages| && v.state != Bound
    ensures var w := Apply(v, Bind(got, garbage, readOk, bindOk));
            && (w.state == Bound <==> bindOk && AfterPopulate(v, got, garbage, readOk).1)
            && Wf(w) && Apply(w, Unbind) == Apply(v, Populate(got, garbage, readOk))
  {
    PopulateKeeps(v, got, garbage, readOk);
  }

  // What a run of calls should leave in the array: only writes count.
  function Expected(contents: seq<Content>, es: seq<Call>): seq<Content>
    decreases es
  {
    if es == [] then contents
    else Expected(if es[0].Write? && es[0].i < |contents| then contents[es[0].i := es[0].c] else contents, es[1..])
  }

  ghost predicate Runs(v: Value, es: seq<Call>, w: Value)
    requires Wf(v)
    decreases es
  {
    if es == [] then v == w
    else Enabled(v, es[0]) && Wf(Apply(v, es[0])) && Runs(Apply(v, es[0]), es[1..], w)
  }

  lemma CallKeeps(v: Value, e: Call)
    requires Wf(v) && Live(v) && Enabled(v, e)
    ensures var w := Apply(v, e);
            Wf(w) && Live(w) && Logical(w) == if e.Write? then Logical(v)[e.i := e.c] else Logical(v)
  {
    match e {
      case Swapout(setupOk, readOk) => SwapoutKeeps(v, setupOk, readOk);
      case Populate(got, garbage, readOk) => PopulateKeeps(v, got, garbage, readOk);
      case Bind(got, garbage, readOk, _) => PopulateKeeps(v, got, garbage, readOk);
      case Unbind =>
      case Write(_, _) =>
    }
  }

  // Successful or failed, no sequence of calls loses contents.
  lemma {:induction false} ContentsSurvive(v: Value, es: seq<Call>, w: Value)
    requires Wf(v) && Live(v) && Runs(v, es, w)
    ensures Wf(w) && Live(w) && Logical(w) == Expected(Logical(v), es)
    decreases es
  {
    if es != [] {
      CallKeeps(v, es[0]);
      ContentsSurvive(Apply(v, es[0]), es[1..], w);
    }
  }

  // ---------------------------------------------------------------- the code

  // `file` is the buffer's own swap file, `storage` the swap storage in use; both may be
  // the same array.
  class Tt {
    const file: array?<Content>
    const pages: array<Option<Content>>
    var state: TtState
    var swapped: bool
    var persistentSwap: bool
    var storage: array?<Content>

    ghost predicate Valid()
      reads this, pages, file, storage
    {
      && (swapped <==> storage != null)
      && (storage != null && storage != file ==> storage.Length == pages.Length)
      && (swapped && storage == file ==> persistentSwap)
      && (file != null ==> file.Length == pages.Length && (storage == null || storage == file))
      && Wf(Abs())
    }

    ghost function Abs(): Value
      reads this, pages, file, storage
    {
      Value(pages[..], state,
            if storage == null then Nowhere else if storage == file then Persistent else Private(storage[..]),
            if file == null then None else Some(file[..]))
    }

    // ttm_tt_unpopulate.  Clearing the mappings of a populated array follows every page
    // pointer, so each must be there.
    method Unpopulate()
      requires state != Unpopulated ==> forall i :: 0 <= i < pages.Length ==> pages[i].Some?
      modifies this`state, pages
      ensures state == Unpopulated
      ensures old(state) == Unpopulated ==> pages[..] == old(pages[..])
      ensures old(state) != Unpopulated ==> pages[..] == NoPages(pages.Length)
    {
      if state == Unpopulated { return; }
      ReleasePages();
    }

    // ttm_pool_unpopulate
    method ReleasePages()
      modifies this`state, pages
      ensures state == Unpopulated && pages[..] == NoPages(pages.Length)
    {
      for i := 0 to pages.Length
        invariant forall k :: 0 <= k < i ==> pages[k] == None
      {
        if pages[i].Some? { pages[i] := None; }
      }
      state := Unpopulated;
    }

    // The copy loop of ttm_tt_swapout; it stops at the first page that cannot be read.
    method CopyOut(to: array<Content>, readOk: seq<bool>) returns (ok: bool)
      requires to.Length == pages.Length == |readOk|
      modifies to
      ensures var bad := FirstBad(Wanted(pages[..]), readOk);
              (ok <==> bad == pages.Length) && to[..] == Copied(pages[..], old(to[..]), bad)
    {
      ghost var wanted := Wanted(pages[..]);
      for i := 0 to pages.Length
        invariant forall k :: 0 <= k < i ==> !wanted[k] || readOk[k]
        invariant to[..] == Copied(pages[..], old(to[..]), i)
      {
        if pages[i] == None { continue; }
        if !readOk[i] {
          FirstBadIs(wanted, readOk, i);
          return false;
        }
        to[i] := pages[i].value;
      }
      FirstBadIs(wanted, readOk, pages.Length);
      return true;
    }

    // ttm_tt_swapout
    method Swapout(setupOk: bool, readOk: seq<bool>) returns (ok: bool)
      requires Valid() && state != Bound && |readOk| == pages.Length
      modifies this, pages, file
      ensures Valid() && (Abs(), ok) == AfterSwapout(old(Abs()), setupOk, readOk)
    {
      var to := file;
      if to == null {
        if !setupOk { return false; }
        to := new Content[pages.Length](_ => 0);
        assert to[..] == seq(pages.Length, _ => 0);
      }
      ok := CopyOut(to, readOk);
      if !ok { return; }
      Unpopulate();
      assert pages[..] == NoPages(pages.Length);
      storage, swapped := to, true;
      if file != null { persistentSwap := true; }
    }

    // ttm_tt_swapin
    method Swapin(readOk: seq<bool>) returns (ok: bool)
      requires storage != null && storage.Length == pages.Length == |readOk|
      modifies this`storage, this`swapped, pages
      ensures ok <==> false !in readOk && forall i :: 0 <= i < pages.Length ==> old(pages[i]).Some?
      ensures ok ==> pages[..] == Holding(old(storage[..])) && storage == null && !swapped
      ensures !ok ==> storage == old(storage) && swapped == old(swapped)
    {
      for i := 0 to pages.Length
        invariant forall k :: 0 <= k < i ==> readOk[k] && old(pages[k]).Some? && pages[k] == Some(storage[k])
        invariant forall k :: i <= k < pages.Length ==> pages[k] == old(pages[k])
        modifies pages
      {
        if !readOk[i] || pages[i] == None { return false; }
        pages[i] := Some(storage[i]);
      }
      storage, swapped := null, false;
      return true;
    }

    // ttm_pool_populate
    method Populate(got: nat, garbage: seq<Content>, readOk: seq<bool>) returns (ok: bool)
      requires Valid() && |readOk| == |garbage| == pages.Length
      modifies this, pages
      ensures Valid() && (Abs(), ok) == AfterPopulate(old(Abs()), got, garbage, readOk)
    {
      if state != Unpopulated { return true; }
      for i := 0 to pages.Length
        invariant i <= got
        invariant forall k :: 0 <= k < pages.Length ==> pages[k] == if k < i then Some(garbage[k]) else None
        modifies pages, this`state
        invariant state == Unpopulated
      {
        if i >= got {
          ReleasePages();
          assert pages[..] == old(pages[..]);
          return false;
        }
        pages[i] := Some(garbage[i]);
      }
      assert pages[..] == Holding(garbage);
      if swapped {
        ok := Swapin(readOk);
        if !ok {
          ReleasePages();
          assert pages[..] == old(pages[..]);
          return;
        }
      }
      state := Unbound;
      return true;
    }
  }

  lemma FirstBadIs(wanted: seq<bool>, readOk: seq<bool>, k: nat)
    requires |readOk| == |wanted| && k <= |wanted| && (k < |wanted| ==> wanted[k] && !readOk[k])
    requires forall i :: 0 <= i < k ==> !wanted[i] || readOk[i]
    ensures FirstBad(wanted, readOk) == k
  {
  }
}
