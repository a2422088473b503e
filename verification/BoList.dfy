/**
 Building and sorting the buffer list of a command submission.

 `amdgpu_bo_list_set` fills one array from both ends: buffers of the kernel from
 the front, user-pointer buffers from the back.  `amdgpu_bo_list_get_list` links
 the entries in descending order of priority with one bucket for each priority.
 */
module BoList {
  import opened Base

  const MAX_PRIORITY: nat := 32

  // A request: the buffer its handle names (None for an unknown handle), and
  // whether it is a user pointer of the caller, of somebody else, or none.
  datatype Mm = Kernel | Mine | Foreign
  datatype Info = Info(bo: Option<nat>, mm: Mm, priority: nat)

  datatype Entry = Entry(bo: nat, priority: nat)

  datatype Status = Ok | NoEntry | NotPermitted

  predicate Acceptable(i: Info) { i.bo.Some? && !i.mm.Foreign? }

  function EntryOf(i: Info): Entry
    requires i.bo.Some?
  {
    Entry(i.bo.value, if i.priority < MAX_PRIORITY then i.priority else MAX_PRIORITY)
  }

  // A priority in range is taken as it is, a larger one becomes the largest; two requests
  // are never put in the wrong order.
  lemma ClampedPriority(i: Info, j: Info)
    requires i.bo.Some? && j.bo.Some? && i.priority <= j.priority
    ensures EntryOf(i).bo == i.bo.value && EntryOf(i).priority <= 32
    ensures i.priority <= 32 ==> EntryOf(i).priority == i.priority
    ensures i.priority > 32 ==> EntryOf(i).priority == 32
    ensures EntryOf(i).priority <= EntryOf(j).priority
  {
  }

  // The entries of the requests with (or without) a user pointer, in request order.
  function Select(info: seq<Info>, user: bool): seq<Entry>
    requires forall k :: 0 <= k < |info| ==> Acceptable(info[k])
  {
    if info == [] then []
    else
      var rest := Select(info[..|info| - 1], user);
      var last := info[|info| - 1];
      assert Acceptable(last);
      if last.mm.Mine? == user then rest + [EntryOf(last)] else rest
  }

  lemma {:induction false} SelectCounts(info: seq<Info>)
    requires forall k :: 0 <= k < |info| ==> Acceptable(info[k])
    ensures |Select(info, false)| + |Select(info, true)| == |info|
  {
    if info != [] { SelectCounts(info[..|info| - 1]); }
  }

  lemma SelectNext(info: seq<Info>, i: nat, user: bool)
    requires i < |info| && forall k :: 0 <= k <= i ==> Acceptable(info[k])
    ensures Select(info[..i + 1], user)
         == Select(info[..i], user) + if info[i].mm.Mine? == user then [EntryOf(info[i])] else []
    ensures Reverse(Select(info[..i + 1], user))
         == (if info[i].mm.Mine? == user then [EntryOf(info[i])] else []) + Reverse(Select(info[..i], user))
  {
    assert info[..i + 1][..i] == info[..i];
    var s := Select(info[..i + 1], user);
    if info[i].mm.Mine? == user { assert s[..|s| - 1] == Select(info[..i], user); }
  }

  // A user-pointer entry goes before the back part of the array, any other after its front part.
  method PlaceEntry(a: array<Entry>, last: nat, first: nat, e: Entry, user: bool) returns (last': nat, first': nat)
    requires last < first <= a.Length
    modifies a
    ensures last' == (if user then last else last + 1) && first' == if user then first - 1 else first
    ensures a[..last'] == old(a[..last]) + if user then [] else [e]
    ensures a[first'..] == (if user then [e] else []) + old(a[first..])
  {
    last', first' := last, first;
    if user {
      first' := first' - 1;
      a[first'] := e;
    } else {
      a[last'] := e;
      last' := last' + 1;
    }
  }

  // After i requests, the two parts of the array.
  ghost predicate Filled(info: seq<Info>, i: nat, front: seq<Entry>, back: seq<Entry>) {
    && i <= |info| && (forall k :: 0 <= k < i ==> Acceptable(info[k]))
    && front == Select(info[..i], false) && back == Reverse(Select(info[..i], true)) && |front| + |back| == i
  }

  lemma FilledNext(info: seq<Info>, i: nat, front: seq<Entry>, back: seq<Entry>)
    requires Filled(info, i, front, back) && i < |info| && Acceptable(info[i])
    ensures var user, e := info[i].mm.Mine?, EntryOf(info[i]);
            Filled(info, i + 1, front + (if user then [] else [e]), (if user then [e] else []) + back)
  {
    SelectNext(info, i, false);
    SelectNext(info, i, true);
  }

  // The array is allocated only when every request is acceptable; otherwise the
  // first unacceptable one decides the error.
  method SetList(info: seq<Info>) returns (status: Status, entries: seq<Entry>, firstUserptr: nat)
    ensures status.Ok? <==> forall k :: 0 <= k < |info| ==> Acceptable(info[k])
    ensures status.Ok? ==>
              && entries == Select(info, false) + Reverse(Select(info, true))
              && firstUserptr == |Select(info, false)|
    ensures !status.Ok? ==>
              exists k :: (0 <= k < |info| && !Acceptable(info[k])
                && (forall m :: 0 <= m < k ==> Acceptable(info[m]))
                && status == if info[k].bo.None? then NoEntry else NotPermitted)
  {
    var a := new Entry[|info|](_ => Entry(0, 0));
    var last := 0;
    firstUserptr := |info|;
    entries := [];
    for i := 0 to |info|
      invariant last <= firstUserptr <= |info| && Filled(info, i, a[..last], a[firstUserptr..])
    {
      if info[i].bo.None? {
        status := NoEntry;
        return;
      }
      if info[i].mm.Foreign? {
        status := NotPermitted;
        return;
      }
      FilledNext(info, i, a[..last], a[firstUserptr..]);
      last, firstUserptr := PlaceEntry(a, last, firstUserptr, EntryOf(info[i]), info[i].mm.Mine?);
    }
    assert info[..|info|] == info;
    status, entries := Ok, a[..];
    assert a[..] == a[..last] + a[firstUserptr..];
  }

  // ---------------------------------------------------------------- sorting

  // The entries of one priority, in order.
  function OfPriority(s: seq<Entry>, p: nat): seq<Entry> {
    if s == [] then []
    else
      var rest := OfPriority(s[..|s| - 1], p);
      if s[|s| - 1].priority == p then rest + [s[|s| - 1]] else rest
  }

  ghost predicate Descending(s: seq<Entry>) {
    forall i, j :: 0 <= i < j < |s| ==> s[i].priority >= s[j].priority
  }

  // Sorted, and every priority keeps its entries in their old order: the stable sort.
  ghost predicate StableSort(s: seq<Entry>, t: seq<Entry>) {
    Descending(t) && forall p: nat :: OfPriority(t, p) == OfPriority(s, p)
  }

  lemma {:induction false} OfPriorityMembers(s: seq<Entry>, p: nat)
    ensures forall e :: e in OfPriority(s, p) <==> e in s && e.priority == p
    ensures forall q: nat :: OfPriority(OfPriority(s, p), q) == if q == p then OfPriority(s, p) else []
  {
    if s != [] {
      var front, last := s[..|s| - 1], s[|s| - 1];
      OfPriorityMembers(front, p);
      assert s == front + [last];
      var all := OfPriority(s, p);
      if last.priority == p { assert all[..|all| - 1] == OfPriority(front, p); }
    }
  }

  lemma {:induction false} NoneOfPriority(s: seq<Entry>, p: nat)
    requires forall i :: 0 <= i < |s| ==> s[i].priority != p
    ensures OfPriority(s, p) == []
  {
    if s != [] { NoneOfPriority(s[..|s| - 1], p); }
  }

  lemma {:induction false} OfPriorityConcat(s: seq<Entry>, t: seq<Entry>, p: nat)
    ensures OfPriority(s + t, p) == OfPriority(s, p) + OfPriority(t, p)
  {
    if t == [] {
      assert s + t == s;
    } else {
      assert (s + t)[..|s + t| - 1] == s + t[..|t| - 1];
      OfPriorityConcat(s, t[..|t| - 1], p);
    }
  }

  method FillBuckets(entries: seq<Entry>) returns (bucket: array<seq<Entry>>)
    requires forall i :: 0 <= i < |entries| ==> entries[i].priority <= MAX_PRIORITY
    ensures fresh(bucket) && bucket.Length == MAX_PRIORITY + 1
    ensures forall p :: 0 <= p <= MAX_PRIORITY ==> bucket[p] == OfPriority(entries, p)
  {
    bucket := new seq<Entry>[MAX_PRIORITY + 1](_ => []);
    for i := 0 to |entries|
      invariant forall p :: 0 <= p <= MAX_PRIORITY ==> bucket[p] == OfPriority(entries[..i], p)
    {
      assert entries[..i + 1][..i] == entries[..i];
      var priority := entries[i].priority;
      bucket[priority] := bucket[priority] + [entries[i]];
    }
    assert entries[..|entries|] == entries;
  }

  // amdgpu_bo_list_get_list: bucket sort onto the front of the validation list.
  method GetList(entries: seq<Entry>, validated: seq<Entry>) returns (out: seq<Entry>)
    requires forall i :: 0 <= i < |entries| ==> entries[i].priority <= MAX_PRIORITY
    ensures |out| >= |validated| && out[|out| - |validated|..] == validated
    ensures StableSort(entries, out[..|out| - |validated|])
  {
    var bucket := FillBuckets(entries);
    ghost var sorted: seq<Entry> := [];
    out := validated;
    for i := 0 to MAX_PRIORITY + 1
      invariant forall p :: 0 <= p <= MAX_PRIORITY ==> bucket[p] == OfPriority(entries, p)
      invariant out == sorted + validated
      invariant Descending(sorted) && forall e :: e in sorted ==> e.priority < i
      invariant forall p: nat :: OfPriority(sorted, p) == if p < i then OfPriority(entries, p) else []
    {
      OfPriorityMembers(entries, i);
      forall p: nat ensures OfPriority(bucket[i] + sorted, p) == if p < i + 1 then OfPriority(entries, p) else [] {
        OfPriorityConcat(bucket[i], sorted, p);
      }
      out := bucket[i] + out;
      sorted := bucket[i] + sorted;
      assert forall k :: 0 <= k < |bucket[i]| ==> bucket[i][k] in bucket[i];
      assert forall k :: 0 <= k < |sorted| ==> sorted[k] in sorted;
    }
    forall p: nat ensures OfPriority(sorted, p) == OfPriority(entries, p) {
      if p > MAX_PRIORITY { NoneOfPriority(entries, p); }
    }
    assert out[..|out| - |validated|] == sorted;
  }

  lemma {:induction false} CountByPriority(s: seq<Entry>, e: Entry)
    ensures multiset(s)[e] == multiset(OfPriority(s, e.priority))[e]
  {
    if s != [] {
      CountByPriority(s[..|s| - 1], e);
      assert s == s[..|s| - 1] + [s[|s| - 1]];
    }
  }

  lemma StableSortPermutes(s: seq<Entry>, t: seq<Entry>)
    requires StableSort(s, t)
    ensures multiset(s) == multiset(t)
  {
    forall e ensures multiset(s)[e] == multiset(t)[e] {
      CountByPriority(s, e);
      CountByPriority(t, e);
    }
  }

  // A stable sort is determined by its input.
  lemma {:induction false} StableSortUnique(s: seq<Entry>, t: seq<Entry>, u: seq<Entry>)
    requires StableSort(s, t) && StableSort(s, u)
    ensures t == u
  {
    SamePriorities(t, u);
  }

  lemma {:induction false} SamePriorities(t: seq<Entry>, u: seq<Entry>)
    requires Descending(t) && Descending(u) && forall p: nat :: OfPriority(t, p) == OfPriority(u, p)
    ensures t == u
  {
    if t != [] { LastIsLowest(u, t); }
    if u != [] { LastIsLowest(t, u); }
    if t == [] { return; }
    var x, y := t[|t| - 1], u[|u| - 1];
    var t', u' := t[..|t| - 1], u[..|u| - 1];
    assert x == y by {
      assert OfPriority(t, x.priority)[|OfPriority(t, x.priority)| - 1] == x;
      assert OfPriority(u, y.priority)[|OfPriority(u, y.priority)| - 1] == y;
    }
    forall p: nat ensures OfPriority(t', p) == OfPriority(u', p) {
      var all := OfPriority(t, p);
      if x.priority == p {
        assert OfPriority(t', p) == all[..|all| - 1] && OfPriority(u', p) == all[..|all| - 1];
      }
    }
    SamePriorities(t', u');
  }

  lemma LastIsLowest(t: seq<Entry>, u: seq<Entry>)
    requires u != [] && Descending(t) && forall p: nat :: OfPriority(t, p) == OfPriority(u, p)
    ensures t != [] && t[|t| - 1].priority <= u[|u| - 1].priority
  {
    var y := u[|u| - 1];
    OfPriorityMembers(u, y.priority);
    OfPriorityMembers(t, y.priority);
    assert y in t;
  }
}
