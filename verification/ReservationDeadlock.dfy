/**
 Any number of threads that reserve their validation lists at the same time, in
 any order.  A thread that holds reservations waits only for younger tickets;
 against an older one it drops everything and waits holding nothing.
 */
module ReservationDeadlock {
  import opened Reservation

  type Tid = nat

  datatype Phase = Trying | SlowWait | Reserved

  // `stamp` is the age of the ticket: smaller is older.  `all` are the entries it came with.
  datatype Thread = Thread(stamp: nat, list: seq<Entry>, pos: nat, dups: seq<Entry>, phase: Phase, all: multiset<Entry>)

  type State = map<Tid, Thread>

  datatype Event =
    | Begin(t: Tid, stamp: nat, list: seq<Entry>)
    | Acquire(t: Tid)
    | Duplicate(t: Tid)
    | Backoff(t: Tid)
    | SlowAcquire(t: Tid)
    | Finish(t: Tid)
    | Release(t: Tid)
    | Fail(t: Tid)

  function Held(th: Thread): set<Resv> {
    if th.phase.SlowWait? || th.pos > |th.list| then {} else Resvs(th.list[..th.pos])
  }

  ghost predicate Free(s: State, r: Resv) { forall o :: o in s ==> r !in Held(s[o]) }

  // A thread that still has to lock, and the object it needs next.
  predicate Pursues(th: Thread, phase: Phase) { th.phase == phase && th.pos < |th.list| }

  function Wanted(th: Thread): Resv
    requires th.pos < |th.list|
  {
    th.list[th.pos].resv
  }

  ghost predicate Enabled(s: State, e: Event) {
    match e
    case Begin(t, stamp, list) => t !in s && forall o :: o in s ==> s[o].stamp != stamp
    case Acquire(t) => t in s && Pursues(s[t], Trying) && Free(s, Wanted(s[t]))
    case Duplicate(t) => t in s && Pursues(s[t], Trying) && Wanted(s[t]) in Held(s[t])
    case Backoff(t) =>
      && t in s && Pursues(s[t], Trying) && Held(s[t]) != {}
      && exists o :: o in s && o != t && Wanted(s[t]) in Held(s[o]) && s[o].stamp < s[t].stamp
    case SlowAcquire(t) => t in s && Pursues(s[t], SlowWait) && Free(s, Wanted(s[t]))
    case Finish(t) => t in s && s[t].phase.Trying? && s[t].pos == |s[t].list|
    case Release(t) => t in s && s[t].phase.Reserved?
    case Fail(t) => t in s && !s[t].phase.Reserved?
  }

  // The thread after an event of its loop.
  function Next(th: Thread, e: Event): Thread
    requires e.Acquire? || e.Duplicate? || e.SlowAcquire? ==> th.pos < |th.list|
  {
    var Thread(_, list, pos, dups, _, _) := th;
    match e
    case Acquire(_) => th.(pos := pos + 1)
    case Duplicate(_) => th.(list := list[..pos] + list[pos + 1..], dups := [list[pos]] + dups)
    case Backoff(_) => th.(phase := SlowWait)
    case SlowAcquire(_) => th.(list := [list[pos]] + list[..pos] + list[pos + 1..], pos := 1, phase := Trying)
    case Finish(_) => th.(phase := Reserved)
    case _ => th
  }

  ghost function Apply(s: State, e: Event): State
    requires Enabled(s, e)
  {
    match e
    case Begin(t, stamp, list) => s[t := Thread(stamp, list, 0, [], Trying, multiset(list))]
    case Release(t) => s - {t}
    case Fail(t) => s - {t}
    case _ => s[e.t := Next(s[e.t], e)]
  }

  ghost predicate Runs(s: State, es: seq<Event>, t: State)
    decreases es
  {
    if es == [] then s == t else Enabled(s, es[0]) && Runs(Apply(s, es[0]), es[1..], t)
  }

  // ---------------------------------------------------------------- invariant

  ghost predicate ThreadOk(th: Thread) {
    && th.pos <= |th.list|
    && LoopInv(th.list, th.pos, th.dups, Resvs(th.list[..th.pos]), th.all)
    && (th.phase.Reserved? ==> th.pos == |th.list|)
    && (th.phase.SlowWait? ==> th.pos < |th.list|)
  }

  ghost predicate Inv(s: State) {
    && (forall t :: t in s ==> ThreadOk(s[t]))
    && (forall t, u :: t in s && u in s && t != u ==> s[t].stamp != s[u].stamp)
    && (forall t, u :: t in s && u in s && t != u ==> Held(s[t]) !! Held(s[u]))
  }

  // What the event may add to the thread's reservations.
  function Gained(th: Thread, e: Event): set<Resv> {
    if (e.Acquire? || e.SlowAcquire?) && th.pos < |th.list| then {Wanted(th)} else {}
  }

  ghost predicate Allowed(th: Thread, e: Event) {
    && (e.Acquire? ==> Pursues(th, Trying) && Wanted(th) !in Held(th))
    && (e.Duplicate? ==> Pursues(th, Trying) && Wanted(th) in Held(th))
    && (e.Backoff? ==> Pursues(th, Trying))
    && (e.SlowAcquire? ==> Pursues(th, SlowWait))
    && (e.Finish? ==> th.phase.Trying? && th.pos == |th.list|)
  }

  lemma ThreadKept(th: Thread, e: Event)
    requires ThreadOk(th) && Allowed(th, e)
    ensures ThreadOk(Next(th, e)) && Next(th, e).stamp == th.stamp
  {
    var Thread(_, list, pos, dups, _, all) := th;
    match e {
      case Acquire(_) => HoldNext(list, pos, dups, Held(th), all);
      case Duplicate(_) => DropDuplicate(list, pos, dups, Held(th), all);
      case SlowAcquire(_) => MoveToFront(list, pos, dups, Resvs(list[..pos]), all);
      case _ =>
    }
  }

  lemma HeldGrows(th: Thread, e: Event)
    requires th.pos <= |th.list| && Allowed(th, e)
    ensures Held(Next(th, e)) <= Held(th) + Gained(th, e)
  {
    var list, list', pos := th.list, Next(th, e).list, th.pos;
    match e {
      case Acquire(_) => assert list[..pos + 1] == list[..pos] + [list[pos]];
      case Duplicate(_) => assert list'[..pos] == list[..pos];
      case SlowAcquire(_) => assert list'[..1] == [list[pos]];
      case _ =>
    }
  }

  // A thread may change as long as what it adds to its holdings was free.
  lemma ReplaceThread(s: State, t: Tid, th: Thread, got: set<Resv>)
    requires Inv(s) && t in s && ThreadOk(th) && th.stamp == s[t].stamp
    requires Held(th) <= Held(s[t]) + got && forall r :: r in got ==> Free(s, r)
    ensures Inv(s[t := th])
  {
    forall u | u in s && u != t ensures Held(th) !! Held(s[u]) {
      assert Held(s[t]) !! Held(s[u]);
      assert forall r :: r in got ==> r !in Held(s[u]);
    }
  }

  lemma NewThread(s: State, t: Tid, stamp: nat, list: seq<Entry>)
    requires Inv(s) && t !in s && forall o :: o in s ==> s[o].stamp != stamp
    ensures Inv(s[t := Thread(stamp, list, 0, [], Trying, multiset(list))])
  {
    var th := Thread(stamp, list, 0, [], Trying, multiset(list));
    assert list[..0] == [];
    assert ThreadOk(th) && Held(th) == {};
  }

  lemma InvKept(s: State, e: Event)
    requires Inv(s) && Enabled(s, e)
    ensures Inv(Apply(s, e))
  {
    match e {
      case Begin(t, stamp, list) => NewThread(s, t, stamp, list);
      case Release(_) =>
      case Fail(_) =>
      case _ =>
        var th := s[e.t];
        ThreadKept(th, e);
        HeldGrows(th, e);
        ReplaceThread(s, e.t, Next(th, e), Gained(th, e));
    }
  }

  lemma {:induction false} RunKeepsInv(s: State, es: seq<Event>, t: State)
    requires Inv(s) && Runs(s, es, t)
    ensures Inv(t)
    decreases es
  {
    if es != [] {
      InvKept(s, es[0]);
      RunKeepsInv(Apply(s, es[0]), es[1..], t);
    }
  }

  // ---------------------------------------------------------------- theorems

  // An event by which a thread gets on, without giving up.
  predicate Progress(e: Event) { !e.Begin? && !e.Fail? }

  lemma {:induction false} YoungestExists(s: State, ts: set<Tid>) returns (m: Tid)
    requires ts != {} && ts <= s.Keys
    ensures m in ts && forall t :: t in ts ==> s[t].stamp <= s[m].stamp
  {
    m :| m in ts;
    if ts != {m} {
      var m' := YoungestExists(s, ts - {m});
      if s[m].stamp < s[m'].stamp { m := m'; }
      assert forall t :: t in ts ==> t == m || t in ts - {m} || s[t].stamp <= s[m].stamp;
    }
  }

  // A thread can get on, unless an unfinished thread that is not older keeps it waiting.
  lemma Unblocked(s: State, m: Tid) returns (e: Event)
    requires m in s && !s[m].phase.Reserved? && ThreadOk(s[m])
    requires forall t, u :: t in s && u in s && t != u ==> s[t].stamp != s[u].stamp
    requires forall o :: o in s && !s[o].phase.Reserved? && Held(s[o]) != {} ==>
                           Held(s[m]) != {} && s[o].stamp <= s[m].stamp
    ensures Progress(e) && Enabled(s, e)
  {
    var th := s[m];
    if th.pos == |th.list| { return Finish(m); }
    if Free(s, Wanted(th)) { return if th.phase.Trying? then Acquire(m) else SlowAcquire(m); }
    if Wanted(th) in Held(th) { return Duplicate(m); }
    var o :| o in s && Wanted(th) in Held(s[o]);
    if s[o].phase.Reserved? { return Release(o); }
    return Backoff(m);
  }

  // Some thread can always get on while one is unfinished.
  lemma NoDeadlock(s0: State, es: seq<Event>, s: State, t: Tid) returns (e: Event)
    requires s0 == map[] && Runs(s0, es, s)
    requires t in s && !s[t].phase.Reserved?
    ensures Progress(e) && Enabled(s, e)
  {
    RunKeepsInv(s0, es, s);
    var holders := set u | u in s && !s[u].phase.Reserved? && Held(s[u]) != {};
    var m := t;
    if holders != {} { m := YoungestExists(s, holders); }
    assert forall o :: o in s && !s[o].phase.Reserved? && Held(s[o]) != {} ==> o in holders;
    e := Unblocked(s, m);
  }

  // No event of t's own is possible, and o holds what t needs next.
  ghost predicate WaitsFor(s: State, t: Tid, o: Tid) {
    && t in s && o in s && t != o && !s[t].phase.Reserved? && s[t].pos < |s[t].list|
    && Wanted(s[t]) in Held(s[o]) && !Enabled(s, Backoff(t))
  }

  // Threads that wait for each other never form a cycle, of any length.
  lemma NoWaitCycle(s0: State, es: seq<Event>, s: State, ts: seq<Tid>)
    requires s0 == map[] && Runs(s0, es, s)
    requires |ts| > 1 && forall i :: 0 <= i < |ts| - 1 ==> WaitsFor(s, ts[i], ts[i + 1])
    ensures ts[0] != ts[|ts| - 1]
  {
    RunKeepsInv(s0, es, s);
    assert WaitsFor(s, ts[0], ts[1]);
    assert WaitsFor(s, ts[|ts| - 2], ts[|ts| - 1]);
    if Held(s[ts[0]]) != {} { WaitsGetYounger(s, ts); }
  }

  // A holder that does not have to back off waits for a younger one.
  lemma HolderWaitsForYounger(s: State, t: Tid, o: Tid)
    requires Inv(s) && WaitsFor(s, t, o) && Held(s[t]) != {}
    ensures s[t].stamp < s[o].stamp && Held(s[o]) != {}
  {
    assert s[t].phase.Trying? && s[t].stamp != s[o].stamp;
  }

  lemma {:induction false} WaitsGetYounger(s: State, ts: seq<Tid>)
    requires Inv(s) && |ts| > 1 && forall i :: 0 <= i < |ts| - 1 ==> WaitsFor(s, ts[i], ts[i + 1])
    requires ts[0] in s && Held(s[ts[0]]) != {}
    ensures ts[|ts| - 1] in s && s[ts[0]].stamp < s[ts[|ts| - 1]].stamp
  {
    assert WaitsFor(s, ts[0], ts[1]);
    HolderWaitsForYounger(s, ts[0], ts[1]);
    if |ts| > 2 {
      var rest := ts[1..];
      forall i | 0 <= i < |rest| - 1 ensures WaitsFor(s, rest[i], rest[i + 1]) {
        assert WaitsFor(s, ts[i + 1], ts[i + 2]);
      }
      WaitsGetYounger(s, rest);
    }
  }

  // ---------------------------------------------------------------- who has to give up

  ghost predicate Oldest(s: State, t: Tid) { t in s && forall o :: o in s && o != t ==> s[t].stamp < s[o].stamp }

  // The thread neither ends nor gives up, and whoever comes in has a later ticket.
  predicate StaysOn(e: Event, t: Tid, stamp: nat) {
    (e.t == t ==> !e.Release? && !e.Fail?) && (e.Begin? ==> stamp < e.stamp)
  }

  lemma HeldKept(th: Thread, e: Event)
    requires th.pos <= |th.list| && Allowed(th, e) && !e.Backoff?
    ensures Held(th) <= Held(Next(th, e))
  {
    var list, list', pos := th.list, Next(th, e).list, th.pos;
    match e {
      case Acquire(_) => assert list'[..pos + 1] == list[..pos] + [list[pos]];
      case Duplicate(_) => assert list'[..pos] == list[..pos];
      case _ =>
    }
  }

  lemma OldestStep(s: State, e: Event, t: Tid)
    requires Inv(s) && Enabled(s, e) && Oldest(s, t) && StaysOn(e, t, s[t].stamp)
    ensures Oldest(Apply(s, e), t) && Apply(s, e)[t].stamp == s[t].stamp && Held(s[t]) <= Held(Apply(s, e)[t])
  {
    assert ThreadOk(s[t]);
    if e.t == t && !e.Begin? {
      assert !e.Backoff?;
      HeldKept(s[t], e);
    }
  }

  // The holdings of the oldest ticket never shrink until it is done: nobody makes it back off.
  lemma {:induction false} OldestNeverBacksOff(s: State, es: seq<Event>, s': State, t: Tid)
    requires Inv(s) && Runs(s, es, s') && Oldest(s, t)
    requires forall i :: 0 <= i < |es| ==> StaysOn(es[i], t, s[t].stamp)
    ensures t in s' && Held(s[t]) <= Held(s'[t])
    ensures forall i :: 0 <= i < |es| ==> es[i] != Backoff(t)
    decreases es
  {
    if es != [] {
      InvKept(s, es[0]);
      OldestStep(s, es[0], t);
      assert es[0] != Backoff(t);
      OldestNeverBacksOff(Apply(s, es[0]), es[1..], s', t);
    }
  }

  // Whoever releases or gives up leaves everything it held free.
  lemma LeavesFree(s: State, e: Event)
    requires Inv(s) && Enabled(s, e) && (e.Release? || e.Fail?)
    ensures e.t !in Apply(s, e)
    ensures forall r :: r in Held(s[e.t]) ==> Free(Apply(s, e), r)
    ensures forall o :: o in s && o != e.t ==> o in Apply(s, e) && Apply(s, e)[o] == s[o]
  {
    forall r | r in Held(s[e.t]) ensures Free(Apply(s, e), r) {
      forall o | o in Apply(s, e) ensures r !in Held(s[o]) { assert Held(s[o]) !! Held(s[e.t]); }
    }
  }

  // ---------------------------------------------------------------- everybody can finish

  ghost predicate AllProgress(es: seq<Event>) { forall i :: 0 <= i < |es| ==> Progress(es[i]) }

  // Some run in which nobody comes in or gives up ends with t holding all it asked for.
  ghost predicate CanFinish(s: State, t: Tid) {
    exists es: seq<Event>, s': State :: Runs(s, es, s') && AllProgress(es) && t in s' && s'[t].phase.Reserved?
  }

  lemma Onwards(s: State, e: Event, t: Tid)
    requires Inv(s) && Enabled(s, e) && Progress(e)
    ensures Inv(Apply(s, e)) && (CanFinish(Apply(s, e), t) ==> CanFinish(s, t))
  {
    InvKept(s, e);
    if CanFinish(Apply(s, e), t) {
      var es: seq<Event>, s': State :| Runs(Apply(s, e), es, s') && AllProgress(es) && t in s' && s'[t].phase.Reserved?;
      assert ([e] + es)[1..] == es;
      assert Runs(s, [e] + es, s');
    }
  }

  // The thread holds something and has not finished.
  predicate Busy(th: Thread) { th.phase.Trying? && 0 < th.pos <= |th.list| }

  lemma BusyHolds(th: Thread)
    requires th.pos <= |th.list| && !th.phase.Reserved?
    ensures Busy(th) <==> Held(th) != {}
  {
    if Busy(th) { assert th.list[..th.pos][0].resv in Held(th); }
  }

  function Holders(s: State): set<Tid> { set u | u in s && Busy(s[u]) }

  ghost predicate NoneReserved(s: State) { forall u :: u in s ==> !s[u].phase.Reserved? }

  function Remaining(th: Thread): nat { if th.pos <= |th.list| then |th.list| - th.pos else 0 }

  ghost predicate Youngest(s: State, m: Tid) {
    m in Holders(s) && forall u :: u in Holders(s) ==> s[u].stamp <= s[m].stamp
  }

  // The next event of the youngest holder m, once nobody is finished.
  lemma YoungestEvent(s: State, m: Tid) returns (e: Event)
    requires Inv(s) && NoneReserved(s) && Youngest(s, m)
    ensures e.t == m && (e.Finish? || e.Acquire? || e.Duplicate? || e.Backoff?) && Enabled(s, e)
  {
    var th := s[m];
    if th.pos == |th.list| { return Finish(m); }
    if Free(s, Wanted(th)) { return Acquire(m); }
    if Wanted(th) in Held(th) { return Duplicate(m); }
    var o :| o in s && Wanted(th) in Held(s[o]);
    assert ThreadOk(s[o]);
    BusyHolds(th);
    BusyHolds(s[o]);
    assert o in Holders(s) && s[o].stamp != th.stamp;
    return Backoff(m);
  }

  // Finished, holding nothing, or still holding and closer to the end.
  predicate Closer(th: Thread, th': Thread) {
    && th'.stamp == th.stamp
    && (th'.phase.Reserved? || !Busy(th') || Remaining(th') < Remaining(th))
  }

  // The threads after m alone has changed.
  lemma Replaced(s: State, m: Tid, th: Thread)
    requires Youngest(s, m) && NoneReserved(s) && th.stamp == s[m].stamp
    ensures var s' := s[m := th];
            && s'.Keys == s.Keys && |s'| == |s|
            && (!th.phase.Reserved? ==> NoneReserved(s'))
            && Holders(s') == (if Busy(th) then Holders(s) else Holders(s) - {m})
            && (Busy(th) ==> Youngest(s', m))
  {
  }

  // What the step leaves: m is finished, one holder less, or m is the youngest still and closer.
  ghost predicate Stepped(s: State, m: Tid, s': State)
    requires m in s
  {
    && m in s' && s'.Keys == s.Keys && |s'| == |s|
    && (!s'[m].phase.Reserved? && Busy(s'[m]) ==>
          NoneReserved(s') && Youngest(s', m) && |Holders(s')| == |Holders(s)| && Remaining(s'[m]) < Remaining(s[m]))
    && (!s'[m].phase.Reserved? && !Busy(s'[m]) ==> |Holders(s')| < |Holders(s)|)
  }

  lemma EventSteps(s: State, m: Tid, e: Event)
    requires NoneReserved(s) && Youngest(s, m) && Enabled(s, e) && e.t == m
    requires e.Finish? || e.Acquire? || e.Duplicate? || e.Backoff?
    ensures Stepped(s, m, Apply(s, e))
  {
    var th := Next(s[m], e);
    assert Closer(s[m], th);
    Replaced(s, m, th);
  }

  lemma YoungestStep(s: State, t: Tid, m: Tid) returns (s': State)
    requires Inv(s) && NoneReserved(s) && Youngest(s, m)
    ensures Inv(s') && (CanFinish(s', t) ==> CanFinish(s, t)) && Stepped(s, m, s')
  {
    var e := YoungestEvent(s, m);
    s' := Apply(s, e);
    EventSteps(s, m, e);
    Onwards(s, e, t);
  }

  // The youngest holder goes on until it finishes, and then releases, or backs off.
  lemma {:induction false} YoungestGoesOn(s: State, t: Tid, m: Tid)
    requires Inv(s) && NoneReserved(s) && t in s && Youngest(s, m)
    ensures CanFinish(s, t)
    decreases |s|, |Holders(s)|, 0, Remaining(s[m])
  {
    var s' := YoungestStep(s, t, m);
    if s'[m].phase.Reserved? {
      if m == t { assert Runs(s', [], s') && AllProgress([]); } else { ReleasedNext(s', t, m); }
    } else if Busy(s'[m]) {
      YoungestGoesOn(s', t, m);
    } else {
      CanAlwaysFinish(s', t);
    }
  }

  // A finished thread releases, and there is one thread less.
  lemma {:induction false} ReleasedNext(s: State, t: Tid, m: Tid)
    requires Inv(s) && t in s && m in s && m != t && s[m].phase.Reserved?
    ensures CanFinish(s, t)
    decreases |s|, 0, 0, 0
  {
    Onwards(s, Release(m), t);
    var s' := s - {m};
    assert s'.Keys == s.Keys - {m} && |s'| == |s'.Keys|;
    CanAlwaysFinish(s', t);
  }

  // Nobody but t holds anything.
  ghost predicate Alone(s: State, t: Tid) { t in s && forall u :: u in s && u != t ==> Held(s[u]) == {} }

  lemma AloneEvent(s: State, t: Tid) returns (e: Event)
    requires Inv(s) && Alone(s, t) && !s[t].phase.Reserved?
    ensures e.t == t && Progress(e) && Enabled(s, e) && !e.Release? && !e.Backoff?
  {
    var th := s[t];
    assert ThreadOk(th);
    e := if th.pos == |th.list| then Finish(t)
         else if th.phase.SlowWait? then SlowAcquire(t)
         else if Wanted(th) in Held(th) then Duplicate(t) else Acquire(t);
  }

  lemma AloneStep(s: State, t: Tid) returns (s': State)
    requires Inv(s) && Alone(s, t) && !s[t].phase.Reserved?
    ensures Inv(s') && (CanFinish(s', t) ==> CanFinish(s, t)) && Alone(s', t)
    ensures s'[t].phase.Reserved? || (s[t].phase.SlowWait? && s'[t].phase.Trying?)
            || (s'[t].phase == s[t].phase && Remaining(s'[t]) < Remaining(s[t]))
  {
    var e := AloneEvent(s, t);
    s' := Apply(s, e);
    Onwards(s, e, t);
  }

  // Then t gets everything.
  lemma {:induction false} AloneGoesOn(s: State, t: Tid)
    requires Inv(s) && Alone(s, t)
    ensures CanFinish(s, t)
    decreases match s[t].phase { case SlowWait => 2 case Trying => 1 case Reserved => 0 }, Remaining(s[t])
  {
    if s[t].phase.Reserved? {
      assert Runs(s, [], s) && AllProgress([]);
    } else {
      var s' := AloneStep(s, t);
      AloneGoesOn(s', t);
    }
  }

  lemma {:induction false} CanAlwaysFinish(s: State, t: Tid)
    requires Inv(s) && t in s
    ensures CanFinish(s, t)
    decreases |s|, |Holders(s)|, 1, 0
  {
    if s[t].phase.Reserved? {
      assert Runs(s, [], s);
    } else if m :| m in s && s[m].phase.Reserved? {
      Onwards(s, Release(m), t);
      var s' := s - {m};
      assert s'.Keys == s.Keys - {m} && |s'| == |s'.Keys|;
      CanAlwaysFinish(s', t);
    } else if Holders(s) != {} {
      var m := YoungestExists(s, Holders(s));
      YoungestGoesOn(s, t, m);
    } else {
      forall u | u in s ensures Held(s[u]) == {} {
        assert ThreadOk(s[u]) && u !in Holders(s);
        BusyHolds(s[u]);
      }
      AloneGoesOn(s, t);
    }
  }

  // From every reachable state every thread can still get all its reservations, without
  // anybody giving up.
  lemma EverybodyCanFinish(s0: State, es: seq<Event>, s: State, t: Tid)
    requires s0 == map[] && Runs(s0, es, s) && t in s
    ensures CanFinish(s, t)
  {
    RunKeepsInv(s0, es, s);
    CanAlwaysFinish(s, t);
  }

  // A thread that is done holds exactly its list, once each; its duplicates are
  // held through the list; no other thread holds any of it.
  lemma ReservedHoldsAll(s0: State, es: seq<Event>, s: State, t: Tid)
    requires s0 == map[] && Runs(s0, es, s) && t in s && s[t].phase.Reserved?
    ensures Held(s[t]) == Resvs(s[t].list) && Distinct(s[t].list)
    ensures multiset(s[t].list) + multiset(s[t].dups) == s[t].all && Resvs(s[t].dups) <= Held(s[t])
    ensures forall o :: o in s && o != t ==> Held(s[o]) !! Resvs(s[t].list)
  {
    RunKeepsInv(s0, es, s);
    assert s[t].list[..s[t].pos] == s[t].list;
  }
}
