/**
 The restore worker gets the queues going again.  From every state that notifiers, the
 worker, mapping and creation can reach, the calls in flight can end and the worker can
 run, with its allocations succeeding, until nothing is evicted, the queues are not
 stopped and every mapping shows the current pages of its buffer.  A pass of the worker
 that was overtaken backs off; the next one is not.
 */
module UserptrProgress {
  import opened Base
  import opened UserptrRestore

  // Nothing new begins: calls in flight go on, and the worker, who gets the pages it asks for.
  predicate Calm(e: Event) {
    match e
    case Work(w) => !(w.FetchPages? && w.upages.NoPages?)
    case Notify(m) => !m.EvictMark?
    case Life(l) => l.InitFetch? || l.InitDone? || l.MapRead? || l.MapWrite?
  }

  ghost predicate AllCalm(es: seq<Event>) { forall i :: 0 <= i < |es| ==> Calm(es[i]) }

  // An attempt to get the pages of the buffer gave none and none is due.
  predicate GivenUp(bo: Bo) {
    !bo.got && (bo.upages.NoPages? || (bo.invalid == 0 && !bo.onInval))
  }

  // No buffer and no mapping is lost, and no further buffer is given up.
  ghost predicate Follows(s: State, t: State) {
    && t.bos.Keys == s.bos.Keys
    && forall b :: b in s.bos ==>
         s.bos[b].ptes.Keys <= t.bos[b].ptes.Keys && (GivenUp(t.bos[b]) ==> GivenUp(s.bos[b]))
  }

  predicate Restored(bo: Bo) {
    forall va :: va in bo.ptes ==> bo.ptes[va] == if GivenUp(bo) then None else Some(bo.epoch)
  }

  // The queues run and every mapping is back.
  ghost predicate Resumed(t: State) {
    t.stop == 0 && t.evicted == 0 && t.evictors == map[] && forall b :: b in t.bos ==> Restored(t.bos[b])
  }

  ghost predicate CanResume(s: State) {
    exists es: seq<Event>, t: State :: Runs(s, es, t) && AllCalm(es) && Follows(s, t) && Resumed(t)
  }

  lemma QuietIsResumed(s: State)
    requires Inv(s) && s.stop == 0 && s.evictors == map[]
    ensures Resumed(s)
  {
    QuietIsCurrent(s);
    forall b | b in s.bos ensures Restored(s.bos[b]) {
      assert BufferOk(b, s.bos[b], s.pc, s.evicted, s.evictors);
    }
  }

  lemma OneFollows(s: State, b: BoId, bo: Bo, t: State)
    requires b in s.bos && t.bos == s.bos[b := bo]
    requires s.bos[b].ptes.Keys <= bo.ptes.Keys && (GivenUp(bo) ==> GivenUp(s.bos[b]))
    ensures Follows(s, t)
  {
  }

  lemma UpdateFollows(s: State, e: WorkEvent)
    requires WorkerLocal(s) && WorkEnabled(s, e) && Calm(Work(e)) && (e.ScanBo? || e.FetchPages? || e.ExchangeInvalid?)
    ensures Follows(s, WorkApply(s, e))
  {
    var t := WorkApply(s, e);
    var b := if e.ScanBo? then e.b else s.pc.bo;
    if t.bos != s.bos { OneFollows(s, b, t.bos[b], t); }
  }

  lemma ValidateFollows(s: State, e: WorkEvent)
    requires WorkEnabled(s, e) && e.ValidateBo? && PagesOk(s.bos[e.b])
    ensures Follows(s, WorkApply(s, e))
  {
    var t := WorkApply(s, e);
    if t.bos != s.bos { OneFollows(s, e.b, t.bos[e.b], t); }
  }

  lemma WriteFollows(s: State, e: WorkEvent)
    requires WorkEnabled(s, e) && e.WritePte?
    ensures Follows(s, WorkApply(s, e))
  {
    var t := WorkApply(s, e);
    OneFollows(s, s.pc.bo, t.bos[s.pc.bo], t);
  }

  lemma WorkFollows(s: State, e: WorkEvent)
    requires Buffers(s) && WorkerLocal(s) && WorkEnabled(s, e) && Calm(Work(e))
    ensures Follows(s, WorkApply(s, e))
  {
    if !Touches(e) {
      LeavesBuffers(s, e);
    } else if e.ValidateBo? {
      assert BufferOk(e.b, s.bos[e.b], s.pc, s.evicted, s.evictors);
      ValidateFollows(s, e);
    } else if e.WritePte? {
      WriteFollows(s, e);
    } else {
      UpdateFollows(s, e);
    }
  }

  lemma LifeFollows(s: State, e: LifeEvent)
    requires LifeEnabled(s, e) && Calm(Life(e))
    ensures Follows(s, LifeApply(s, e))
  {
    var t := LifeApply(s, e);
    if e.InitDone? || e.MapWrite? {
      if s.owner.bo in s.bos && t.bos != s.bos { OneFollows(s, s.owner.bo, t.bos[s.owner.bo], t); }
    }
  }

  lemma NotifyFollows(s: State, e: NotifyEvent)
    requires NotifyEnabled(s, e) && Calm(Notify(e))
    ensures Follows(s, NotifyApply(s, e))
  {
  }

  lemma CalmFollows(s: State, e: Event)
    requires DataInv(s) && Enabled(s, e) && Calm(e)
    ensures Follows(s, Apply(s, e))
  {
    match e
    case Life(l) => LifeFollows(s, l);
    case Notify(m) => NotifyFollows(s, m);
    case Work(w) => WorkFollows(s, w);
  }

  lemma Onwards(s: State, e: Event)
    requires Inv(s) && Enabled(s, e) && Calm(e)
    ensures Inv(Apply(s, e)) && (CanResume(Apply(s, e)) ==> CanResume(s))
  {
    InvKept(s, e);
    CalmFollows(s, e);
    CanResumeBefore(s, e, Apply(s, e));
  }

  lemma CanResumeBefore(s: State, e: Event, s': State)
    requires Enabled(s, e) && s' == Apply(s, e) && Calm(e) && Follows(s, s')
    ensures CanResume(s') ==> CanResume(s)
  {
    if CanResume(s') {
      var es: seq<Event>, t: State :| Runs(s', es, t) && AllCalm(es) && Follows(s', t) && Resumed(t);
      assert ([e] + es)[1..] == es;
      assert Runs(s, [e] + es, t);
      assert Follows(s, t);
    }
  }

  // ---------------------------------------------------------------- the worker

  function Rank(pc: Pc): nat {
    match pc
    case Resume => 20
    case Leave => 19
    case Idle => 18
    case Started => 17
    case Snapshot(_) => 16
    case HasTask(_) => 15
    case Scan(_, _) => 14
    case Update(_, _) => 13
    case Fetch(_, _, _, _, _) => 13
    case Exchange(_, _, _, _, _) => 13
    case Recheck(_) => 12
    case Validate(_) => 11
    case WritePtes(_, _, _) => 11
    case Final(_) => 10
    case Backoff(_) => 2
    case Unlocked(_) => 1
  }

  // The pass has been overtaken, and will back off or has done so.
  predicate Overtaken(s: State) {
    || s.pc.Backoff? || s.pc.Unlocked?
    || ((s.pc.Snapshot? || s.pc.HasTask? || Working(s.pc)) && s.pc.n != s.evicted)
    || ((s.pc.Fetch? || s.pc.Exchange?) && s.pc.bo in s.bos && s.bos[s.pc.bo].invalid != s.pc.seen)
  }

  function Left(s: State): nat {
    match s.pc
    case Scan(_, todo) => |todo|
    case Update(_, todo) => |todo|
    case Fetch(_, todo, _, _, _) => |todo|
    case Exchange(_, todo, _, _, _) => |todo|
    case Validate(_) => |OnInval(s)|
    case WritePtes(_, _, _) => |OnInval(s)|
    case _ => 0
  }

  function Detail(pc: Pc): nat {
    match pc
    case Fetch(_, _, _, _, _) => 2
    case Exchange(_, _, _, _, _) => 1
    case WritePtes(_, _, vas) => |vas| + 1
    case _ => 0
  }

  function Bit(b: bool): nat { if b then 1 else 0 }

  // The evictions are done with, the pass starts over for good, or it is further on.
  predicate Closer(s: State, t: State) {
    || (t.evicted == 0 && t.pc.Resume?)
    || (t.evicted == s.evicted
        && (Bit(Overtaken(t)) < Bit(Overtaken(s))
            || (Overtaken(t) == Overtaken(s)
                && (Rank(t.pc) < Rank(s.pc)
                    || (Rank(t.pc) == Rank(s.pc)
                        && (Left(t) < Left(s) || (Left(t) == Left(s) && Detail(t.pc) < Detail(s.pc))))))))
  }

  // No notifier call is in flight and nobody but the worker has the lock.
  ghost predicate Undisturbed(s: State) {
    s.alive && s.evictors == map[] && (s.owner == Nobody || s.owner == Worker)
  }

  // An undisturbed worker stays so.
  ghost predicate Alike(s: State, t: State) {
    t.alive == s.alive && t.evictors == s.evictors && (t.owner == s.owner || t.owner == Nobody || t.owner == Worker)
  }

  predicate Wakes(e: WorkEvent) {
    e.Start? || e.ReadEvicted? || e.GetTask? || e.Lock? || e.ResumeQueues? || e.Unlock? || e.Reschedule?
  }

  lemma WakeEvent(s: State) returns (e: WorkEvent)
    requires Inv(s) && Undisturbed(s) && s.evicted > 0 && !Working(s.pc)
    ensures Wakes(e) && WorkEnabled(s, e)
  {
    e := match s.pc {
      case Idle => Start
      case Started => ReadEvicted
      case Snapshot(_) => GetTask
      case HasTask(_) => Lock
      case Resume => ResumeQueues
      case Unlocked(_) => Reschedule
      case _ => WorkEvent.Unlock
    };
  }

  lemma WakeCloser(s: State, e: WorkEvent)
    requires Wakes(e) && WorkEnabled(s, e) && s.alive && s.evicted > 0
    ensures Closer(s, WorkApply(s, e)) && Alike(s, WorkApply(s, e))
  {
  }

  // Up to the exchange of `invalid`.
  lemma UpdateEvent(s: State) returns (e: WorkEvent)
    requires Inv(s) && (s.pc.Scan? || s.pc.Update? || s.pc.Fetch? || s.pc.Exchange? || s.pc.Recheck?)
    ensures WorkEnabled(s, e)
    ensures || (e.ScanBo? && e.ok) || e.ScanDone? || e.UpdateBo? || (e.FetchPages? && e.upages.Pages?)
            || e.ExchangeInvalid? || e.UpdateDone? || e.RecheckEvicted?
  {
    match s.pc {
      case Scan(_, todo) =>
        if b :| b in todo { e := ScanBo(b, true); } else { e := ScanDone; }
      case Update(_, todo) =>
        if b :| b in todo { e := UpdateBo(b); } else { e := UpdateDone; }
      case Fetch(_, _, b, _, _) => e := FetchPages(Pages(s.bos[b].epoch));
      case Exchange(_, _, _, _, _) => e := ExchangeInvalid;
      case Recheck(_) => e := RecheckEvicted;
    }
  }

  lemma ScanCloser(s: State, e: WorkEvent)
    requires WorkEnabled(s, e) && ((e.ScanBo? && e.ok) || e.ScanDone?)
    ensures Closer(s, WorkApply(s, e)) && Alike(s, WorkApply(s, e))
  {
    if e.ScanBo? { assert |s.pc.todo - {e.b}| < |s.pc.todo|; }
  }

  lemma UpdateCloser(s: State, e: WorkEvent)
    requires WorkEnabled(s, e) && (e.UpdateBo? || (e.FetchPages? && e.upages.Pages?))
    ensures Closer(s, WorkApply(s, e)) && Alike(s, WorkApply(s, e))
  {
    if e.UpdateBo? { assert |s.pc.todo - {e.b}| < |s.pc.todo|; }
  }

  lemma RecheckCloser(s: State, e: WorkEvent)
    requires WorkEnabled(s, e) && (e.ExchangeInvalid? || e.UpdateDone? || e.RecheckEvicted?)
    ensures Closer(s, WorkApply(s, e)) && Alike(s, WorkApply(s, e))
  {
  }

  // From the validation on.
  lemma ValidateEvent(s: State) returns (e: WorkEvent)
    requires Inv(s) && (s.pc.Validate? || s.pc.WritePtes? || s.pc.Final?)
    ensures WorkEnabled(s, e)
    ensures (e.ValidateBo? && e.ok) || (e.WritePte? && e.ok) || e.WriteDone? || e.ValidateDone? || e.FinalExchange?
    ensures e.ValidateBo? ==> !s.bos[e.b].upages.Null?
  {
    match s.pc {
      case Validate(_) =>
        if b :| b in OnInval(s) {
          assert BufferOk(b, s.bos[b], s.pc, s.evicted, s.evictors);
          e := ValidateBo(b, true);
        } else {
          e := ValidateDone;
        }
      case WritePtes(_, _, vas) =>
        if va :| va in vas { e := WritePte(va, true); } else { e := WriteDone; }
      case Final(_) => e := FinalExchange;
    }
  }

  lemma ValidateCloser(s: State, e: WorkEvent)
    requires WorkEnabled(s, e) && e.ValidateBo? && e.ok && !s.bos[e.b].upages.Null?
    ensures Closer(s, WorkApply(s, e)) && Alike(s, WorkApply(s, e))
  {
    assert OnInval(WorkApply(s, e)) == OnInval(s) - {e.b};
  }

  lemma WriteCloser(s: State, e: WorkEvent)
    requires WorkEnabled(s, e) && ((e.WritePte? && e.ok) || e.WriteDone?)
    ensures Closer(s, WorkApply(s, e)) && Alike(s, WorkApply(s, e))
  {
    assert OnInval(WorkApply(s, e)) == OnInval(s);
    if e.WritePte? { assert |s.pc.vas - {e.va}| < |s.pc.vas|; }
  }

  lemma FinalCloser(s: State, e: WorkEvent)
    requires WorkEnabled(s, e) && (e.ValidateDone? || e.FinalExchange?)
    ensures Closer(s, WorkApply(s, e)) && Alike(s, WorkApply(s, e))
  {
  }

  lemma WorkerStep(s: State) returns (t: State)
    requires Inv(s) && Undisturbed(s) && s.evicted > 0
    ensures Inv(t) && Undisturbed(t) && Closer(s, t) && (CanResume(t) ==> CanResume(s))
  {
    var e;
    if !Working(s.pc) {
      e := WakeEvent(s);
      WakeCloser(s, e);
    } else if s.pc.Validate? || s.pc.WritePtes? || s.pc.Final? {
      e := ValidateEvent(s);
      if e.ValidateDone? || e.FinalExchange? { FinalCloser(s, e); }
      else if e.ValidateBo? { ValidateCloser(s, e); }
      else { WriteCloser(s, e); }
    } else {
      e := UpdateEvent(s);
      if e.ScanBo? || e.ScanDone? { ScanCloser(s, e); }
      else if e.UpdateBo? || e.FetchPages? { UpdateCloser(s, e); }
      else { RecheckCloser(s, e); }
    }
    Onwards(s, Work(e));
    t := WorkApply(s, e);
  }

  lemma ResumedAlready(s: State)
    requires Inv(s) && s.stop == 0 && s.evictors == map[]
    ensures CanResume(s)
  {
    QuietIsResumed(s);
    assert Runs(s, [], s) && AllCalm([]) && Follows(s, s);
  }

  lemma {:induction false} WorkerEnds(s: State)
    requires Inv(s) && Undisturbed(s)
    ensures CanResume(s)
    decreases Bit(s.evicted > 0), Bit(Overtaken(s)), Rank(s.pc), Left(s), Detail(s.pc)
  {
    if s.evicted > 0 {
      var t := WorkerStep(s);
      WorkerEnds(t);
    } else if s.stop == 0 {
      ResumedAlready(s);
    } else {
      Onwards(s, Work(ResumeQueues));
      ResumedAlready(WorkApply(s, ResumeQueues));
    }
  }

  // ---------------------------------------------------------------- calls in flight

  function CallSteps(o: Owner): nat {
    match o
    case Mapper(_, _, invalid, _) => if invalid.None? then 2 else 1
    case Init(_, fetched) => if fetched.None? then 2 else 1
    case _ => 0
  }

  lemma OwnerStep(s: State) returns (t: State)
    requires Inv(s) && s.alive && s.evictors == map[] && CallSteps(s.owner) > 0
    ensures Inv(t) && t.alive && t.evictors == map[] && CallSteps(t.owner) < CallSteps(s.owner) && (CanResume(t) ==> CanResume(s))
  {
    var e := if s.owner.Mapper? then (if s.owner.invalid.None? then MapRead else MapWrite(true))
             else (if s.owner.fetched.None? then InitFetch else InitDone(true));
    Onwards(s, Life(e));
    t := LifeApply(s, e);
  }

  lemma {:induction false} OwnerEnds(s: State)
    requires Inv(s) && s.alive && s.evictors == map[]
    ensures CanResume(s)
    decreases CallSteps(s.owner)
  {
    if CallSteps(s.owner) == 0 {
      WorkerEnds(s);
    } else {
      var t := OwnerStep(s);
      OwnerEnds(t);
    }
  }

  function EvictorSteps(v: Evictor): nat { match v case Marked(_) => 3 case First(_) => 2 case Stopped(_) => 1 }

  // The call is over, or closer to it.
  ghost predicate Ending(evictors: map<Tid, Evictor>, u: Tid, evictors': map<Tid, Evictor>)
    requires u in evictors
  {
    if u in evictors' then |evictors'| == |evictors| && EvictorSteps(evictors'[u]) < EvictorSteps(evictors[u])
    else |evictors'| < |evictors|
  }

  lemma EvictorEvent(s: State, u: Tid) returns (e: NotifyEvent)
    requires u in s.evictors
    ensures !e.EvictMark? && NotifyEnabled(s, e) && NotifyApply(s, e).alive == s.alive
    ensures Ending(s.evictors, u, NotifyApply(s, e).evictors)
  {
    e := match s.evictors[u] case Marked(_) => EvictCount(u) case First(_) => Quiesce(u) case Stopped(_) => Schedule(u);
    assert (s.evictors - {u}).Keys == s.evictors.Keys - {u};
  }

  lemma EvictorStep(s: State, u: Tid) returns (t: State)
    requires Inv(s) && s.alive && u in s.evictors
    ensures Inv(t) && t.alive && (CanResume(t) ==> CanResume(s)) && Ending(s.evictors, u, t.evictors)
  {
    var e := EvictorEvent(s, u);
    Onwards(s, Notify(e));
    t := NotifyApply(s, e);
  }

  lemma {:induction false} EvictorEnds(s: State, u: Tid)
    requires Inv(s) && s.alive && u in s.evictors
    ensures CanResume(s)
    decreases |s.evictors|, EvictorSteps(s.evictors[u])
  {
    var t := EvictorStep(s, u);
    if u in t.evictors { EvictorEnds(t, u); } else { EvictorsEnd(t); }
  }

  lemma {:induction false} EvictorsEnd(s: State)
    requires Inv(s) && s.alive
    ensures CanResume(s)
    decreases |s.evictors|, 4
  {
    if s.evictors == map[] {
      OwnerEnds(s);
    } else {
      var u :| u in s.evictors;
      EvictorEnds(s, u);
    }
  }

  // From every reachable state of a living process, without anything new beginning, the
  // queues can be running again with no eviction outstanding and every mapping restored.
  lemma QueuesCanRunAgain(s0: State, es: seq<Event>, s: State)
    requires Initial(s0) && Runs(s0, es, s) && s.alive
    ensures CanResume(s)
  {
    RunKeepsInv(s0, es, s);
    EvictorsEnd(s);
  }
}
