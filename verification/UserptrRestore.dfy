/**
 Eviction and restore of user-pointer buffers of one KFD process.

 MMU notifiers mark a buffer invalid and count the eviction with two separate
 atomic increments; the first eviction of a period stops the user queues and
 schedules the restore worker.  The worker moves invalid buffers to a second
 list, fetches their user pages, validates them, rewrites their page tables and
 restarts the queues, unless a compare-and-exchange shows that it was overtaken.

 Every atomic access is one event.  Events of notifier calls, of the worker, of
 mapping, unmapping, creation and freeing interleave freely.  The two lists are
 told apart by a flag of the buffer and the worker visits them in any order.
 */
module UserptrRestore {
  import opened Base

  type BoId = nat
  type Va = nat
  type Tid = nat

  // user_pages: NULL, an array whose first slot is NULL, or an array of pages.
  // Pages remember the epoch of the buffer in which they were fetched.
  datatype PageArray = Null | NoPages | Pages(epoch: nat)

  // The MMU notifier of a buffer: not yet registered, registered, removed.
  datatype Notifier = New | On | Off

  // `epoch` counts the MMU invalidations of the buffer.  `tt` is the epoch of the
  // pages the buffer is validated with, None while it is in the CPU domain.
  // `ptes` has one entry for each GPU mapping: None when cleared.  `got` records
  // whether the last attempt to get the user pages of the buffer gave any.
  datatype Bo = Bo(
    invalid: nat, epoch: nat, notifier: Notifier, onInval: bool,
    upages: PageArray, tt: Option<nat>, ptes: map<Va, Option<nat>>, got: bool)

  // A notifier call in flight: after `invalid++`; after being the first to
  // increment `evicted_bos`; after stopping the queues.
  datatype Evictor = Marked(bo: BoId) | First(bo: BoId) | Stopped(bo: BoId)

  // Holder of the process lock.  A mapper has read `invalid`, if at all, when the
  // buffer was in epoch `since`.
  datatype Owner =
    | Nobody
    | Worker
    | Mapper(bo: BoId, va: Va, invalid: Option<bool>, since: nat)
    | Init(bo: BoId, fetched: Option<nat>)

  // Program counter of the restore worker; n is its local copy of evicted_bos.
  datatype Pc =
    | Idle
    | Started
    | Snapshot(n: nat)
    | HasTask(n: nat)
    | Scan(n: nat, todo: set<BoId>)
    | Update(n: nat, todo: set<BoId>)
    | Fetch(n: nat, todo: set<BoId>, bo: BoId, seen: nat, since: nat)
    | Exchange(n: nat, todo: set<BoId>, bo: BoId, seen: nat, since: nat)
    | Recheck(n: nat)
    | Validate(n: nat)
    | WritePtes(n: nat, bo: BoId, vas: set<Va>)
    | Final(n: nat)
    | Resume
    | Leave
    | Backoff(n: nat)
    | Unlocked(n: nat)

  datatype State = State(
    bos: map<BoId, Bo>, evicted: nat, stop: int, evictors: map<Tid, Evictor>,
    owner: Owner, pc: Pc, queued: bool, alive: bool, crashed: bool)

  datatype LifeEvent =
    | Create(b: BoId)
    | InitLock(b: BoId)
    | InitFetch
    | InitDone(ok: bool)
    | MapLock(b: BoId, va: Va)
    | MapRead
    | MapWrite(ok: bool)
    | Unmap(b: BoId, va: Va)
    | Unregister(b: BoId)
    | Remove(b: BoId)
    | Exit

  datatype NotifyEvent =
    | EvictMark(t: Tid, b: BoId)
    | EvictCount(t: Tid)
    | Quiesce(t: Tid)
    | Schedule(t: Tid)

  datatype WorkEvent =
    | Start
    | ReadEvicted
    | GetTask
    | Lock
    | ScanBo(b: BoId, ok: bool)
    | ScanDone
    | UpdateBo(b: BoId)
    | FetchPages(upages: PageArray)
    | ExchangeInvalid
    | UpdateDone
    | RecheckEvicted
    | ValidateFail
    | ValidateBo(b: BoId, ok: bool)
    | WritePte(va: Va, ok: bool)
    | WriteDone
    | ValidateDone
    | FinalExchange
    | ResumeQueues
    | Unlock
    | Reschedule

  datatype Event = Life(l: LifeEvent) | Notify(m: NotifyEvent) | Work(w: WorkEvent)

  ghost predicate Initial(s: State) {
    s == State(map[], 0, 0, map[], Nobody, Idle, false, true, false)
  }

  ghost predicate InFlightOn(evictors: map<Tid, Evictor>, b: BoId) {
    exists t :: t in evictors && evictors[t].bo == b
  }

  function OnInval(s: State): (r: set<BoId>) {
    set b | b in s.bos && s.bos[b].onInval
  }

  ghost predicate LifeEnabled(s: State, e: LifeEvent) {
    match e
    case Create(b) => s.owner.Nobody? && b !in s.bos
    case InitLock(b) => s.owner.Nobody? && b in s.bos && s.bos[b].notifier.New?
    case InitFetch => s.owner.Init? && s.owner.fetched.None?
    case InitDone(ok) => s.owner.Init? && (if ok then s.owner.fetched.Some? else !InFlightOn(s.evictors, s.owner.bo))
    case MapLock(b, va) => s.owner.Nobody? && b in s.bos && s.bos[b].notifier.On? && va !in s.bos[b].ptes
    case MapRead => s.owner.Mapper? && s.owner.invalid.None?
    case MapWrite(ok) => s.owner.Mapper? && s.owner.invalid.Some?
    case Unmap(b, va) => b in s.bos && va in s.bos[b].ptes && !s.pc.Validate?
                         && !(s.pc.WritePtes? && s.pc.bo == b) && !(s.owner.Mapper? && s.owner.bo == b)
    case Unregister(b) => b in s.bos && s.bos[b].notifier.On? && s.bos[b].ptes == map[] && !InFlightOn(s.evictors, b)
                          && !(s.owner.Mapper? && s.owner.bo == b) && !(s.owner.Init? && s.owner.bo == b)
    case Remove(b) => s.owner.Nobody? && b in s.bos && s.bos[b].notifier.Off?
    case Exit => s.alive
  }

  ghost predicate NotifyEnabled(s: State, e: NotifyEvent) {
    match e
    case EvictMark(t, b) => t !in s.evictors && b in s.bos && s.bos[b].notifier.On?
    case EvictCount(t) => t in s.evictors && s.evictors[t].Marked?
    case Quiesce(t) => t in s.evictors && s.evictors[t].First?
    case Schedule(t) => t in s.evictors && s.evictors[t].Stopped?
  }

  ghost predicate WorkEnabled(s: State, e: WorkEvent) {
    match e
    case Start => s.pc.Idle? && s.queued
    case ReadEvicted => s.pc.Started?
    case GetTask => s.pc.Snapshot?
    case Lock => s.pc.HasTask? && s.owner.Nobody?
    case ScanBo(b, ok) => s.pc.Scan? && b in s.pc.todo && b in s.bos
    case ScanDone => s.pc.Scan? && s.pc.todo == {}
    case UpdateBo(b) => s.pc.Update? && b in s.pc.todo && b in s.bos
    case FetchPages(a) => s.pc.Fetch? && s.pc.bo in s.bos
                          && (a.Null? ==> s.bos[s.pc.bo].upages.Null?)
                          && (a.Pages? ==> s.pc.since <= a.epoch <= s.bos[s.pc.bo].epoch)
    case ExchangeInvalid => s.pc.Exchange? && s.pc.bo in s.bos
    case UpdateDone => s.pc.Update? && s.pc.todo == {}
    case RecheckEvicted => s.pc.Recheck?
    case ValidateFail => s.pc.Validate?
    case ValidateBo(b, ok) => s.pc.Validate? && b in OnInval(s)
    case WritePte(va, ok) => s.pc.WritePtes? && va in s.pc.vas && s.pc.bo in s.bos
    case WriteDone => s.pc.WritePtes? && s.pc.vas == {}
    case ValidateDone => s.pc.Validate? && OnInval(s) == {}
    case FinalExchange => s.pc.Final?
    case ResumeQueues => s.pc.Resume?
    case Unlock => s.pc.Leave? || s.pc.Backoff?
    case Reschedule => s.pc.Unlocked?
  }

  function SetBo(s: State, b: BoId, bo: Bo): State { s.(bos := s.bos[b := bo]) }

  ghost function LifeApply(s: State, e: LifeEvent): State
    requires LifeEnabled(s, e)
  {
    match e
    // BO life cycle: the buffer joins the valid list, then gets its notifier and first pages.
    case Create(b) => SetBo(s, b, Bo(0, 0, New, false, Null, None, map[], false))
    case InitLock(b) => if b in s.bos then SetBo(s, b, s.bos[b].(notifier := On)).(owner := Init(b, None)) else s
    case InitFetch =>
      var b := s.owner.bo;
      if b in s.bos then s.(owner := Init(b, Some(s.bos[b].epoch))) else s
    case InitDone(ok) =>
      var b := s.owner.bo;
      if b !in s.bos then s
      else if ok then SetBo(s, b, s.bos[b].(tt := s.owner.fetched, got := true)).(owner := Nobody)
      else SetBo(s, b, s.bos[b].(notifier := Off)).(owner := Nobody)
    case MapLock(b, va) => s.(owner := Mapper(b, va, None, 0))
    case MapRead =>
      var b := s.owner.bo;
      if b in s.bos then s.(owner := s.owner.(invalid := Some(s.bos[b].invalid > 0), since := s.bos[b].epoch)) else s
    case MapWrite(ok) =>
      var b := s.owner.bo;
      if b !in s.bos || !ok then s.(owner := Nobody)
      else
        // A buffer in the system domain counts as invalid: its entries stay cleared.
        var pte := if s.owner.invalid.value then None else s.bos[b].tt;
        SetBo(s, b, s.bos[b].(ptes := s.bos[b].ptes[s.owner.va := pte])).(owner := Nobody)
    case Unmap(b, va) => SetBo(s, b, s.bos[b].(ptes := s.bos[b].ptes - {va}))
    case Unregister(b) => SetBo(s, b, s.bos[b].(notifier := Off))
    case Remove(b) => s.(bos := s.bos - {b})
    case Exit => s.(alive := false)
  }

  ghost function NotifyApply(s: State, e: NotifyEvent): State
    requires NotifyEnabled(s, e)
  {
    match e
    // amdgpu_amdkfd_evict_userptr
    case EvictMark(t, b) =>
      SetBo(s, b, s.bos[b].(invalid := s.bos[b].invalid + 1, epoch := s.bos[b].epoch + 1))
      .(evictors := s.evictors[t := Marked(b)])
    case EvictCount(t) =>
      s.(evicted := s.evicted + 1,
         evictors := if s.evicted == 0 then s.evictors[t := First(s.evictors[t].bo)] else s.evictors - {t})
    case Quiesce(t) => s.(stop := s.stop + 1, evictors := s.evictors[t := Stopped(s.evictors[t].bo)])
    case Schedule(t) => s.(queued := true, evictors := s.evictors - {t})
  }

  ghost function WorkApply(s: State, e: WorkEvent): State
    requires WorkEnabled(s, e)
  {
    match e
    // amdgpu_amdkfd_restore_userptr_worker
    case Start => s.(queued := false, pc := Started)
    case ReadEvicted => s.(pc := if s.evicted == 0 then Idle else Snapshot(s.evicted))
    case GetTask => s.(pc := if s.alive then HasTask(s.pc.n) else Idle)
    case Lock => s.(owner := Worker, pc := Scan(s.pc.n, s.bos.Keys - OnInval(s)))
    // update_invalid_user_pages, first loop
    case ScanBo(b, ok) =>
      if s.bos[b].invalid == 0 then s.(pc := Scan(s.pc.n, s.pc.todo - {b}))
      else if !ok then s.(pc := Backoff(s.pc.n))
      else SetBo(s, b, s.bos[b].(tt := None, onInval := true)).(pc := Scan(s.pc.n, s.pc.todo - {b}))
    case ScanDone => s.(pc := if OnInval(s) == {} then Final(s.pc.n) else Update(s.pc.n, OnInval(s)))
    // update_invalid_user_pages, second loop
    case UpdateBo(b) =>
      var bo := s.bos[b];
      s.(pc := if bo.invalid == 0 then Update(s.pc.n, s.pc.todo - {b})
               else Fetch(s.pc.n, s.pc.todo - {b}, b, bo.invalid, bo.epoch))
    case FetchPages(a) =>
      var Fetch(n, todo, b, seen, since) := s.pc;
      if a.Null? then s.(pc := Backoff(n))
      else SetBo(s, b, s.bos[b].(upages := a, got := a.Pages?)).(pc := Exchange(n, todo, b, seen, since))
    case ExchangeInvalid =>
      var b := s.pc.bo;
      if s.bos[b].invalid == s.pc.seen
      then SetBo(s, b, s.bos[b].(invalid := 0)).(pc := Update(s.pc.n, s.pc.todo))
      else s.(pc := Backoff(s.pc.n))
    case UpdateDone => s.(pc := Recheck(s.pc.n))
    case RecheckEvicted => s.(pc := if s.evicted == s.pc.n then Validate(s.pc.n) else Backoff(s.pc.n))
    // validate_invalid_user_pages
    case ValidateFail => s.(pc := Backoff(s.pc.n))
    case ValidateBo(b, ok) =>
      var bo := s.bos[b];
      if bo.upages.Null? then s.(crashed := true)
      else if bo.upages.Pages? && !ok then s.(pc := Backoff(s.pc.n))
      else
        var tt := if bo.upages.Pages? then Some(bo.upages.epoch) else bo.tt;
        SetBo(s, b, bo.(tt := tt, upages := Null, onInval := false)).(pc := WritePtes(s.pc.n, b, bo.ptes.Keys))
    case WritePte(va, ok) =>
      var b := s.pc.bo;
      var bo := s.bos[b];
      if ok then SetBo(s, b, bo.(ptes := bo.ptes[va := bo.tt])).(pc := WritePtes(s.pc.n, b, s.pc.vas - {va}))
      else SetBo(s, b, bo.(invalid := bo.invalid + 1)).(pc := Backoff(s.pc.n))
    case WriteDone => s.(pc := Validate(s.pc.n))
    case ValidateDone => s.(pc := Final(s.pc.n))
    case FinalExchange => if s.evicted == s.pc.n then s.(evicted := 0, pc := Resume) else s.(pc := Backoff(s.pc.n))
    case ResumeQueues => s.(stop := s.stop - 1, pc := Leave)
    case Unlock => s.(owner := Nobody, pc := if s.pc.Leave? then Idle else Unlocked(s.pc.n))
    case Reschedule => s.(queued := true, pc := Idle)
  }

  ghost predicate Enabled(s: State, e: Event) {
    match e
    case Life(l) => LifeEnabled(s, l)
    case Notify(m) => NotifyEnabled(s, m)
    case Work(w) => WorkEnabled(s, w)
  }

  ghost function Apply(s: State, e: Event): State
    requires Enabled(s, e)
  {
    match e
    case Life(l) => LifeApply(s, l)
    case Notify(m) => NotifyApply(s, m)
    case Work(w) => WorkApply(s, w)
  }

  ghost predicate Runs(s: State, es: seq<Event>, t: State)
    decreases es
  {
    if es == [] then s == t else Enabled(s, es[0]) && Runs(Apply(s, es[0]), es[1..], t)
  }

  // ---------------------------------------------------------------- invariant

  ghost predicate MarkedOn(evictors: map<Tid, Evictor>, b: BoId) {
    exists t :: t in evictors && evictors[t] == Marked(b)
  }

  // The worker is past its wake-up and has not yet won the final exchange.
  predicate Active(pc: Pc) { !pc.Idle? && !pc.Resume? && !pc.Leave? }

  predicate HoldsLock(pc: Pc) {
    !pc.Idle? && !pc.Started? && !pc.Snapshot? && !pc.HasTask? && !pc.Unlocked?
  }

  // Someone will still run or schedule the worker.
  ghost predicate RestartPending(evictors: map<Tid, Evictor>, queued: bool, pc: Pc) {
    queued || Active(pc) || exists t :: t in evictors && !evictors[t].Marked?
  }

  // Exactly one restart token exists in every period with evicted_bos != 0.
  ghost predicate Tokens(evictors: map<Tid, Evictor>, evicted: nat, queued: bool, alive: bool, pc: Pc) {
    && (forall t, u :: t in evictors && u in evictors && !evictors[t].Marked? && !evictors[u].Marked? ==> t == u)
    && (forall t :: t in evictors && !evictors[t].Marked? ==> !queued && !Active(pc))
    && (queued ==> !Active(pc))
    && (evicted == 0 ==> !RestartPending(evictors, queued, pc))
    && (alive && evicted > 0 ==> RestartPending(evictors, queued, pc))
  }

  // The first evictor of the period has stopped the queues.
  ghost predicate QueuesStopped(evictors: map<Tid, Evictor>, evicted: nat) {
    evicted > 0 && forall t :: t in evictors ==> !evictors[t].First?
  }

  ghost function Stops(evictors: map<Tid, Evictor>, evicted: nat, pc: Pc): nat {
    (if QueuesStopped(evictors, evicted) then 1 else 0) + (if pc.Resume? then 1 else 0)
  }

  ghost predicate ControlInv(s: State) {
    && Tokens(s.evictors, s.evicted, s.queued, s.alive, s.pc)
    && s.stop == Stops(s.evictors, s.evicted, s.pc)
  }

  // Pages fetched in an older epoch are covered by a nonzero `invalid`.
  predicate Covered(bo: Bo, e: nat) { e <= bo.epoch && (e < bo.epoch ==> bo.invalid > 0) }

  // A buffer read as invalid stays so while it is being mapped; one read as valid had
  // current pages at that time.
  predicate Mapping(bo: Bo, invalid: Option<bool>, since: nat) {
    && bo.notifier.On?
    && (invalid == Some(true) ==> bo.invalid > 0)
    && (invalid == Some(false) && bo.tt.Some? ==> bo.tt.value == since)
  }

  ghost predicate Locking(s: State) {
    && (s.owner.Worker? <==> HoldsLock(s.pc))
    && (s.owner.Mapper? ==> s.owner.bo in s.bos && Mapping(s.bos[s.owner.bo], s.owner.invalid, s.owner.since))
    && (s.owner.Init? ==>
        && s.owner.bo in s.bos && s.bos[s.owner.bo].notifier.On? && !s.bos[s.owner.bo].onInval
        && s.bos[s.owner.bo].ptes == map[]
        && (s.owner.fetched.Some? ==> Covered(s.bos[s.owner.bo], s.owner.fetched.value)))
  }

  ghost predicate Registered(s: State) {
    forall t :: t in s.evictors ==> s.evictors[t].bo in s.bos && s.bos[s.evictors[t].bo].notifier.On?
  }

  predicate PagesOk(bo: Bo) {
    && (bo.notifier.New? ==> bo.invalid == 0 && !bo.onInval && bo.ptes == map[])
    && (bo.upages.Pages? ==> Covered(bo, bo.upages.epoch))
    && (bo.tt.Some? ==> Covered(bo, bo.tt.value) && !bo.onInval)
    && (bo.onInval && bo.invalid == 0 ==> !bo.upages.Null?)
    && (!bo.onInval ==> bo.upages.Null? && (bo.tt.Some? <==> bo.got))
    && (!bo.upages.Null? ==> (bo.upages.Pages? <==> bo.got))
  }

  // Entries of b the worker is about to rewrite.
  function Unwritten(pc: Pc, b: BoId): set<Va> {
    if pc.WritePtes? && pc.bo == b then pc.vas else {}
  }

  // No entry is from pages that are stale and not covered, and one that differs from the
  // pages of the buffer is about to be rewritten, now or when the buffer is restored.
  ghost predicate PtesOk(bo: Bo, unwritten: set<Va>) {
    && (forall va :: va in bo.ptes && bo.ptes[va].Some? ==>
          && bo.ptes[va].value <= bo.epoch
          && (bo.onInval || va in unwritten || Covered(bo, bo.ptes[va].value)))
    && (forall va :: va in bo.ptes ==>
          bo.ptes[va] == bo.tt || bo.invalid > 0 || bo.onInval || va in unwritten)
  }

  // An invalid buffer, or one on the invalid list, keeps the period of evictions open.
  predicate CountedOk(bo: Bo, evicted: nat, marked: bool) {
    (bo.invalid > 0 ==> evicted > 0 || marked) && (bo.onInval ==> evicted > 0)
  }

  // Buffers the worker has still to look at in update_invalid_user_pages.
  predicate Pending(pc: Pc, b: BoId, onInval: bool) {
    match pc
    case Scan(n, todo) => b in todo || onInval
    case Update(n, todo) => b in todo
    case Fetch(n, todo, c, seen, since) => b in todo || b == c
    case Exchange(n, todo, c, seen, since) => b in todo || b == c
    case _ => false
  }

  predicate Working(pc: Pc) {
    pc.Scan? || pc.Update? || pc.Fetch? || pc.Exchange? || pc.Recheck? || pc.Validate? || pc.WritePtes? || pc.Final?
  }

  // Once looked at, an invalid buffer was invalidated late: the final exchange
  // will fail, or its eviction has yet to be counted.
  predicate LookedAt(b: BoId, bo: Bo, pc: Pc, evicted: nat, marked: bool) {
    Working(pc) && !Pending(pc, b, bo.onInval) ==>
      (bo.invalid > 0 ==> evicted > pc.n || marked) && (bo.onInval ==> !bo.upages.Null?)
  }

  ghost predicate BufferOk(b: BoId, bo: Bo, pc: Pc, evicted: nat, evictors: map<Tid, Evictor>) {
    && PagesOk(bo)
    && PtesOk(bo, Unwritten(pc, b))
    && CountedOk(bo, evicted, MarkedOn(evictors, b))
    && LookedAt(b, bo, pc, evicted, MarkedOn(evictors, b))
  }

  ghost predicate Buffers(s: State) {
    forall b :: b in s.bos ==> BufferOk(b, s.bos[b], s.pc, s.evicted, s.evictors)
  }

  ghost predicate WorkerLocal(s: State) {
    && (Active(s.pc) && !s.pc.Started? ==> 0 < s.pc.n <= s.evicted)
    && (s.pc.Scan? ==> s.pc.todo <= s.bos.Keys)
    && (s.pc.Update? ==> s.pc.todo <= OnInval(s))
    && (s.pc.Final? ==> OnInval(s) == {})
    && (s.pc.WritePtes? ==> s.pc.bo in s.bos && !s.bos[s.pc.bo].notifier.New? && s.pc.vas <= s.bos[s.pc.bo].ptes.Keys)
    && (s.pc.Fetch? || s.pc.Exchange? ==>
        && s.pc.bo in OnInval(s) && s.pc.todo <= OnInval(s)
        && var bo := s.bos[s.pc.bo];
        && s.pc.since <= bo.epoch && 0 < s.pc.seen <= bo.invalid
        && (bo.invalid == s.pc.seen ==> bo.epoch == s.pc.since)
        && (s.pc.Exchange? ==> !bo.upages.Null? && (bo.upages.Pages? ==> s.pc.since <= bo.upages.epoch)))
  }

  ghost predicate DataInv(s: State) {
    !s.crashed && Locking(s) && Registered(s) && Buffers(s) && WorkerLocal(s)
  }

  ghost predicate Inv(s: State) { ControlInv(s) && DataInv(s) }

  // ------------------------------------------------- each event keeps the invariant

  lemma NotifyControl(s: State, e: NotifyEvent)
    requires ControlInv(s) && NotifyEnabled(s, e)
    ensures ControlInv(NotifyApply(s, e))
  {
    var t := NotifyApply(s, e);
    match e
    case EvictMark(u, b) =>
      assert s.evictors.Keys <= t.evictors.Keys;
      assert forall v :: v in s.evictors ==> t.evictors[v] == s.evictors[v];
    case EvictCount(u) =>
      if s.evicted == 0 { assert t.evictors[u].First?; }
      if v :| v in s.evictors && s.evictors[v].First? { assert t.evictors[v].First?; }
      if v :| v in s.evictors && !s.evictors[v].Marked? { assert !t.evictors[v].Marked?; }
    case Quiesce(u) => assert t.evictors[u].Stopped?;
    case Schedule(u) => assert forall v :: v in s.evictors ==> v == u || s.evictors[v].Marked?;
  }

  lemma SameControl(s: State, t: State)
    requires ControlInv(s)
    requires t.evictors == s.evictors && t.evicted == s.evicted && t.queued == s.queued && t.stop == s.stop
    requires t.alive ==> s.alive
    requires Active(t.pc) == Active(s.pc) && t.pc.Resume? == s.pc.Resume?
    ensures ControlInv(t)
  {
  }

  lemma WakeControl(s: State, e: WorkEvent)
    requires ControlInv(s) && WorkEnabled(s, e) && (e.Start? || e.ReadEvicted? || e.GetTask? || e.Reschedule?)
    ensures ControlInv(WorkApply(s, e))
  {
  }

  lemma ResumeControl(s: State, e: WorkEvent)
    requires ControlInv(s) && WorkEnabled(s, e) && (e.FinalExchange? || e.ResumeQueues? || e.Unlock?)
    ensures ControlInv(WorkApply(s, e))
  {
  }

  lemma WorkControl(s: State, e: WorkEvent)
    requires ControlInv(s) && WorkEnabled(s, e)
    ensures ControlInv(WorkApply(s, e))
  {
    if e.Start? || e.ReadEvicted? || e.GetTask? || e.Reschedule? {
      WakeControl(s, e);
    } else if e.FinalExchange? || e.ResumeQueues? || e.Unlock? {
      ResumeControl(s, e);
    } else {
      SameControl(s, WorkApply(s, e));
    }
  }

  lemma LifeControl(s: State, e: LifeEvent)
    requires ControlInv(s) && LifeEnabled(s, e)
    ensures ControlInv(LifeApply(s, e))
  {
    var t := LifeApply(s, e);
    assert t.evictors == s.evictors && t.evicted == s.evicted && t.queued == s.queued && t.stop == s.stop && t.pc == s.pc;
    SameControl(s, t);
  }

  lemma LockData(s: State, e: LifeEvent)
    requires DataInv(s) && LifeEnabled(s, e) && (e.InitFetch? || e.MapLock? || e.MapRead? || e.Exit?)
    ensures DataInv(LifeApply(s, e))
  {
  }

  lemma LifeData(s: State, e: LifeEvent)
    requires DataInv(s) && LifeEnabled(s, e) && (e.Create? || e.Remove?)
    ensures DataInv(LifeApply(s, e))
  {
  }

  lemma InitLockData(s: State, e: LifeEvent)
    requires DataInv(s) && LifeEnabled(s, e) && e.InitLock?
    ensures DataInv(LifeApply(s, e))
  {
    assert BufferOk(e.b, s.bos[e.b], s.pc, s.evicted, s.evictors);
  }

  // A buffer gets new pages, page-table entries or notifier, and the lock may be released.
  lemma BufferChanges(s: State, b: BoId, bo: Bo, owner: Owner)
    requires DataInv(s) && b in s.bos
    requires bo == s.bos[b].(tt := bo.tt, ptes := bo.ptes, notifier := bo.notifier, got := bo.got)
    requires PagesOk(bo) && PtesOk(bo, Unwritten(s.pc, b))
    requires bo.notifier == s.bos[b].notifier || (bo.notifier.Off? && !InFlightOn(s.evictors, b))
    requires s.pc.WritePtes? && s.pc.bo == b ==> s.pc.vas <= bo.ptes.Keys
    requires if owner == s.owner then (owner.Mapper? || owner.Init?) ==> owner.bo != b
             else owner == Nobody && !s.owner.Worker?
    ensures DataInv(s.(bos := s.bos[b := bo], owner := owner))
  {
    ChangedBuffers(s, b, bo);
    ChangedLocal(s, b, bo);
  }

  lemma ChangedLocal(s: State, b: BoId, bo: Bo)
    requires WorkerLocal(s) && b in s.bos
    requires bo == s.bos[b].(tt := bo.tt, ptes := bo.ptes, notifier := bo.notifier, got := bo.got)
    requires bo.notifier == s.bos[b].notifier || bo.notifier.Off?
    requires s.pc.WritePtes? && s.pc.bo == b ==> s.pc.vas <= bo.ptes.Keys
    ensures WorkerLocal(s.(bos := s.bos[b := bo]))
  {
    assert OnInval(s.(bos := s.bos[b := bo])) == OnInval(s);
  }

  lemma ChangedBuffers(s: State, b: BoId, bo: Bo)
    requires Buffers(s) && b in s.bos
    requires bo == s.bos[b].(tt := bo.tt, ptes := bo.ptes, notifier := bo.notifier, got := bo.got)
    requires PagesOk(bo) && PtesOk(bo, Unwritten(s.pc, b))
    ensures Buffers(s.(bos := s.bos[b := bo]))
  {
    var bos := s.bos[b := bo];
    forall c | c in bos ensures BufferOk(c, bos[c], s.pc, s.evicted, s.evictors) {
      assert BufferOk(c, s.bos[c], s.pc, s.evicted, s.evictors);
    }
  }

  lemma InitDoneData(s: State, e: LifeEvent)
    requires DataInv(s) && e.InitDone? && LifeEnabled(s, e)
    ensures DataInv(LifeApply(s, e))
  {
    var b := s.owner.bo;
    assert BufferOk(b, s.bos[b], s.pc, s.evicted, s.evictors);
    BufferChanges(s, b, if e.ok then s.bos[b].(tt := s.owner.fetched, got := true) else s.bos[b].(notifier := Off), Nobody);
  }

  lemma MapWriteData(s: State, e: LifeEvent)
    requires DataInv(s) && e.MapWrite? && LifeEnabled(s, e)
    ensures DataInv(LifeApply(s, e))
  {
    var b := s.owner.bo;
    assert BufferOk(b, s.bos[b], s.pc, s.evicted, s.evictors);
    var pte := if s.owner.invalid.value then None else s.bos[b].tt;
    BufferChanges(s, b, if e.ok then s.bos[b].(ptes := s.bos[b].ptes[s.owner.va := pte]) else s.bos[b], Nobody);
    if !e.ok { assert s.bos[b := s.bos[b]] == s.bos; }
  }

  lemma UnmapData(s: State, e: LifeEvent)
    requires DataInv(s) && e.Unmap? && LifeEnabled(s, e)
    ensures DataInv(LifeApply(s, e))
  {
    assert BufferOk(e.b, s.bos[e.b], s.pc, s.evicted, s.evictors);
    BufferChanges(s, e.b, s.bos[e.b].(ptes := s.bos[e.b].ptes - {e.va}), s.owner);
  }

  lemma UnregisterData(s: State, e: LifeEvent)
    requires DataInv(s) && e.Unregister? && LifeEnabled(s, e)
    ensures DataInv(LifeApply(s, e))
  {
    assert BufferOk(e.b, s.bos[e.b], s.pc, s.evicted, s.evictors);
    BufferChanges(s, e.b, s.bos[e.b].(notifier := Off), s.owner);
  }

  lemma LifeKeeps(s: State, e: LifeEvent)
    requires Inv(s) && LifeEnabled(s, e)
    ensures Inv(LifeApply(s, e))
  {
    LifeControl(s, e);
    match e {
      case InitDone(_) => InitDoneData(s, e);
      case MapWrite(_) => MapWriteData(s, e);
      case Unmap(_, _) => UnmapData(s, e);
      case Unregister(_) => UnregisterData(s, e);
      case Create(_) => LifeData(s, e);
      case InitLock(_) => InitLockData(s, e);
      case Remove(_) => LifeData(s, e);
      case _ => LockData(s, e);
    }
  }

  // An eviction only adds marks and counts, so it covers what it makes stale.
  lemma MarkedBuffer(b: BoId, bo: Bo, pc: Pc, evicted: nat, evictors: map<Tid, Evictor>, t: Tid, c: BoId)
    requires BufferOk(b, bo, pc, evicted, evictors) && t !in evictors
    requires b == c ==> bo.notifier.On?
    ensures var bo' := if b == c then bo.(invalid := bo.invalid + 1, epoch := bo.epoch + 1) else bo;
            BufferOk(b, bo', pc, evicted, evictors[t := Marked(c)])
  {
    var evictors' := evictors[t := Marked(c)];
    assert evictors'[t] == Marked(c);
    if u :| u in evictors && evictors[u] == Marked(b) { assert evictors'[u] == Marked(b); }
  }

  lemma EvictMarkBuffers(s: State, e: NotifyEvent)
    requires DataInv(s) && e.EvictMark? && NotifyEnabled(s, e)
    ensures Buffers(NotifyApply(s, e))
  {
    var t := NotifyApply(s, e);
    forall b | b in t.bos ensures BufferOk(b, t.bos[b], t.pc, t.evicted, t.evictors) {
      MarkedBuffer(b, s.bos[b], s.pc, s.evicted, s.evictors, e.t, e.b);
    }
  }

  lemma EvictMarkLocal(s: State, e: NotifyEvent)
    requires WorkerLocal(s) && e.EvictMark? && NotifyEnabled(s, e)
    ensures WorkerLocal(NotifyApply(s, e))
  {
    assert OnInval(NotifyApply(s, e)) == OnInval(s);
  }

  lemma EvictMarkData(s: State, e: NotifyEvent)
    requires DataInv(s) && e.EvictMark? && NotifyEnabled(s, e)
    ensures DataInv(NotifyApply(s, e))
  {
    EvictMarkBuffers(s, e);
    EvictMarkLocal(s, e);
  }

  lemma EvictStepData(s: State, e: NotifyEvent)
    requires DataInv(s) && !e.EvictMark? && NotifyEnabled(s, e)
    ensures DataInv(NotifyApply(s, e))
  {
    EvictStepBuffers(s, e);
    EvictStepSame(s, e);
    EvictStepRegistered(s, e);
    EvictStepLocal(s, e);
  }

  lemma EvictStepSame(s: State, e: NotifyEvent)
    requires !e.EvictMark? && NotifyEnabled(s, e)
    ensures var t := NotifyApply(s, e);
            t.bos == s.bos && t.owner == s.owner && t.pc == s.pc && t.crashed == s.crashed && t.evicted >= s.evicted
  {
  }

  lemma EvictStepRegistered(s: State, e: NotifyEvent)
    requires Registered(s) && !e.EvictMark? && NotifyEnabled(s, e)
    ensures Registered(NotifyApply(s, e))
  {
  }

  lemma EvictStepLocal(s: State, e: NotifyEvent)
    requires WorkerLocal(s) && !e.EvictMark? && NotifyEnabled(s, e)
    ensures WorkerLocal(NotifyApply(s, e))
  {
    EvictStepSame(s, e);
    assert OnInval(NotifyApply(s, e)) == OnInval(s);
  }

  lemma EvictStepBuffers(s: State, e: NotifyEvent)
    requires Buffers(s) && WorkerLocal(s) && !e.EvictMark? && NotifyEnabled(s, e)
    ensures Buffers(NotifyApply(s, e))
  {
    var t := NotifyApply(s, e);
    forall b | b in t.bos ensures BufferOk(b, t.bos[b], t.pc, t.evicted, t.evictors) {
      assert BufferOk(b, s.bos[b], s.pc, s.evicted, s.evictors);
      if u :| u in s.evictors && s.evictors[u] == Marked(b) && u != e.t { assert t.evictors[u] == Marked(b); }
    }
  }

  lemma NotifyKeeps(s: State, e: NotifyEvent)
    requires Inv(s) && NotifyEnabled(s, e)
    ensures Inv(NotifyApply(s, e))
  {
    NotifyControl(s, e);
    if e.EvictMark? { EvictMarkData(s, e); } else { EvictStepData(s, e); }
  }

  lemma WorkLocking(s: State, e: WorkEvent)
    requires Locking(s) && WorkEnabled(s, e)
    ensures Locking(WorkApply(s, e))
  {
    WorkOwner(s, e);
  }

  // The worker touches buffers only under the lock, and nobody else then has it.
  lemma WorkOwner(s: State, e: WorkEvent)
    requires WorkEnabled(s, e) && (s.owner.Worker? <==> HoldsLock(s.pc))
    ensures var t := WorkApply(s, e);
            && (t.owner.Worker? <==> HoldsLock(t.pc))
            && (t.owner == s.owner || t.owner == Nobody || t.owner == Worker)
            && (s.owner.Worker? || t.bos == s.bos)
  {
    if Touches(e) { TouchOwner(s, e); } else { LeavesBuffers(s, e); QuietOwner(s, e); }
  }

  lemma TouchOwner(s: State, e: WorkEvent)
    requires WorkEnabled(s, e) && Touches(e)
    ensures WorkApply(s, e).owner == s.owner && HoldsLock(s.pc) && HoldsLock(WorkApply(s, e).pc)
  {
    if e.ValidateBo? || e.WritePte? {
      WriteOwner(s, e);
    } else {
      match e {
        case ScanBo(_, _) =>
        case FetchPages(_) =>
        case ExchangeInvalid =>
      }
    }
  }

  lemma WriteOwner(s: State, e: WorkEvent)
    requires WorkEnabled(s, e) && (e.ValidateBo? || e.WritePte?)
    ensures WorkApply(s, e).owner == s.owner && HoldsLock(s.pc) && HoldsLock(WorkApply(s, e).pc)
  {
  }

  lemma QuietOwner(s: State, e: WorkEvent)
    requires WorkEnabled(s, e) && !Touches(e) && (s.owner.Worker? <==> HoldsLock(s.pc))
    ensures var t := WorkApply(s, e);
            (t.owner.Worker? <==> HoldsLock(t.pc)) && (t.owner == s.owner || t.owner == Nobody || t.owner == Worker)
  {
  }

  predicate Touches(e: WorkEvent) {
    e.ScanBo? || e.FetchPages? || e.ExchangeInvalid? || e.ValidateBo? || e.WritePte?
  }

  lemma TouchNotifiers(s: State, e: WorkEvent, c: BoId)
    requires WorkEnabled(s, e) && Touches(e) && c in s.bos
    ensures var t := WorkApply(s, e); t.evictors == s.evictors && c in t.bos && t.bos[c].notifier == s.bos[c].notifier
  {
    if e.ValidateBo? || e.WritePte? {
      WriteNotifiers(s, e, c);
    } else {
      match e {
        case ScanBo(b, _) =>
        case FetchPages(_) =>
        case ExchangeInvalid =>
      }
    }
  }

  lemma WriteNotifiers(s: State, e: WorkEvent, c: BoId)
    requires WorkEnabled(s, e) && (e.ValidateBo? || e.WritePte?) && c in s.bos
    ensures var t := WorkApply(s, e); t.evictors == s.evictors && c in t.bos && t.bos[c].notifier == s.bos[c].notifier
  {
  }

  lemma LeavesBuffers(s: State, e: WorkEvent)
    requires WorkEnabled(s, e) && !Touches(e)
    ensures WorkApply(s, e).bos == s.bos && WorkApply(s, e).evictors == s.evictors
  {
  }

  lemma WorkRegistered(s: State, e: WorkEvent)
    requires Registered(s) && WorkEnabled(s, e)
    ensures Registered(WorkApply(s, e))
  {
    if Touches(e) {
      forall u | u in s.evictors { TouchNotifiers(s, e, s.evictors[u].bo); }
      assert WorkApply(s, e).evictors == s.evictors;
    } else {
      LeavesBuffers(s, e);
    }
  }

  lemma TouchLocal(s: State, e: WorkEvent)
    requires WorkerLocal(s) && WorkEnabled(s, e) && (e.ScanBo? || e.FetchPages? || e.ExchangeInvalid?)
    ensures WorkerLocal(WorkApply(s, e))
  {
  }

  lemma WriteLocal(s: State, e: WorkEvent)
    requires WorkerLocal(s) && WorkEnabled(s, e) && (e.ValidateBo? || e.WritePte?)
    requires e.ValidateBo? ==> PagesOk(s.bos[e.b])
    ensures WorkerLocal(WorkApply(s, e))
  {
  }

  lemma WorkLocal(s: State, e: WorkEvent)
    requires WorkerLocal(s) && WorkEnabled(s, e)
    requires e.ValidateBo? ==> PagesOk(s.bos[e.b])
    ensures WorkerLocal(WorkApply(s, e))
  {
    if e.ValidateBo? || e.WritePte? {
      WriteLocal(s, e);
    } else if Touches(e) {
      TouchLocal(s, e);
    } else {
      LeavesBuffers(s, e);
    }
  }

  lemma WakeBuffers(s: State, e: WorkEvent)
    requires DataInv(s) && WorkEnabled(s, e)
    requires e.Start? || e.ReadEvicted? || e.GetTask? || e.Lock? || e.Unlock? || e.Reschedule?
    ensures Buffers(WorkApply(s, e))
  {
    var t := WorkApply(s, e);
    forall b | b in t.bos ensures BufferOk(b, t.bos[b], t.pc, t.evicted, t.evictors) {
      assert BufferOk(b, s.bos[b], s.pc, s.evicted, s.evictors);
    }
  }

  lemma WorkBuffers(s: State, e: WorkEvent)
    requires DataInv(s) && WorkEnabled(s, e)
    requires e.UpdateDone? || e.RecheckEvicted? || e.ValidateFail? || e.WriteDone? || e.ValidateDone? || e.ResumeQueues?
    ensures Buffers(WorkApply(s, e))
  {
    var t := WorkApply(s, e);
    forall b | b in t.bos ensures BufferOk(b, t.bos[b], t.pc, t.evicted, t.evictors) {
      assert BufferOk(b, s.bos[b], s.pc, s.evicted, s.evictors);
    }
  }

  lemma ScannedBuffer(b: BoId, bo: Bo, pc: Pc, evicted: nat, evictors: map<Tid, Evictor>, c: BoId)
    requires BufferOk(b, bo, pc, evicted, evictors) && pc.Scan? && evicted > 0
    ensures var bo' := if b == c && bo.invalid > 0 then bo.(tt := None, onInval := true) else bo;
            (b == c ==> bo.invalid == 0 || bo'.onInval)
            && BufferOk(b, bo', Scan(pc.n, pc.todo - {c}), evicted, evictors)
    ensures BufferOk(b, bo, Backoff(pc.n), evicted, evictors)
  {
  }

  lemma ScanBuffers(s: State, e: WorkEvent)
    requires DataInv(s) && e.ScanBo? && WorkEnabled(s, e)
    ensures Buffers(WorkApply(s, e))
  {
    var t := WorkApply(s, e);
    forall b | b in t.bos ensures BufferOk(b, t.bos[b], t.pc, t.evicted, t.evictors) {
      ScannedBuffer(b, s.bos[b], s.pc, s.evicted, s.evictors, e.b);
    }
  }

  lemma ScannedBuffers(s: State, e: WorkEvent)
    requires DataInv(s) && e.ScanDone? && WorkEnabled(s, e)
    ensures Buffers(WorkApply(s, e))
  {
    var t := WorkApply(s, e);
    forall b | b in t.bos ensures BufferOk(b, t.bos[b], t.pc, t.evicted, t.evictors) {
      assert BufferOk(b, s.bos[b], s.pc, s.evicted, s.evictors);
      assert s.bos[b].onInval <==> b in OnInval(s);
    }
  }

  lemma UpdateBuffers(s: State, e: WorkEvent)
    requires DataInv(s) && e.UpdateBo? && WorkEnabled(s, e)
    ensures Buffers(WorkApply(s, e))
  {
    var t := WorkApply(s, e);
    forall b | b in t.bos ensures BufferOk(b, t.bos[b], t.pc, t.evicted, t.evictors) {
      assert BufferOk(b, s.bos[b], s.pc, s.evicted, s.evictors);
    }
  }

  lemma FetchBuffers(s: State, e: WorkEvent)
    requires DataInv(s) && e.FetchPages? && WorkEnabled(s, e)
    ensures Buffers(WorkApply(s, e))
  {
    var t := WorkApply(s, e);
    forall b | b in t.bos ensures BufferOk(b, t.bos[b], t.pc, t.evicted, t.evictors) {
      assert BufferOk(b, s.bos[b], s.pc, s.evicted, s.evictors);
    }
  }

  lemma ExchangeBuffers(s: State, e: WorkEvent)
    requires DataInv(s) && e.ExchangeInvalid? && WorkEnabled(s, e)
    ensures Buffers(WorkApply(s, e))
  {
    var t := WorkApply(s, e);
    forall b | b in t.bos ensures BufferOk(b, t.bos[b], t.pc, t.evicted, t.evictors) {
      assert BufferOk(b, s.bos[b], s.pc, s.evicted, s.evictors);
    }
  }

  lemma ValidateBuffers(s: State, e: WorkEvent)
    requires DataInv(s) && e.ValidateBo? && WorkEnabled(s, e)
    ensures Buffers(WorkApply(s, e)) && !WorkApply(s, e).crashed && PagesOk(s.bos[e.b])
  {
    var t := WorkApply(s, e);
    assert BufferOk(e.b, s.bos[e.b], s.pc, s.evicted, s.evictors);
    forall b | b in t.bos ensures BufferOk(b, t.bos[b], t.pc, t.evicted, t.evictors) {
      ValidatedBuffer(b, s.bos[b], s.pc, s.evicted, s.evictors, e.b, s.bos[e.b].ptes.Keys);
    }
  }

  lemma ValidatedBuffer(b: BoId, bo: Bo, pc: Pc, evicted: nat, evictors: map<Tid, Evictor>, c: BoId, vas: set<Va>)
    requires BufferOk(b, bo, pc, evicted, evictors) && pc.Validate?
    requires b == c ==> bo.onInval && vas == bo.ptes.Keys
    ensures b == c ==> !bo.upages.Null?
    ensures BufferOk(b, bo, Backoff(pc.n), evicted, evictors)
    ensures var tt := if bo.upages.Pages? then Some(bo.upages.epoch) else bo.tt;
            var bo' := if b == c then bo.(tt := tt, upages := Null, onInval := false) else bo;
            BufferOk(b, bo', WritePtes(pc.n, c, vas), evicted, evictors)
  {
  }

  lemma WrittenBuffer(b: BoId, bo: Bo, pc: Pc, evicted: nat, evictors: map<Tid, Evictor>, va: Va, ok: bool)
    requires BufferOk(b, bo, pc, evicted, evictors) && pc.WritePtes? && va in pc.vas && evicted > 0
    requires b == pc.bo ==> !bo.notifier.New?
    ensures var bo' := if b != pc.bo then bo
                       else if ok then bo.(ptes := bo.ptes[va := bo.tt])
                       else bo.(invalid := bo.invalid + 1);
            BufferOk(b, bo', if ok then WritePtes(pc.n, pc.bo, pc.vas - {va}) else Backoff(pc.n), evicted, evictors)
  {
  }

  lemma WritePteBuffers(s: State, e: WorkEvent)
    requires DataInv(s) && e.WritePte? && WorkEnabled(s, e)
    ensures Buffers(WorkApply(s, e))
  {
    var t := WorkApply(s, e);
    forall b | b in t.bos ensures BufferOk(b, t.bos[b], t.pc, t.evicted, t.evictors) {
      WrittenBuffer(b, s.bos[b], s.pc, s.evicted, s.evictors, e.va, e.ok);
    }
  }

  lemma FinalBuffers(s: State, e: WorkEvent)
    requires DataInv(s) && e.FinalExchange? && WorkEnabled(s, e)
    ensures Buffers(WorkApply(s, e))
  {
    var t := WorkApply(s, e);
    forall b | b in t.bos ensures BufferOk(b, t.bos[b], t.pc, t.evicted, t.evictors) {
      assert BufferOk(b, s.bos[b], s.pc, s.evicted, s.evictors);
      assert b !in OnInval(s);
    }
  }

  lemma WorkBuffersKept(s: State, e: WorkEvent)
    requires DataInv(s) && WorkEnabled(s, e)
    ensures Buffers(WorkApply(s, e)) && !WorkApply(s, e).crashed
    ensures e.ValidateBo? ==> PagesOk(s.bos[e.b])
  {
    match e {
      case ScanBo(_, _) => ScanBuffers(s, e);
      case ScanDone => ScannedBuffers(s, e);
      case UpdateBo(_) => UpdateBuffers(s, e);
      case FetchPages(_) => FetchBuffers(s, e);
      case ExchangeInvalid => ExchangeBuffers(s, e);
      case ValidateBo(_, _) => ValidateBuffers(s, e);
      case WritePte(_, _) => WritePteBuffers(s, e);
      case FinalExchange => FinalBuffers(s, e);
      case UpdateDone => WorkBuffers(s, e);
      case RecheckEvicted => WorkBuffers(s, e);
      case ValidateFail => WorkBuffers(s, e);
      case WriteDone => WorkBuffers(s, e);
      case ValidateDone => WorkBuffers(s, e);
      case ResumeQueues => WorkBuffers(s, e);
      case _ => WakeBuffers(s, e);
    }
  }

  lemma WorkKeeps(s: State, e: WorkEvent)
    requires Inv(s) && WorkEnabled(s, e)
    ensures Inv(WorkApply(s, e))
  {
    WorkControl(s, e);
    WorkBuffersKept(s, e);
    WorkLocking(s, e);
    WorkRegistered(s, e);
    WorkLocal(s, e);
  }

  lemma InvKept(s: State, e: Event)
    requires Inv(s) && Enabled(s, e)
    ensures Inv(Apply(s, e))
  {
    match e
    case Life(l) => LifeKeeps(s, l);
    case Notify(m) => NotifyKeeps(s, m);
    case Work(w) => WorkKeeps(s, w);
  }

  lemma {:induction false} RunKeepsInv(s: State, es: seq<Event>, t: State)
    requires Inv(s) && Runs(s, es, t)
    ensures Inv(t)
    decreases es
  {
    if es != [] {
      InvKept(s, es[0]);
      RunKeepsInv(Apply(s, es[0]), es[1..], t);
    }
  }

  // ---------------------------------------------------------------- theorems

  // Nothing is left to restore: every mapping shows the current pages of the buffer, and
  // is cleared only if the last attempt to get them gave none.
  predicate Current(bo: Bo) {
    && !bo.onInval && bo.invalid == 0
    && forall va :: va in bo.ptes ==> bo.ptes[va] == if bo.got then Some(bo.epoch) else None
  }

  lemma QuietIsCurrent(s: State)
    requires Inv(s) && s.stop == 0 && s.evictors == map[]
    ensures s.evicted == 0 && forall b :: b in s.bos ==> Current(s.bos[b])
  {
    assert s.evicted == 0;
    assert !s.pc.WritePtes?;
    forall b | b in s.bos ensures Current(s.bos[b]) {
      assert BufferOk(b, s.bos[b], s.pc, s.evicted, s.evictors);
    }
  }

  // While the queues run and no notifier call is in flight, every GPU mapping shows the
  // current pages; and validation never dereferences a missing page array.
  lemma RunningQueuesSeeCurrentPages(s0: State, es: seq<Event>, s: State)
    requires Initial(s0) && Runs(s0, es, s)
    ensures s.stop == 0 && s.evictors == map[] ==> forall b :: b in s.bos ==> Current(s.bos[b])
    ensures !s.crashed
    ensures forall b :: s.pc.Validate? && b in s.bos && s.bos[b].onInval ==> !s.bos[b].upages.Null?
  {
    RunKeepsInv(s0, es, s);
    forall b | b in s.bos ensures BufferOk(b, s.bos[b], s.pc, s.evicted, s.evictors) { }
    if s.stop == 0 && s.evictors == map[] { QuietIsCurrent(s); }
  }

  lemma MappedEntry(bo: Bo, invalid: bool, since: nat)
    requires PagesOk(bo) && Mapping(bo, Some(invalid), since)
    ensures (if invalid then None else bo.tt) == if invalid || bo.onInval || !bo.got then None else Some(since)
  {
  }

  // What a mapper that has read `invalid` writes.
  predicate MapsAsRead(s: State, t: State) {
    && s.owner.Mapper? && s.owner.invalid.Some? && s.owner.bo in s.bos
    && var bo := s.bos[s.owner.bo];
    && (s.owner.invalid.value ==> bo.invalid > 0)
    && var pte := if s.owner.invalid.value || bo.onInval || !bo.got then None else Some(s.owner.since);
    t.bos == s.bos[s.owner.bo := bo.(ptes := bo.ptes[s.owner.va := pte])]
  }

  lemma MappedAsRead(s: State)
    requires DataInv(s) && LifeEnabled(s, MapWrite(true))
    ensures MapsAsRead(s, LifeApply(s, MapWrite(true)))
  {
    var bo := s.bos[s.owner.bo];
    assert BufferOk(s.owner.bo, bo, s.pc, s.evicted, s.evictors);
    MappedEntry(bo, s.owner.invalid.value, s.owner.since);
  }

  // Whatever notifiers do meanwhile, a new mapping shows the pages that were current when
  // the mapper read `invalid`.  It is cleared, and then for the worker to write, if the
  // buffer was invalid or on the invalid list, or no pages could be had for it.
  lemma MapsCurrentPages(s0: State, es: seq<Event>, s: State)
    requires Initial(s0) && Runs(s0, es, s) && LifeEnabled(s, MapWrite(true))
    ensures MapsAsRead(s, LifeApply(s, MapWrite(true)))
  {
    RunKeepsInv(s0, es, s);
    MappedAsRead(s);
  }

  lemma RunOfFour(s: State, a: LifeEvent, b: LifeEvent, c: LifeEvent, d: LifeEvent, s1: State, s2: State, s3: State)
    requires LifeEnabled(s, a) && s1 == LifeApply(s, a)
    requires LifeEnabled(s1, b) && s2 == LifeApply(s1, b)
    requires LifeEnabled(s2, c) && s3 == LifeApply(s2, c)
    requires LifeEnabled(s3, d)
    ensures Runs(s, [Life(a), Life(b), Life(c), Life(d)], LifeApply(s3, d))
  {
    var es, t := [Life(a), Life(b), Life(c), Life(d)], LifeApply(s3, d);
    assert Runs(t, es[1..][1..][1..][1..], t);
    assert Runs(s3, es[1..][1..][1..], t);
    assert Runs(s2, es[1..][1..], t);
    assert Runs(s1, es[1..], t);
  }

  // Mapping a buffer and unmapping it again leaves everything as it was.
  lemma UnmapUndoesMap(s: State, b: BoId, va: Va)
    requires LifeEnabled(s, MapLock(b, va)) && !s.pc.Validate? && !s.pc.WritePtes?
    ensures Runs(s, [Life(MapLock(b, va)), Life(MapRead), Life(MapWrite(true)), Life(Unmap(b, va))], s)
  {
    var s1 := LifeApply(s, MapLock(b, va));
    var s2 := LifeApply(s1, MapRead);
    var s3 := LifeApply(s2, MapWrite(true));
    assert s3.bos[b].ptes - {va} == s.bos[b].ptes;
    assert LifeApply(s3, Unmap(b, va)).bos == s.bos;
    RunOfFour(s, MapLock(b, va), MapRead, MapWrite(true), Unmap(b, va), s1, s2, s3);
  }

  // A creation that fails leaves nothing behind.
  lemma FailedCreateUndone(s: State, b: BoId)
    requires LifeEnabled(s, Create(b)) && !InFlightOn(s.evictors, b)
    ensures Runs(s, [Life(Create(b)), Life(InitLock(b)), Life(InitDone(false)), Life(Remove(b))], s)
  {
    var s1 := LifeApply(s, Create(b));
    var s2 := LifeApply(s1, InitLock(b));
    var s3 := LifeApply(s2, InitDone(false));
    assert LifeApply(s3, Remove(b)).bos == s.bos;
    RunOfFour(s, Create(b), InitLock(b), InitDone(false), Remove(b), s1, s2, s3);
  }

  // Validation starts only with every buffer fetched and exchanged: one that is invalid again
  // by then belongs to a notifier call whose eviction has yet to be counted.
  lemma ValidatesFetchedBuffers(s0: State, es: seq<Event>, s: State, b: BoId)
    requires Initial(s0) && Runs(s0, es, s) && s.pc.Recheck? && WorkApply(s, RecheckEvicted).pc.Validate?
    requires b in s.bos && s.bos[b].invalid > 0
    ensures exists t :: t in s.evictors && s.evictors[t] == Marked(b)
  {
    RunKeepsInv(s0, es, s);
    FetchedAtRecheck(s, b);
  }

  lemma FetchedAtRecheck(s: State, b: BoId)
    requires Buffers(s) && s.pc.Recheck? && WorkApply(s, RecheckEvicted).pc.Validate? && b in s.bos && s.bos[b].invalid > 0
    ensures MarkedOn(s.evictors, b)
  {
    assert BufferOk(b, s.bos[b], s.pc, s.evicted, s.evictors);
  }

  // No restart is lost: evictions that nobody is still processing have a worker
  // queued or running.
  lemma NoLostRestart(s0: State, es: seq<Event>, s: State)
    requires Initial(s0) && Runs(s0, es, s)
    ensures s.alive && s.evicted != 0 && s.evictors == map[] ==> s.queued || Active(s.pc)
  {
    RunKeepsInv(s0, es, s);
  }

  // The queues are stopped once for the open eviction period, and once more
  // between winning the final exchange and resuming; never a negative number of times.
  lemma StopCountExact(s0: State, es: seq<Event>, s: State)
    requires Initial(s0) && Runs(s0, es, s)
    ensures s.stop == (if s.evicted != 0 && (forall t :: t in s.evictors ==> !s.evictors[t].First?) then 1 else 0)
                    + (if s.pc.Resume? then 1 else 0)
    ensures forall t, u :: t in s.evictors && u in s.evictors && s.evictors[t].First? && s.evictors[u].First? ==> t == u
  {
    RunKeepsInv(s0, es, s);
  }
}
