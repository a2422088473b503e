/**
 The life of one buffer object under any number of threads.

 Users hold the main reference; the device holds it on an LRU list, on the swap
 list and, once the last user is gone, on the delayed-destroy list; evictors,
 swappers and delayed deletion hold it for a while.  Everything done under the LRU
 spinlock is one step.  The reservation may be shared with other buffers, so
 somebody foreign may hold it at any time.
 */
module BoLifetime {
  type Tid = nat

  // A user creates the buffer under a shared reservation, has a reference, took the
  // lock, took the buffer off the lists, or put it back and still holds the lock.
  datatype UserPc = Creating | Has | Locked | Reserved | Returned

  // What a thread that holds a list reference does next.
  datatype HolderPc =
    | Entry | Blocking | HeldEntry | Waiting
    | Evicting | Swapping | PutBack | Cleaning | Dropping

  // The last user's release, up to dropping the base reference.
  datatype Life = Alive | RelStart | RelCleaning | RelFinal | Gone

  datatype Owner = Free | Foreign | User(u: Tid) | Holder(t: Tid) | Releaser

  // `swappable`: there is a page array, and it is not an imported one.
  datatype Bo = Bo(
    kref: nat, listKref: int, lru: bool, swap: bool, ddestroy: bool,
    node: bool, noEvict: bool, swappable: bool, freed: nat, bug: bool)

  // What last happened to the LRU and swap lists: the buffer was taken off, put on (with or
  // without a page array to swap), swapped out, or never put on because its creation failed.
  datatype Listing = Taken | Added(swappable: bool) | SwappedOut | NotCreated

  datatype State = State(
    bo: Bo, owner: Owner, users: map<Tid, UserPc>, holders: map<Tid, HolderPc>, life: Life, listing: Listing)

  // ---------------------------------------------------------------- references and lists

  function ListGet(b: Bo): Bo { b.(listKref := b.listKref + 1) }

  // A put that must not be the last one.
  function ListPutBug(b: Bo): Bo {
    b.(listKref := b.listKref - 1, bug := b.bug || b.listKref <= 1)
  }

  // A put that may run ttm_bo_release_list, with its checks.
  function ListPut(b: Bo): Bo {
    b.(listKref := b.listKref - 1,
       freed := b.freed + Bit(b.listKref == 1),
       bug := b.bug || b.listKref <= 0 || (b.listKref == 1 && (b.kref != 0 || b.node || b.lru || b.ddestroy)))
  }

  function LruDeleted(b: Bo): Bo {
    var b1 := if b.swap then ListPutBug(b.(swap := false)) else b;
    if b1.lru then ListPutBug(b1.(lru := false)) else b1
  }

  function LruAdded(b: Bo): Bo {
    if b.noEvict then b
    else
      var b1 := ListGet(b.(lru := true, bug := b.bug || b.lru));
      if b.swappable then ListGet(b1.(swap := true)) else b1
  }

  function Queue(b: Bo): Bo { ListGet(b.(ddestroy := true)) }

  function Unqueue(b: Bo): Bo { ListPutBug(LruDeleted(b).(ddestroy := false)) }

  // The page array and the memory node are given back.
  function Strip(b: Bo): Bo { b.(node := false, swappable := false) }

  function Bit(b: bool): nat { if b then 1 else 0 }

  // ---------------------------------------------------------------- who has the reservation

  predicate UserOwns(pc: UserPc) { !pc.Has? }

  predicate HolderOwns(pc: HolderPc) {
    pc.HeldEntry? || pc.Evicting? || pc.Swapping? || pc.PutBack? || pc.Cleaning?
  }

  // A thread goes on to `pc`, and takes or drops the reservation accordingly.
  function UserTo(s: State, u: Tid, pc: UserPc): State {
    s.(users := s.users[u := pc], owner := if UserOwns(pc) then User(u) else if s.owner == User(u) then Free else s.owner)
  }

  function HolderTo(s: State, t: Tid, pc: HolderPc): State {
    s.(holders := s.holders[t := pc],
       owner := if HolderOwns(pc) then Holder(t) else if s.owner == Holder(t) then Free else s.owner)
  }

  // ---------------------------------------------------------------- users

  datatype UserEvent =
    | CreateDone(u: Tid, node: bool, noEvict: bool, swappable: bool)
    | CreateFail(u: Tid)
    | Share(u: Tid, v: Tid)
    | Lock(u: Tid)
    | TakeOff(u: Tid)
    | Move(u: Tid, node: bool, noEvict: bool, swappable: bool)
    | Return(u: Tid)
    | Unlock(u: Tid)
    | Unref(u: Tid)

  ghost predicate UserEnabled(s: State, e: UserEvent) {
    && e.u in s.users
    && match e
       case CreateDone(u, _, _, _) => s.users[u].Creating?
       case CreateFail(u) => s.users[u].Creating?
       case Share(u, v) => s.users[u].Has? && v !in s.users
       case Lock(u) => s.users[u].Has? && s.owner == Free
       case TakeOff(u) => s.users[u].Locked?
       case Move(u, _, _, _) => s.users[u].Reserved?
       case Return(u) => s.users[u].Reserved?
       case Unlock(u) => s.users[u].Returned?
       case Unref(u) => s.users[u].Has?
  }

  // The creator under a shared reservation leaves it locked: it is the caller's.
  ghost function ApplyUser(s: State, e: UserEvent): State
    requires UserEnabled(s, e)
  {
    var b := s.bo;
    match e
    case CreateDone(u, node, noEvict, swappable) =>
      UserTo(s, u, Has).(owner := Foreign, bo := LruAdded(b.(node := node, noEvict := noEvict, swappable := swappable)),
                         listing := Added(swappable))
    case CreateFail(u) => UserTo(s, u, Has).(owner := Foreign, listing := NotCreated)
    case Share(u, v) => UserTo(s, v, Has).(bo := b.(kref := b.kref + 1))
    case Lock(u) => UserTo(s, u, Locked)
    case TakeOff(u) => UserTo(s, u, Reserved).(bo := LruDeleted(b), listing := Taken)
    case Move(u, node, noEvict, swappable) => s.(bo := b.(node := node, noEvict := noEvict, swappable := swappable))
    case Return(u) => UserTo(s, u, Returned).(bo := LruAdded(b), listing := Added(b.swappable))
    case Unlock(u) => UserTo(s, u, Has)
    case Unref(u) =>
      if b.kref == 0 then s.(bo := b.(bug := true))
      else s.(users := s.users - {u}, bo := b.(kref := b.kref - 1), life := if b.kref == 1 then RelStart else s.life)
  }

  // ---------------------------------------------------------------- evict, swap, delayed delete

  // ttm_bo_cleanup_refs_and_unlock, once it is known whether the buffer is busy.
  function FinishCleanup(s: State, t: Tid, busy: bool): State {
    if busy || !s.bo.ddestroy then HolderTo(s, t, Dropping)
    else HolderTo(s, t, Cleaning).(bo := Unqueue(s.bo), listing := Taken)
  }

  function Cleanup(s: State, t: Tid, idle: bool, noWait: bool): State {
    if !idle && !noWait then HolderTo(s, t, Waiting) else FinishCleanup(s, t, !idle)
  }

  datatype HolderEvent =
    | Pick(t: Tid, fromSwap: bool, idle: bool, noWait: bool)
    | Evict(t: Tid, node: bool)
    | EvictDone(t: Tid)
    | PutBackUnlock(t: Tid)
    | SwapDone(t: Tid, keepNode: bool)
    | Delayed(t: Tid)
    | Skip(t: Tid)
    | TryEntry(t: Tid, removeAll: bool, idle: bool)
    | BlockLock(t: Tid)
    | HeldCleanup(t: Tid, idle: bool)
    | WaitFail(t: Tid)
    | WaitDone(t: Tid)
    | Clean(t: Tid)
    | Drop(t: Tid)

  predicate Starts(e: HolderEvent) { e.Pick? || e.Delayed? }

  ghost predicate HolderEnabled(s: State, e: HolderEvent) {
    && (Starts(e) <==> e.t !in s.holders)
    && match e
       case Pick(t, fromSwap, _, noWait) =>
         s.owner == Free && (if fromSwap then s.bo.swap && !noWait else s.bo.lru)
       case Evict(t, _) => s.holders[t].Evicting?
       case EvictDone(t) => s.holders[t].Evicting?
       case PutBackUnlock(t) => s.holders[t].PutBack?
       case SwapDone(t, _) => s.holders[t].Swapping?
       case Delayed(t) => s.bo.ddestroy
       case Skip(t) => s.holders[t].Entry? && !s.bo.ddestroy
       case TryEntry(t, _, _) => s.holders[t].Entry? && s.bo.ddestroy
       case BlockLock(t) => s.holders[t].Blocking? && s.owner == Free
       case HeldCleanup(t, _) => s.holders[t].HeldEntry?
       case WaitFail(t) => s.holders[t].Waiting?
       case WaitDone(t) => s.holders[t].Waiting? && s.owner == Free
       case Clean(t) => s.holders[t].Cleaning?
       case Drop(t) => s.holders[t].Dropping?
  }

  ghost function ApplyHolder(s: State, e: HolderEvent): State
    requires HolderEnabled(s, e)
  {
    var b := s.bo;
    match e
    case Pick(t, fromSwap, idle, noWait) =>
      if b.ddestroy then Cleanup(s.(bo := ListGet(b)), t, idle, noWait)
      else HolderTo(s, t, if fromSwap then Swapping else Evicting).(bo := LruDeleted(ListGet(b)), listing := Taken)
    case Evict(t, node) => s.(bo := b.(node := node))
    case EvictDone(t) => HolderTo(s, t, PutBack).(bo := LruAdded(b), listing := Added(b.swappable))
    case PutBackUnlock(t) => HolderTo(s, t, Dropping)
    case SwapDone(t, keep) => HolderTo(s, t, Dropping).(bo := b.(node := b.node && keep), listing := SwappedOut)
    case Delayed(t) => HolderTo(s, t, Entry).(bo := ListGet(b))
    case Skip(t) => HolderTo(s, t, Dropping)
    case TryEntry(t, removeAll, idle) =>
      if s.owner == Free then Cleanup(s, t, idle, !removeAll)
      else HolderTo(s, t, if removeAll then Blocking else Dropping)
    case BlockLock(t) => HolderTo(s, t, HeldEntry)
    case HeldCleanup(t, idle) => Cleanup(s, t, idle, false)
    case WaitFail(t) => HolderTo(s, t, Dropping)
    case WaitDone(t) => FinishCleanup(s, t, false)
    case Clean(t) => HolderTo(s, t, Dropping).(bo := Strip(b))
    case Drop(t) => s.(holders := s.holders - {t}, bo := ListPut(b))
  }

  // ---------------------------------------------------------------- release and foreign holders

  // The last user's release may fail to take over the fences or the reservation,
  // find the buffer idle, or find it busy.
  datatype OtherEvent =
    | RelQueue
    | RelIdle
    | RelBusy
    | RelClean
    | RelPut
    | ForeignLock
    | ForeignMove(node: bool, swappable: bool)
    | ForeignTail
    | ForeignUnlock

  ghost predicate OtherEnabled(s: State, e: OtherEvent) {
    match e
    case RelQueue => s.life == RelStart
    case RelIdle => s.life == RelStart && s.owner == Free
    case RelBusy => s.life == RelStart && s.owner == Free
    case RelClean => s.life == RelCleaning
    case RelPut => s.life == RelFinal
    case ForeignLock => s.owner == Free
    case ForeignMove(_, _) => s.owner == Foreign && s.bo.kref > 0
    case ForeignTail => s.owner == Foreign && s.bo.kref > 0
    case ForeignUnlock => s.owner == Foreign
  }

  ghost function ApplyOther(s: State, e: OtherEvent): State
    requires OtherEnabled(s, e)
  {
    var b := s.bo;
    match e
    case RelQueue => s.(life := RelFinal, bo := Queue(b))
    case RelIdle => s.(life := RelCleaning, owner := Releaser, bo := LruDeleted(b), listing := Taken)
    case RelBusy => s.(life := RelFinal, bo := Queue(if b.noEvict then LruAdded(b.(noEvict := false)) else b),
                       listing := if b.noEvict then Added(b.swappable) else s.listing)
    case RelClean => s.(life := RelFinal, owner := Free, bo := Strip(b))
    case RelPut => s.(life := Gone, bo := ListPut(b))
    case ForeignLock => s.(owner := Foreign)
    case ForeignMove(node, swappable) => s.(bo := b.(node := node, swappable := swappable))
    case ForeignTail => s.(bo := LruAdded(LruDeleted(b)), listing := Added(b.swappable))
    case ForeignUnlock => s.(owner := Free)
  }

  datatype Event = OfUser(ue: UserEvent) | OfHolder(he: HolderEvent) | OfOther(oe: OtherEvent)

  ghost predicate Enabled(s: State, e: Event) {
    match e
    case OfUser(ue) => UserEnabled(s, ue)
    case OfHolder(he) => HolderEnabled(s, he)
    case OfOther(oe) => OtherEnabled(s, oe)
  }

  ghost function Apply(s: State, e: Event): State
    requires Enabled(s, e)
  {
    match e
    case OfUser(ue) => ApplyUser(s, ue)
    case OfHolder(he) => ApplyHolder(s, he)
    case OfOther(oe) => ApplyOther(s, oe)
  }

  // A new buffer, reserved by its creator or created under a reservation held by the caller.
  predicate Initial(s: State, u: Tid) {
    && u in s.users && (s.users[u].Creating? || s.users[u].Reserved?)
    && s == State(Bo(1, 1, false, false, false, false, false, false, 0, false), User(u), map[u := s.users[u]], map[], Alive, Taken)
  }

  ghost predicate Runs(s: State, es: seq<Event>, t: State)
    decreases es
  {
    if es == [] then s == t else Enabled(s, es[0]) && Runs(Apply(s, es[0]), es[1..], t)
  }

  // ---------------------------------------------------------------- invariant

  // The list references there should be: base reference, three lists, holders.
  function References(b: Bo, holders: nat, life: Life): nat {
    Bit(life != Gone) + Bit(b.lru) + Bit(b.swap) + Bit(b.ddestroy) + holders
  }

  predicate Counted(b: Bo, users: nat, holders: nat, life: Life) {
    && !b.bug
    && b.kref == users && (users > 0 <==> life == Alive)
    && b.listKref == References(b, holders, life)
    && b.freed == Bit(b.listKref == 0)
  }

  ghost predicate Owned(owner: Owner, users: map<Tid, UserPc>, holders: map<Tid, HolderPc>, life: Life) {
    && (forall u :: u in users ==> (UserOwns(users[u]) <==> owner == User(u)))
    && (forall t :: t in holders ==> (HolderOwns(holders[t]) <==> owner == Holder(t)))
    && (owner.User? ==> owner.u in users)
    && (owner.Holder? ==> owner.t in holders)
    && (owner == Releaser <==> life == RelCleaning)
  }

  // What the owner of the reservation has done: nothing to the lists, emptied them,
  // emptied them for a move that puts the buffer back, or unqueued the buffer for good.
  datatype Grip = Loose | Off | Moving | Final

  function UserGrip(pc: UserPc): Grip { if pc.Reserved? || pc.Creating? then Off else Loose }

  function HolderGrip(pc: HolderPc): Grip {
    if pc.Evicting? || pc.Swapping? then Moving else if pc.Cleaning? then Final else Loose
  }

  function GripOf(owner: Owner, users: map<Tid, UserPc>, holders: map<Tid, HolderPc>): Grip {
    match owner
    case Releaser => Off
    case User(u) => if u in users then UserGrip(users[u]) else Loose
    case Holder(t) => if t in holders then HolderGrip(holders[t]) else Loose
    case _ => Loose
  }

  // No user, not queued for destruction, and not in the hands of its release.
  predicate Dead(b: Bo, life: Life) { (life == RelFinal || life == Gone) && !b.ddestroy }

  predicate Listed(b: Bo, grip: Grip, life: Life) {
    && (b.noEvict || grip == Off || grip == Moving ==> !b.lru && !b.swap)
    && (b.ddestroy ==> life == RelFinal || life == Gone)
    && (Dead(b, life) ==> !b.lru && !b.swap && grip != Moving && (b.node ==> grip == Final))
  }

  predicate BoOk(b: Bo, users: nat, holders: nat, grip: Grip, life: Life) {
    Counted(b, users, holders, life) && Listed(b, grip, life)
  }

  ghost predicate Inv(s: State) {
    && BoOk(s.bo, |s.users|, |s.holders|, GripOf(s.owner, s.users, s.holders), s.life)
    && Owned(s.owner, s.users, s.holders, s.life)
  }

  lemma TakenOff(b: Bo, users: nat, holders: nat, grip: Grip, life: Life, grip': Grip, life': Life)
    requires BoOk(b, users, holders, grip, life) && (holders > 0 || life != Gone)
    requires if life' == life then !Dead(b, life) else life == RelStart && life' == RelCleaning
    ensures BoOk(LruDeleted(b), users, holders, grip', life')
  {
  }

  lemma PutOn(b: Bo, users: nat, holders: nat, life: Life)
    requires BoOk(b, users, holders, Off, life) && !Dead(b, life)
    ensures BoOk(LruAdded(b), users, holders, Loose, life)
  {
  }

  lemma Unqueued(b: Bo, users: nat, holders: nat, life: Life)
    requires BoOk(b, users, holders, Loose, life) && b.ddestroy && holders > 0
    ensures BoOk(Unqueue(b), users, holders, Final, life)
  {
  }

  lemma Queued(b: Bo, users: nat, holders: nat, grip: Grip)
    requires BoOk(b, users, holders, grip, RelStart)
    ensures BoOk(Queue(b), users, holders, grip, RelFinal)
  {
  }

  // A list reference is dropped by a holder that owns nothing or, with `base`, by the release.
  lemma PutAway(b: Bo, users: nat, holders: nat, grip: Grip, life: Life, base: bool)
    requires BoOk(b, users, holders, grip, life) && (if base then life == RelFinal else holders > 0)
    requires grip == Moving || grip == Final ==> holders > Bit(!base)
    ensures var b', life', holders' := ListPut(b), if base then Gone else life, holders - Bit(!base);
            && BoOk(b', users, holders', grip, life')
            && (b'.freed == 1 <==> life' == Gone && !b'.lru && !b'.swap && !b'.ddestroy && holders' == 0)
            && (b'.freed == 1 ==> b.freed == 0 && b.kref == 0 && !b.node)
  {
  }

  lemma Removed<T>(m: map<Tid, T>, k: Tid)
    requires k in m
    ensures |m - {k}| == |m| - 1
  {
    assert (m - {k}).Keys == m.Keys - {k};
  }

  // A user, or a holder, goes on to `pc`: enough to look at the buffer.
  lemma UserGoes(s: State, u: Tid, pc: UserPc, b: Bo)
    requires Owned(s.owner, s.users, s.holders, s.life)
    requires UserOwns(pc) ==> s.owner == Free || s.owner == User(u)
    requires BoOk(b, |s.users[u := pc]|, |s.holders|,
                  if UserOwns(pc) || s.owner == User(u) then UserGrip(pc) else GripOf(s.owner, s.users, s.holders), s.life)
    ensures Inv(UserTo(s, u, pc).(bo := b))
  {
  }

  lemma HolderGoes(s: State, t: Tid, pc: HolderPc, b: Bo)
    requires Owned(s.owner, s.users, s.holders, s.life)
    requires HolderOwns(pc) ==> s.owner == Free || s.owner == Holder(t)
    requires BoOk(b, |s.users|, |s.holders[t := pc]|,
                  if HolderOwns(pc) || s.owner == Holder(t) then HolderGrip(pc) else GripOf(s.owner, s.users, s.holders), s.life)
    ensures Inv(HolderTo(s, t, pc).(bo := b))
  {
  }

  lemma UnrefKeeps(s: State, u: Tid)
    requires Inv(s) && u in s.users && s.users[u] == Has
    ensures Inv(ApplyUser(s, Unref(u)))
  {
    Removed(s.users, u);
  }

  lemma DropKeeps(s: State, t: Tid)
    requires Inv(s) && t in s.holders && s.holders[t] == Dropping
    ensures Inv(ApplyHolder(s, Drop(t)))
  {
    Removed(s.holders, t);
  }

  lemma CreateKeeps(s: State, e: UserEvent)
    requires Inv(s) && UserEnabled(s, e) && (e.CreateDone? || e.CreateFail?)
    ensures Inv(ApplyUser(s, e))
  {
    match e {
      case CreateDone(u, node, noEvict, swappable) =>
        var b := s.bo.(node := node, noEvict := noEvict, swappable := swappable);
        PutOn(b, |s.users|, |s.holders|, s.life);
        UserGoes(s, u, Has, LruAdded(b));
      case CreateFail(u) => UserGoes(s, u, Has, s.bo);
    }
  }

  lemma UserKeeps(s: State, e: UserEvent)
    requires Inv(s) && UserEnabled(s, e)
    ensures Inv(ApplyUser(s, e))
  {
    var b, n, h := s.bo, |s.users|, |s.holders|;
    match e {
      case CreateDone(_, _, _, _) => CreateKeeps(s, e);
      case CreateFail(_) => CreateKeeps(s, e);
      case Share(_, v) => UserGoes(s, v, Has, b.(kref := b.kref + 1));
      case Lock(u) => UserGoes(s, u, Locked, b);
      case TakeOff(u) =>
        TakenOff(b, n, h, Loose, s.life, Off, s.life);
        UserGoes(s, u, Reserved, LruDeleted(b));
      case Move(_, _, _, _) =>
      case Return(u) =>
        PutOn(b, n, h, s.life);
        UserGoes(s, u, Returned, LruAdded(b));
      case Unlock(u) => UserGoes(s, u, Has, b);
      case Unref(u) => UnrefKeeps(s, u);
    }
  }

  lemma CleanupKeeps(s: State, b: Bo, t: Tid, h: nat, idle: bool, noWait: bool)
    requires h == |s.holders[t := HeldEntry]| > 0 && BoOk(b, |s.users|, h, Loose, s.life)
    requires Owned(s.owner, s.users, s.holders, s.life) && (s.owner == Free || s.owner == Holder(t))
    ensures Inv(Cleanup(s.(bo := b), t, idle, noWait))
  {
    if !idle && !noWait {
      HolderGoes(s, t, Waiting, b);
    } else if !idle || !b.ddestroy {
      HolderGoes(s, t, Dropping, b);
    } else {
      Unqueued(b, |s.users|, h, s.life);
      HolderGoes(s, t, Cleaning, Unqueue(b));
    }
  }

  lemma PickKeeps(s: State, e: HolderEvent)
    requires Inv(s) && e.Pick? && HolderEnabled(s, e)
    ensures Inv(ApplyHolder(s, e))
  {
    var b, h := s.bo, |s.holders|;
    if b.ddestroy {
      CleanupKeeps(s, ListGet(b), e.t, h + 1, e.idle, e.noWait);
    } else {
      TakenOff(ListGet(b), |s.users|, h + 1, Loose, s.life, Moving, s.life);
      HolderGoes(s, e.t, if e.fromSwap then Swapping else Evicting, LruDeleted(ListGet(b)));
    }
  }

  lemma TryKeeps(s: State, e: HolderEvent)
    requires Inv(s) && HolderEnabled(s, e) && (e.TryEntry? || e.HeldCleanup? || e.WaitDone?)
    ensures Inv(ApplyHolder(s, e))
  {
    var b, h := s.bo, |s.holders|;
    Removed(s.holders, e.t);
    match e {
      case TryEntry(t, removeAll, idle) =>
        if s.owner == Free { CleanupKeeps(s, b, t, h, idle, !removeAll); }
        else { HolderGoes(s, t, if removeAll then Blocking else Dropping, b); }
      case HeldCleanup(t, idle) => CleanupKeeps(s, b, t, h, idle, false);
      case WaitDone(t) => CleanupKeeps(s, b, t, h, true, false);
    }
  }

  lemma HolderKeeps(s: State, e: HolderEvent)
    requires Inv(s) && HolderEnabled(s, e)
    ensures Inv(ApplyHolder(s, e))
  {
    if e.Pick? { PickKeeps(s, e); }
    else if e.TryEntry? || e.HeldCleanup? || e.WaitDone? { TryKeeps(s, e); }
    else { HolderStepKeeps(s, e); }
  }

  lemma HolderStepKeeps(s: State, e: HolderEvent)
    requires Inv(s) && HolderEnabled(s, e)
    requires !e.Pick? && !e.TryEntry? && !e.HeldCleanup? && !e.WaitDone?
    ensures Inv(ApplyHolder(s, e))
  {
    var b := s.bo;
    match e {
      case Delayed(t) => HolderGoes(s, t, Entry, ListGet(b));
      case BlockLock(t) => HolderGoes(s, t, HeldEntry, b);
      case Evict(_, _) =>
      case EvictDone(t) =>
        PutOn(b, |s.users|, |s.holders|, s.life);
        HolderGoes(s, t, PutBack, LruAdded(b));
      case SwapDone(t, keep) => HolderGoes(s, t, Dropping, b.(node := b.node && keep));
      case Clean(t) => HolderGoes(s, t, Dropping, Strip(b));
      case Drop(t) => DropKeeps(s, t);
      case _ => HolderGoes(s, e.t, Dropping, b);
    }
  }

  lemma ReleaseKeeps(s: State, e: OtherEvent)
    requires Inv(s) && OtherEnabled(s, e) && (e.RelQueue? || e.RelIdle? || e.RelBusy? || e.RelClean? || e.RelPut?)
    ensures Inv(ApplyOther(s, e))
  {
    var b, n, h := s.bo, |s.users|, |s.holders|;
    var grip := GripOf(s.owner, s.users, s.holders);
    match e {
      case RelQueue => Queued(b, n, h, grip);
      case RelIdle => TakenOff(b, n, h, grip, s.life, Off, RelCleaning);
      case RelBusy =>
        if b.noEvict { PutOn(b.(noEvict := false), n, h, s.life); }
        Queued(if b.noEvict then LruAdded(b.(noEvict := false)) else b, n, h, grip);
      case RelClean =>
      case RelPut =>
    }
  }

  lemma OtherKeeps(s: State, e: OtherEvent)
    requires Inv(s) && OtherEnabled(s, e)
    ensures Inv(ApplyOther(s, e))
  {
    var b, n, h := s.bo, |s.users|, |s.holders|;
    match e {
      case ForeignLock =>
      case ForeignMove(_, _) =>
      case ForeignTail =>
        TakenOff(b, n, h, Loose, s.life, Off, s.life);
        PutOn(LruDeleted(b), n, h, s.life);
      case ForeignUnlock =>
      case _ => ReleaseKeeps(s, e);
    }
  }

  lemma InvKept(s: State, e: Event)
    requires Inv(s) && Enabled(s, e)
    ensures Inv(Apply(s, e))
  {
    match e {
      case OfUser(ue) => UserKeeps(s, ue);
      case OfHolder(he) => HolderKeeps(s, he);
      case OfOther(oe) => OtherKeeps(s, oe);
    }
  }

  lemma {:induction false} RunKeepsInv(s: State, es: seq<Event>, t: State)
    requires Inv(s) && Runs(s, es, t)
    ensures Inv(t)
    decreases es
  {
    if es != [] {
      InvKept(s, es[0]);
      RunKeepsInv(Apply(s, es[0]), es[1..], t);
    }
  }

  // ---------------------------------------------------------------- theorems

  // No check fails, no put that must not be the last one is the last one, and the
  // list reference count is exactly the number of those who hold one.
  lemma ListReferencesExact(s0: State, u: Tid, es: seq<Event>, s: State)
    requires Initial(s0, u) && Runs(s0, es, s)
    ensures !s.bo.bug && s.bo.kref == |s.users| && s.bo.listKref == References(s.bo, |s.holders|, s.life)
  {
    RunKeepsInv(s0, es, s);
  }

  // The buffer is freed once, exactly when nobody refers to it, without memory node,
  // and nothing but the shared reservation is ever touched afterwards.
  lemma FreedOnce(s0: State, u: Tid, es: seq<Event>, s: State)
    requires Initial(s0, u) && Runs(s0, es, s)
    ensures s.bo.freed <= 1
    ensures s.bo.freed == 1 <==> s.life == Gone && !s.bo.lru && !s.bo.swap && !s.bo.ddestroy && s.holders == map[]
    ensures s.bo.freed == 1 ==> s.users == map[] && !s.bo.node
    ensures s.bo.freed == 1 ==> forall e :: Enabled(s, e) ==> e == OfOther(ForeignLock) || e == OfOther(ForeignUnlock)
  {
    RunKeepsInv(s0, es, s);
  }

  // The buffer is on the LRU unless pinned, and on the swap list if it had pages to swap when
  // it was put on; or it was swapped out or never put on.  It has not just been taken off.
  predicate ListedAs(b: Bo, listing: Listing) {
    match listing
    case Taken => false
    case Added(swappable) => b.lru == !b.noEvict && b.swap == (!b.noEvict && swappable)
    case _ => !b.lru && !b.swap
  }

  // So it is while in use, or just given up by its last user, when nobody works on its lists.
  predicate KeptListed(s: State) {
    var grip := GripOf(s.owner, s.users, s.holders);
    s.life == Alive || s.life == RelStart ==> grip != Final && (grip == Loose ==> ListedAs(s.bo, s.listing))
  }

  lemma UserListed(s: State, e: UserEvent)
    requires Inv(s) && KeptListed(s) && UserEnabled(s, e)
    ensures KeptListed(ApplyUser(s, e))
  {
  }

  lemma PickListed(s: State, e: HolderEvent)
    requires Inv(s) && KeptListed(s) && HolderEnabled(s, e) && e.Pick?
    ensures KeptListed(ApplyHolder(s, e))
  {
  }

  lemma PutBackListed(s: State, e: HolderEvent)
    requires Inv(s) && KeptListed(s) && HolderEnabled(s, e) && (e.EvictDone? || e.SwapDone? || e.Drop?)
    ensures KeptListed(ApplyHolder(s, e))
  {
  }

  lemma CleanListed(s: State, e: HolderEvent)
    requires Inv(s) && KeptListed(s) && HolderEnabled(s, e) && !e.Pick? && !e.EvictDone? && !e.SwapDone? && !e.Drop?
    ensures KeptListed(ApplyHolder(s, e))
  {
  }

  lemma OtherListed(s: State, e: OtherEvent)
    requires Inv(s) && KeptListed(s) && OtherEnabled(s, e)
    ensures KeptListed(ApplyOther(s, e))
  {
  }

  lemma ListedKept(s: State, e: Event)
    requires Inv(s) && KeptListed(s) && Enabled(s, e)
    ensures KeptListed(Apply(s, e))
  {
    match e {
      case OfUser(ue) => UserListed(s, ue);
      case OfHolder(he) =>
        if he.Pick? { PickListed(s, he); }
        else if he.EvictDone? || he.SwapDone? || he.Drop? { PutBackListed(s, he); }
        else { CleanListed(s, he); }
      case OfOther(oe) => OtherListed(s, oe);
    }
  }

  lemma {:induction false} RunKeepsListed(s: State, es: seq<Event>, t: State)
    requires Inv(s) && KeptListed(s) && Runs(s, es, t)
    ensures Inv(t) && KeptListed(t)
    decreases es
  {
    if es != [] {
      InvKept(s, es[0]);
      ListedKept(s, es[0]);
      RunKeepsListed(Apply(s, es[0]), es[1..], t);
    }
  }

  // A thread that does not hold a list reference yet can evict the buffer.
  ghost predicate CanPick(s: State, fromSwap: bool) {
    forall t, idle :: t !in s.holders ==> HolderEnabled(s, Pick(t, fromSwap, idle, false))
  }

  // Whoever takes a buffer off the lists puts it back, except for a swap-out: with the
  // reservation free, a buffer that is not pinned can be evicted by anybody, and swapped out
  // if it had pages to swap.
  lemma StaysEvictable(s0: State, u: Tid, es: seq<Event>, s: State)
    requires Initial(s0, u) && Runs(s0, es, s) && s.life == Alive
    ensures GripOf(s.owner, s.users, s.holders) == Loose && s.listing != SwappedOut && s.listing != NotCreated ==>
              s.listing.Added? && s.bo.lru == !s.bo.noEvict && s.bo.swap == (!s.bo.noEvict && s.listing.swappable)
    ensures s.owner == Free && s.listing != SwappedOut && s.listing != NotCreated && !s.bo.noEvict ==>
              CanPick(s, false) && (s.listing.swappable ==> CanPick(s, true))
  {
    RunKeepsListed(s0, es, s);
  }

  // A busy buffer without users can be evicted even if it was pinned.
  lemma QueuedIsEvictable(s0: State, u: Tid, es: seq<Event>, s: State)
    requires Initial(s0, u) && Runs(s0, es, s) && OtherEnabled(s, RelBusy)
    ensures var t := ApplyOther(s, RelBusy);
            t.bo.ddestroy && !t.bo.noEvict && (s.bo.noEvict || s.listing.Added? ==> CanPick(t, false))
  {
    RunKeepsListed(s0, es, s);
  }

  // Waits or goes on waiting for the reservation or for the buffer to become idle.
  predicate StillAtIt(pc: HolderPc) { pc.Blocking? || pc.HeldEntry? || pc.Waiting? }

  // Delayed deletion that is to remove everything does not pass over a queued buffer: it
  // waits, or unqueues the buffer from all lists and strips it of its memory.
  lemma RemoveAllInsists(s: State, e: HolderEvent)
    requires Inv(s) && HolderEnabled(s, e) && s.bo.ddestroy
    requires (e.TryEntry? && e.removeAll) || e.BlockLock? || e.HeldCleanup? || e.WaitDone?
    ensures var t := ApplyHolder(s, e);
            && e.t in t.holders
            && (if StillAtIt(t.holders[e.t]) then t.bo == s.bo && !e.WaitDone?
                else t.holders[e.t] == Cleaning && !t.bo.ddestroy && !t.bo.lru && !t.bo.swap
                     && !ApplyHolder(t, Clean(e.t)).bo.node)
            && (e.HeldCleanup? && e.idle ==> t.holders[e.t] == Cleaning)
  {
  }

  // Without waiting nobody ever waits.
  lemma NoWaitNeverWaits(s: State, e: HolderEvent)
    requires HolderEnabled(s, e) && ((e.Pick? && e.noWait) || (e.TryEntry? && !e.removeAll))
    ensures var t := ApplyHolder(s, e); e.t in t.holders && !StillAtIt(t.holders[e.t])
    ensures s.bo.ddestroy && s.owner == Free && e.idle ==> ApplyHolder(s, e).holders[e.t] == Cleaning
  {
  }

  // Some continuation frees the buffer.
  ghost predicate CanBeFreed(s: State) {
    exists es, t :: Runs(s, es, t) && t.bo.freed == 1
  }

  lemma Onwards(s: State, e: Event)
    requires Inv(s) && Enabled(s, e)
    ensures Inv(Apply(s, e)) && (CanBeFreed(Apply(s, e)) ==> CanBeFreed(s))
  {
    InvKept(s, e);
    if CanBeFreed(Apply(s, e)) {
      var es, t :| Runs(Apply(s, e), es, t) && t.bo.freed == 1;
      assert ([e] + es)[1..] == es;
      assert Runs(s, [e] + es, t);
    }
  }

  function ToGo(life: Life): nat { match life case Alive => 4 case RelStart => 3 case RelCleaning => 2 case RelFinal => 1 case Gone => 0 }

  function StepsLeft(pc: HolderPc): nat {
    match pc
    case Blocking => 5
    case HeldEntry => 4
    case Waiting => 3
    case Evicting => 3
    case Dropping => 1
    case _ => 2
  }

  // The event that brings holder t closer to its end.
  function NextOf(s: State, t: Tid): HolderEvent
    requires t in s.holders
  {
    match s.holders[t]
    case Entry => if s.bo.ddestroy then TryEntry(t, false, false) else Skip(t)
    case Blocking => BlockLock(t)
    case HeldEntry => HeldCleanup(t, false)
    case Waiting => WaitFail(t)
    case Evicting => EvictDone(t)
    case Swapping => SwapDone(t, true)
    case PutBack => PutBackUnlock(t)
    case Cleaning => Clean(t)
    case Dropping => Drop(t)
  }

  function NextPc(pc: HolderPc): HolderPc {
    match pc
    case Blocking => HeldEntry
    case HeldEntry => Waiting
    case Evicting => PutBack
    case _ => Dropping
  }

  // One holder is gone, or closer to its end.
  ghost predicate Closer(holders: map<Tid, HolderPc>, t: Tid, holders': map<Tid, HolderPc>)
    requires t in holders
  {
    if holders[t] == Dropping then |holders'| < |holders|
    else t in holders' && |holders'| == |holders| && StepsLeft(holders'[t]) < StepsLeft(holders[t])
  }

  lemma NextCloser(holders: map<Tid, HolderPc>, t: Tid)
    requires t in holders
    ensures Closer(holders, t, if holders[t] == Dropping then holders - {t} else holders[t := NextPc(holders[t])])
  {
    Removed(holders, t);
  }

  lemma NextStep(s: State, t: Tid) returns (e: HolderEvent, s': State)
    requires t in s.holders && (if HolderOwns(s.holders[t]) then s.owner == Holder(t) else s.owner == Free)
    ensures HolderEnabled(s, e) && s' == ApplyHolder(s, e)
    ensures s'.users == s.users && s'.life == s.life && s'.bo.ddestroy == s.bo.ddestroy
    ensures Closer(s.holders, t, s'.holders) && (s.holders[t] == Dropping || s'.owner == Free || s'.owner == Holder(t))
  {
    NextCloser(s.holders, t);
    e := NextOf(s, t);
    s' := ApplyHolder(s, e);
    match s.holders[t] {
      case Entry =>
      case Blocking =>
      case HeldEntry =>
      case Waiting =>
      case Evicting =>
      case Swapping =>
      case PutBack =>
      case Cleaning =>
      case Dropping =>
    }
  }

  lemma {:induction false} HolderEnds(s: State, t: Tid)
    requires Inv(s) && s.users == map[] && t in s.holders && (s.owner == Free || s.owner == Holder(t))
    ensures CanBeFreed(s)
    decreases ToGo(s.life), Bit(s.bo.ddestroy), |s.holders|, 0, StepsLeft(s.holders[t])
  {
    var e, s' := NextStep(s, t);
    Onwards(s, OfHolder(e));
    if s.holders[t] == Dropping { CanAlwaysBeFreed(s'); } else { HolderEnds(s', t); }
  }

  lemma {:induction false} CanAlwaysBeFreed(s: State)
    requires Inv(s) && s.users == map[]
    ensures CanBeFreed(s)
    decreases ToGo(s.life), Bit(s.bo.ddestroy), |s.holders|, 1 + Bit(s.owner == Foreign), 0
  {
    if s.owner == Foreign {
      Onwards(s, OfOther(ForeignUnlock));
      CanAlwaysBeFreed(ApplyOther(s, ForeignUnlock));
    } else if s.life != Gone {
      var e := if s.life == RelStart then RelQueue else if s.life == RelCleaning then RelClean else RelPut;
      Onwards(s, OfOther(e));
      CanAlwaysBeFreed(ApplyOther(s, e));
    } else if s.owner.Holder? {
      HolderEnds(s, s.owner.t);
    } else if s.holders != map[] {
      var t :| t in s.holders;
      HolderEnds(s, t);
    } else if s.bo.ddestroy {
      var s1 := ApplyHolder(s, Delayed(0));
      Onwards(s, OfHolder(Delayed(0)));
      Onwards(s1, OfHolder(TryEntry(0, false, true)));
      CanAlwaysBeFreed(ApplyHolder(s1, TryEntry(0, false, true)));
    } else {
      assert Runs(s, [], s);
    }
  }

  // Nothing leaks: whatever was done, once the last user is gone the buffer can still be freed.
  lemma NeverLeaks(s0: State, u: Tid, es: seq<Event>, s: State)
    requires Initial(s0, u) && Runs(s0, es, s) && s.users == map[]
    ensures CanBeFreed(s)
  {
    RunKeepsInv(s0, es, s);
    CanAlwaysBeFreed(s);
  }

  // ---------------------------------------------------------------- the lists as the code keeps them

  // A buffer, how many users and list-reference holders it has, what the owner of its
  // reservation did to the lists, and how far its life has got.
  class BufferObject {
    var kref: nat
    var listKref: int
    var lru: bool
    var swap: bool
    var ddestroy: bool
    var node: bool
    var noEvict: bool
    var swappable: bool
    var freed: nat
    var bug: bool
    ghost var users: nat
    ghost var holders: nat
    ghost var grip: Grip
    ghost var life: Life

    function Value(): Bo
      reads this
    {
      Bo(kref, listKref, lru, swap, ddestroy, node, noEvict, swappable, freed, bug)
    }

    ghost predicate Valid()
      reads this
    {
      BoOk(Value(), users, holders, grip, life)
    }

    // ttm_bo_add_to_lru, by the owner that took the buffer off: it is not listed yet, and is
    // afterwards unless pinned.
    method AddToLru()
      requires Valid() && (grip == Off || grip == Moving) && !Dead(Value(), life)
      modifies this`listKref, this`bug, this`lru, this`swap, this`grip
      ensures Valid() && grip == Loose
      ensures lru == !noEvict && swap == (!noEvict && swappable)
      ensures listKref == old(listKref) + Bit(lru) + Bit(swap)
      ensures Value() == LruAdded(old(Value()))
    {
      PutOn(Value(), users, holders, life);
      if !noEvict {
        bug := bug || lru;
        lru, listKref := true, listKref + 1;
        if swappable {
          swap, listKref := true, listKref + 1;
        }
      }
      grip := Loose;
    }

    // kref_put with ttm_bo_ref_bug: never the last reference.
    method PutBug()
      modifies this`listKref, this`bug
      ensures listKref == old(listKref) - 1 && bug == (old(bug) || listKref <= 0)
    {
      listKref := listKref - 1;
      bug := bug || listKref <= 0;
    }

    // ttm_bo_del_from_lru, by a user, a holder or the release: the lists are empty, their
    // references are gone, and the caller's own reference keeps the count above zero.
    method DelFromLru()
      requires Valid() && (holders > 0 || life != Gone) && !Dead(Value(), life)
      modifies this`listKref, this`bug, this`lru, this`swap, this`grip
      ensures Valid() && grip == Off && !lru && !swap
      ensures listKref == old(listKref) - Bit(old(lru)) - Bit(old(swap)) > 0
      ensures Value() == LruDeleted(old(Value()))
    {
      TakenOff(Value(), users, holders, grip, life, Off, life);
      if swap {
        swap := false;
        PutBug();
      }
      if lru {
        lru := false;
        PutBug();
      }
      grip := Off;
    }

    // ttm_bo_move_to_lru_tail, of a live buffer: a listed buffer stays listed.
    method MoveToLruTail()
      requires Valid() && life == Alive
      modifies this`listKref, this`bug, this`lru, this`swap, this`grip
      ensures Valid() && grip == Loose
      ensures lru == !noEvict && swap == (!noEvict && swappable) && (old(lru) ==> lru)
      ensures listKref - Bit(lru) - Bit(swap) == old(listKref) - Bit(old(lru)) - Bit(old(swap))
      ensures Value() == LruAdded(LruDeleted(old(Value())))
    {
      DelFromLru();
      AddToLru();
    }

    // kref_put with ttm_bo_release_list and its checks.
    method PutRelease()
      modifies this`listKref, this`bug, this`freed
      ensures Value() == ListPut(old(Value()))
    {
      bug := bug || listKref <= 0;
      listKref := listKref - 1;
      if listKref == 0 {
        freed := freed + 1;
        bug := bug || kref != 0 || node || lru || ddestroy;
      }
    }

    // The put, by a holder that owns nothing or, with `base`, at the
    // end of the release: the buffer is freed exactly if nothing refers to it any more, and
    // then has no user and no memory.
    method Put(ghost base: bool)
      requires Valid()
      requires if base then life == RelFinal else holders > 0
      requires grip == Moving || grip == Final ==> holders > Bit(!base)
      modifies this`listKref, this`bug, this`freed, this`holders, this`life
      ensures Valid() && life == (if base then Gone else old(life)) && holders == old(holders) - Bit(!base)
      ensures freed == 1 <==> life == Gone && !lru && !swap && !ddestroy && holders == 0
      ensures freed == 1 ==> old(freed) == 0 && kref == 0 && !node
      ensures Value() == ListPut(old(Value()))
    {
      PutAway(Value(), users, holders, grip, life, base);
      PutRelease();
      if base { life := Gone; } else { holders := holders - 1; }
    }
  }
}
