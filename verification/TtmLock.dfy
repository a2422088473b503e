/**
 The TTM reader/writer lock with virtual-terminal and suspend modes.

 Lock attempts run under a spinlock and put the caller to sleep when they fail;
 some of them leave a pending flag behind that holds back others.  Unlocks and
 the clean-up of an interrupted wait wake all sleepers, acquisitions wake nobody.
 */
module TtmLock {
  datatype Flag = WritePending | VtPending | SuspendPending | VtLock | SuspendLock

  datatype Lock = Lock(rw: int, flags: set<Flag>)

  datatype Kind = Read | TryRead | Write | Vt | Suspend

  datatype Verdict = Granted | Refused | Wait

  // One evaluation of the wait condition.
  function Attempt(l: Lock, k: Kind): (Lock, Verdict) {
    match k
    case Read => if l.rw >= 0 && l.flags == {} then (l.(rw := l.rw + 1), Granted) else (l, Wait)
    case TryRead =>
      if l.rw >= 0 && l.flags == {} then (l.(rw := l.rw + 1), Granted)
      else (l, if l.flags == {} then Refused else Wait)
    case Write =>
      if l.rw == 0 && l.flags <= {WritePending} then (Lock(-1, l.flags - {WritePending}), Granted)
      else (l.(flags := l.flags + {WritePending}), Wait)
    case Vt =>
      if l.rw == 0 then (l.(flags := l.flags - {VtPending} + {VtLock}), Granted)
      else (l.(flags := l.flags + {VtPending}), Wait)
    case Suspend =>
      if l.rw == 0 then (l.(flags := l.flags - {SuspendPending} + {SuspendLock}), Granted)
      else (l.(flags := l.flags + {SuspendPending}), Wait)
  }

  // The unlock of a holder, and whether it wakes the queue.
  function Unlocked(l: Lock, k: Kind): (Lock, bool) {
    match k
    case Read => (l.(rw := l.rw - 1), l.rw == 1)
    case TryRead => (l.(rw := l.rw - 1), l.rw == 1)
    case Write => (l.(rw := 0), true)
    case Vt => (l.(flags := l.flags - {VtLock}), true)
    case Suspend => (l.(flags := l.flags - {SuspendLock}), true)
  }

  function PendingFlag(k: Kind): set<Flag> {
    match k
    case Read => {}
    case TryRead => {}
    case Write => {WritePending}
    case Vt => {VtPending}
    case Suspend => {SuspendPending}
  }

  // The flag by which an exclusive mode shuts out readers and writers.
  function ModeFlag(k: Kind): set<Flag> {
    match k
    case Vt => {VtLock}
    case Suspend => {SuspendLock}
    case _ => {}
  }

  // The flags a caller of the kind may change.
  function OwnFlags(k: Kind): set<Flag> { PendingFlag(k) + ModeFlag(k) }

  // ------------------------------------------------------- threads and runs

  type Tid = nat

  datatype Thread = Waiting(kind: Kind, awake: bool) | Holding(kind: Kind) | CleaningUp(kind: Kind)

  datatype State = State(lock: Lock, threads: map<Tid, Thread>)

  datatype Event =
    | Call(t: Tid, k: Kind)
    | Try(t: Tid)
    | TryInterrupted(t: Tid)
    | Signal(t: Tid)
    | CleanUp(t: Tid)
    | Unlock(t: Tid)

  predicate Initial(s: State) { s == State(Lock(0, {}), map[]) }

  predicate IsWaiting(s: State, t: Tid) { t in s.threads && s.threads[t].Waiting? }

  predicate Asleep(s: State, t: Tid) { IsWaiting(s, t) && !s.threads[t].awake }

  predicate Enabled(s: State, e: Event) {
    match e
    case Call(t, k) => t !in s.threads
    case Try(t) => IsWaiting(s, t) && s.threads[t].awake
    case TryInterrupted(t) =>
      IsWaiting(s, t) && s.threads[t].awake && !s.threads[t].kind.Suspend? && Attempt(s.lock, s.threads[t].kind).1 == Wait
    case Signal(t) => Asleep(s, t)
    case CleanUp(t) => t in s.threads && s.threads[t].CleaningUp?
    case Unlock(t) => t in s.threads && s.threads[t].Holding?
  }

  function Woken(x: Thread): Thread { if x.Waiting? then x.(awake := true) else x }

  function WakeAll(threads: map<Tid, Thread>): map<Tid, Thread> {
    map t | t in threads :: Woken(threads[t])
  }

  function Apply(s: State, e: Event): State
    requires Enabled(s, e)
  {
    match e
    case Call(t, k) => s.(threads := s.threads[t := Waiting(k, true)])
    case Try(t) =>
      var k := s.threads[t].kind;
      var (lock, verdict) := Attempt(s.lock, k);
      match verdict {
        case Granted => State(lock, s.threads[t := Holding(k)])
        case Refused => State(lock, s.threads - {t})
        case Wait => State(lock, s.threads[t := Waiting(k, false)])
      }
    case TryInterrupted(t) =>
      var k := s.threads[t].kind;
      State(Attempt(s.lock, k).0, if PendingFlag(k) == {} then s.threads - {t} else s.threads[t := CleaningUp(k)])
    case Signal(t) => s.(threads := s.threads[t := Woken(s.threads[t])])
    case CleanUp(t) =>
      State(s.lock.(flags := s.lock.flags - PendingFlag(s.threads[t].kind)), WakeAll(s.threads - {t}))
    case Unlock(t) =>
      var (lock, wake) := Unlocked(s.lock, s.threads[t].kind);
      State(lock, if wake then WakeAll(s.threads - {t}) else s.threads - {t})
  }

  predicate Runs(s: State, es: seq<Event>, t: State)
    decreases es
  {
    if es == [] then s == t else Enabled(s, es[0]) && Runs(Apply(s, es[0]), es[1..], t)
  }

  // ---------------------------------------------------------------- invariant

  function Readers(threads: map<Tid, Thread>): set<Tid> {
    set t | t in threads && threads[t].Holding? && (threads[t].kind.Read? || threads[t].kind.TryRead?)
  }

  function Writers(threads: map<Tid, Thread>): set<Tid> {
    set t | t in threads && threads[t].Holding? && threads[t].kind.Write?
  }

  // rw counts the readers, or is -1 for the only writer.
  predicate Tallies(rw: int, readers: set<Tid>, writers: set<Tid>) {
    if rw < 0 then rw == -1 && readers == {} && |writers| == 1 else rw == |readers| && writers == {}
  }

  predicate Counted(s: State) { Tallies(s.lock.rw, Readers(s.threads), Writers(s.threads)) }

  // The exclusive modes are only entered, and stay, without readers and writers.
  predicate ModesExclude(l: Lock) { VtLock in l.flags || SuspendLock in l.flags ==> l.rw == 0 }

  ghost predicate SleepersBlocked(s: State) {
    forall t :: t in s.threads && s.threads[t].Waiting? && !s.threads[t].awake ==>
      Attempt(s.lock, s.threads[t].kind).1 != Granted
  }

  // Somebody of the kind is waiting, or will clear its flag after an interrupt.
  ghost predicate Candidate(threads: map<Tid, Thread>, k: Kind) {
    exists t :: t in threads && !threads[t].Holding? && threads[t].kind == k
  }

  ghost predicate PendingBacked(s: State) {
    && (WritePending in s.lock.flags ==> Candidate(s.threads, Write))
    && (VtPending in s.lock.flags ==> Candidate(s.threads, Vt))
    && (SuspendPending in s.lock.flags ==> Candidate(s.threads, Suspend))
    && (forall t :: t in s.threads && s.threads[t].CleaningUp? ==> PendingFlag(s.threads[t].kind) != {} && !s.threads[t].kind.Suspend?)
  }

  ghost predicate Held(threads: map<Tid, Thread>, k: Kind) {
    exists t :: t in threads && threads[t] == Holding(k)
  }

  // A mode is in force only while somebody holds it.
  ghost predicate ModesBacked(s: State) {
    && (VtLock in s.lock.flags ==> Held(s.threads, Vt))
    && (SuspendLock in s.lock.flags ==> Held(s.threads, Suspend))
  }

  ghost predicate Inv(s: State) {
    Counted(s) && ModesExclude(s.lock) && ModesBacked(s) && SleepersBlocked(s) && PendingBacked(s)
  }

  lemma CountedKept(s: State, e: Event)
    requires Counted(s) && ModesExclude(s.lock) && Enabled(s, e)
    ensures Counted(Apply(s, e)) && ModesExclude(Apply(s, e).lock)
  {
    match e {
      case Try(_) => TryCounted(s, e);
      case Unlock(_) => UnlockCounted(s, e);
      case _ => OtherCounted(s, e);
    }
    ModesKept(s, e);
  }

  function Readers1(k: Kind, t: Tid): set<Tid> { if k.Read? || k.TryRead? then {t} else {} }

  function Writers1(k: Kind, t: Tid): set<Tid> { if k.Write? then {t} else {} }

  lemma GrantTallies(l: Lock, k: Kind, readers: set<Tid>, writers: set<Tid>, t: Tid)
    requires Tallies(l.rw, readers, writers) && t !in readers && t !in writers && Attempt(l, k).1 == Granted
    ensures Tallies(Attempt(l, k).0.rw, readers + Readers1(k, t), writers + Writers1(k, t))
  {
    assert writers == {};
    assert |readers + {t}| == |readers| + 1;
    assert {} + {t} == {t};
    assert readers + {} == readers;
  }

  lemma ReleaseTallies(l: Lock, k: Kind, readers: set<Tid>, writers: set<Tid>, t: Tid)
    requires Tallies(l.rw, readers, writers) && Readers1(k, t) <= readers && Writers1(k, t) <= writers
    ensures Tallies(Unlocked(l, k).0.rw, readers - Readers1(k, t), writers - Writers1(k, t))
  {
    if t in readers { assert |readers - {t}| == |readers| - 1; }
    if t in writers { assert |writers - {t}| == |writers| - 1; }
    assert readers - {} == readers && writers - {} == writers;
  }

  // The holders after a waiting thread got the lock, or anything but a holder changed.
  lemma GrantHolders(threads: map<Tid, Thread>, t: Tid, k: Kind)
    requires t in threads && threads[t].Waiting?
    ensures Readers(threads[t := Holding(k)]) == Readers(threads) + Readers1(k, t) && t !in Readers(threads)
    ensures Writers(threads[t := Holding(k)]) == Writers(threads) + Writers1(k, t) && t !in Writers(threads)
  {
  }

  lemma TryCounted(s: State, e: Event)
    requires Counted(s) && Enabled(s, e) && e.Try?
    ensures Counted(Apply(s, e))
  {
    var k := s.threads[e.t].kind;
    if Attempt(s.lock, k).1 == Granted {
      GrantHolders(s.threads, e.t, k);
      GrantTallies(s.lock, k, Readers(s.threads), Writers(s.threads), e.t);
    } else {
      OtherCounted(s, e);
    }
  }

  lemma UnlockHolders(s: State, e: Event)
    requires Enabled(s, e) && e.Unlock?
    ensures var t, k := Apply(s, e), s.threads[e.t].kind;
            && Readers(t.threads) == Readers(s.threads) - Readers1(k, e.t) && Readers1(k, e.t) <= Readers(s.threads)
            && Writers(t.threads) == Writers(s.threads) - Writers1(k, e.t) && Writers1(k, e.t) <= Writers(s.threads)
  {
  }

  lemma UnlockCounted(s: State, e: Event)
    requires Counted(s) && Enabled(s, e) && e.Unlock?
    ensures Counted(Apply(s, e))
  {
    UnlockHolders(s, e);
    ReleaseTallies(s.lock, s.threads[e.t].kind, Readers(s.threads), Writers(s.threads), e.t);
  }

  lemma OtherHolders(s: State, e: Event)
    requires Enabled(s, e) && !e.Unlock? && (e.Try? ==> Attempt(s.lock, s.threads[e.t].kind).1 != Granted)
    ensures Readers(Apply(s, e).threads) == Readers(s.threads) && Writers(Apply(s, e).threads) == Writers(s.threads)
  {
  }

  lemma OtherCounted(s: State, e: Event)
    requires Counted(s) && Enabled(s, e) && !e.Unlock? && (e.Try? ==> Attempt(s.lock, s.threads[e.t].kind).1 != Granted)
    ensures Counted(Apply(s, e))
  {
    OtherHolders(s, e);
    assert Apply(s, e).lock.rw == s.lock.rw;
  }

  lemma ModesKept(s: State, e: Event)
    requires Counted(s) && ModesExclude(s.lock) && Enabled(s, e)
    ensures ModesExclude(Apply(s, e).lock)
  {
    if e.Unlock? {
      var k := s.threads[e.t].kind;
      if k.Read? || k.TryRead? { assert e.t in Readers(s.threads); }
      if k.Write? { assert e.t in Writers(s.threads); }
    }
  }

  // No attempt, successful or not, makes an attempt of another thread succeed.
  lemma AttemptsHelpNobody(l: Lock, k: Kind, k': Kind)
    requires Attempt(l, k').1 != Granted
    ensures Attempt(Attempt(l, k).0, k').1 != Granted
  {
  }

  lemma SleepersKept(s: State, e: Event)
    requires Counted(s) && SleepersBlocked(s) && Enabled(s, e)
    ensures SleepersBlocked(Apply(s, e))
  {
    var t := Apply(s, e);
    forall u | u in t.threads && t.threads[u].Waiting? && !t.threads[u].awake
      ensures Attempt(t.lock, t.threads[u].kind).1 != Granted
    {
      if e.Try? || e.TryInterrupted? {
        AttemptsHelpNobody(s.lock, s.threads[e.t].kind, t.threads[u].kind);
      }
    }
  }

  lemma CandidateKept(s: State, e: Event, u: Tid)
    requires Enabled(s, e) && u in s.threads && !s.threads[u].Holding? && u != e.t
    ensures var t := Apply(s, e); u in t.threads && !t.threads[u].Holding? && t.threads[u].kind == s.threads[u].kind
  {
  }

  lemma PendingKept(s: State, e: Event)
    requires PendingBacked(s) && Enabled(s, e)
    ensures PendingBacked(Apply(s, e))
  {
    var t := Apply(s, e);
    forall k | PendingFlag(k) != {} && PendingFlag(k) <= t.lock.flags ensures Candidate(t.threads, k) {
      if e.t in t.threads && !t.threads[e.t].Holding? && t.threads[e.t].kind == k {
      } else {
        var u :| u in s.threads && !s.threads[u].Holding? && s.threads[u].kind == k;
        CandidateKept(s, e, u);
      }
    }
    assert PendingFlag(Write) <= t.lock.flags <==> WritePending in t.lock.flags;
    assert PendingFlag(Vt) <= t.lock.flags <==> VtPending in t.lock.flags;
    assert PendingFlag(Suspend) <= t.lock.flags <==> SuspendPending in t.lock.flags;
  }

  // A call leaves the flags of the other kinds alone.
  lemma OnlyOwnFlags(s: State, e: Event, f: Flag)
    requires Enabled(s, e)
    requires e.t in s.threads ==> f !in OwnFlags(s.threads[e.t].kind)
    ensures f in Apply(s, e).lock.flags <==> f in s.lock.flags
  {
  }

  predicate UnlocksMode(s: State, e: Event, k: Kind) {
    e.Unlock? && e.t in s.threads && s.threads[e.t] == Holding(k)
  }

  // A mode ends with an unlock of one of its holders and in no other way.
  lemma ModeFlagKept(s: State, e: Event, k: Kind)
    requires Enabled(s, e) && !UnlocksMode(s, e, k) && ModeFlag(k) <= s.lock.flags
    ensures ModeFlag(k) <= Apply(s, e).lock.flags
  {
  }

  // A mode begins with a grant.
  lemma ModeFlagNew(s: State, e: Event, k: Kind)
    requires Enabled(s, e) && ModeFlag(k) != {} && !(ModeFlag(k) <= s.lock.flags) && ModeFlag(k) <= Apply(s, e).lock.flags
    ensures e.t in Apply(s, e).threads && Apply(s, e).threads[e.t] == Holding(k)
  {
  }

  lemma HolderKept(s: State, e: Event, u: Tid)
    requires Enabled(s, e) && u in s.threads && s.threads[u].Holding? && !(e.Unlock? && e.t == u)
    ensures u in Apply(s, e).threads && Apply(s, e).threads[u] == s.threads[u]
  {
  }

  lemma ModeBacked(s: State, e: Event, k: Kind)
    requires Enabled(s, e) && ModeFlag(k) != {} && ModeFlag(k) <= Apply(s, e).lock.flags
    requires ModeFlag(k) <= s.lock.flags ==> Held(s.threads, k)
    ensures Held(Apply(s, e).threads, k)
  {
    if ModeFlag(k) <= s.lock.flags {
      var u :| u in s.threads && s.threads[u] == Holding(k);
      HolderKept(s, e, u);
    } else {
      ModeFlagNew(s, e, k);
    }
  }

  lemma ModesBackedKept(s: State, e: Event)
    requires ModesBacked(s) && Enabled(s, e)
    ensures ModesBacked(Apply(s, e))
  {
    assert ModeFlag(Vt) == {VtLock} && ModeFlag(Suspend) == {SuspendLock};
    if VtLock in Apply(s, e).lock.flags { ModeBacked(s, e, Vt); }
    if SuspendLock in Apply(s, e).lock.flags { ModeBacked(s, e, Suspend); }
  }

  lemma InvKept(s: State, e: Event)
    requires Inv(s) && Enabled(s, e)
    ensures Inv(Apply(s, e))
  {
    CountedKept(s, e);
    ModesBackedKept(s, e);
    SleepersKept(s, e);
    PendingKept(s, e);
  }

  lemma {:induction false} RunKeepsInv(s: State, es: seq<Event>, t: State)
    requires Inv(s) && Runs(s, es, t)
    ensures Inv(t)
    decreases es
  {
    if es != [] {
      InvKept(s, es[0]);
      RunKeepsInv(Apply(s, es[0]), es[1..], t);
    }
  }

  // ---------------------------------------------------------------- theorems

  // rw counts the readers or marks the one writer, and the exclusive modes shut
  // out readers and writers, present and future.
  lemma Exclusion(s0: State, es: seq<Event>, s: State)
    requires Initial(s0) && Runs(s0, es, s)
    ensures s.lock.rw >= 0 ==> |Readers(s.threads)| == s.lock.rw && Writers(s.threads) == {}
    ensures s.lock.rw < 0 ==> s.lock.rw == -1 && Readers(s.threads) == {} && |Writers(s.threads)| == 1
    ensures VtLock in s.lock.flags || SuspendLock in s.lock.flags ==>
              ShutOut(s)
  {
    RunKeepsInv(s0, es, s);
  }

  // No holder of the mode unlocks in the run.
  predicate NoUnlock(s: State, es: seq<Event>, k: Kind)
    decreases es
  {
    es != [] ==> Enabled(s, es[0]) && !UnlocksMode(s, es[0], k) && NoUnlock(Apply(s, es[0]), es[1..], k)
  }

  lemma {:induction false} ModeLasts(s: State, es: seq<Event>, t: State, k: Kind)
    requires Runs(s, es, t) && NoUnlock(s, es, k) && ModeFlag(k) <= s.lock.flags
    ensures ModeFlag(k) <= t.lock.flags
    decreases es
  {
    if es != [] {
      ModeFlagKept(s, es[0], k);
      ModeLasts(Apply(s, es[0]), es[1..], t, k);
    }
  }

  // Nobody reads or writes, or could begin to.
  ghost predicate ShutOut(s: State) {
    && Readers(s.threads) == {} && Writers(s.threads) == {}
    && forall k :: k == Read || k == TryRead || k == Write ==> Attempt(s.lock, k).1 != Granted
  }

  // From the grant of a mode to the first unlock by a holder of it, whatever others do in
  // between, nobody reads or writes.
  lemma ModeHoldersExclude(s0: State, es0: seq<Event>, s: State, t: Tid, es: seq<Event>, s': State)
    requires Initial(s0) && Runs(s0, es0, s) && Enabled(s, Try(t))
    requires s.threads[t].kind == Vt || s.threads[t].kind == Suspend
    requires Attempt(s.lock, s.threads[t].kind).1 == Granted
    requires Runs(Apply(s, Try(t)), es, s') && NoUnlock(Apply(s, Try(t)), es, s.threads[t].kind)
    ensures ModeFlag(s.threads[t].kind) <= s'.lock.flags && ShutOut(s')
  {
    RunKeepsInv(s0, es0, s);
    InvKept(s, Try(t));
    ModeLasts(Apply(s, Try(t)), es, s', s.threads[t].kind);
    RunKeepsInv(Apply(s, Try(t)), es, s');
  }

  // While the flag of a mode is set, somebody holds it.
  lemma ModeFlagsBacked(s0: State, es: seq<Event>, s: State, k: Kind)
    requires Initial(s0) && Runs(s0, es, s) && ModeFlag(k) != {} && ModeFlag(k) <= s.lock.flags
    ensures exists t :: t in s.threads && s.threads[t] == Holding(k)
  {
    RunKeepsInv(s0, es, s);
    assert ModeFlag(Vt) == {VtLock} && ModeFlag(Suspend) == {SuspendLock};
  }

  // No wake-up is lost: nobody sleeps who could get the lock.  A sleeper whose
  // wait is nevertheless over is a trylock that would be refused, and this
  // happens exactly when a writer holds the lock and no flag is set.
  lemma NoLostWakeUp(s0: State, es: seq<Event>, s: State, t: Tid)
    requires Initial(s0) && Runs(s0, es, s) && Asleep(s, t)
    ensures Attempt(s.lock, s.threads[t].kind).1 != Granted
    ensures Attempt(s.lock, s.threads[t].kind).1 == Wait
       <==> !(s.threads[t].kind == TryRead && s.lock.rw < 0 && s.lock.flags == {})
  {
    RunKeepsInv(s0, es, s);
  }

  // A pending flag never outlives the threads that set it.
  lemma PendingFlagsBacked(s0: State, es: seq<Event>, s: State, k: Kind)
    requires Initial(s0) && Runs(s0, es, s) && PendingFlag(k) != {} && PendingFlag(k) <= s.lock.flags
    ensures exists t :: t in s.threads && s.threads[t].kind == k && (s.threads[t].Waiting? || s.threads[t].CleaningUp?)
  {
    RunKeepsInv(s0, es, s);
    assert Candidate(s.threads, k) by {
      assert PendingFlag(Write) == {WritePending} && PendingFlag(Vt) == {VtPending} && PendingFlag(Suspend) == {SuspendPending};
    }
    var t :| t in s.threads && !s.threads[t].Holding? && s.threads[t].kind == k;
  }

  lemma NoFlags(flags: set<Flag>)
    requires WritePending !in flags && VtPending !in flags && SuspendPending !in flags
    requires VtLock !in flags && SuspendLock !in flags
    ensures flags == {}
  {
    if f :| f in flags {
      match f case WritePending => case VtPending => case SuspendPending => case VtLock => case SuspendLock =>
    }
  }

  // A free lock with waiters makes progress.
  lemma FreeLockIsTaken(s0: State, es: seq<Event>, s: State, w: Tid)
    requires Initial(s0) && Runs(s0, es, s) && IsWaiting(s, w)
    requires s.lock.rw == 0 && VtLock !in s.lock.flags && SuspendLock !in s.lock.flags
    ensures exists t :: t in s.threads &&
              (s.threads[t].CleaningUp? ||
               (s.threads[t].Waiting? && s.threads[t].awake && Attempt(s.lock, s.threads[t].kind).1 == Granted))
  {
    RunKeepsInv(s0, es, s);
    assert forall t :: t in s.threads && s.threads[t].Waiting? && Attempt(s.lock, s.threads[t].kind).1 == Granted ==> s.threads[t].awake;
    if VtPending in s.lock.flags {
      PendingFlagsBacked(s0, es, s, Vt);
    } else if SuspendPending in s.lock.flags {
      PendingFlagsBacked(s0, es, s, Suspend);
    } else if WritePending in s.lock.flags {
      NoFlags(s.lock.flags - {WritePending});
      PendingFlagsBacked(s0, es, s, Write);
    } else {
      NoFlags(s.lock.flags);
      assert Attempt(s.lock, s.threads[w].kind).1 == Granted;
    }
  }

  // A trylock can sleep through the acquisition that would have refused it:
  // the writer clears its pending flag without waking the queue.
  lemma TryLockOversleeps() returns (s: State, es: seq<Event>)
    ensures Runs(State(Lock(0, {}), map[]), es, s)
    ensures Asleep(s, 2) && s.threads[2].kind == TryRead && Attempt(s.lock, TryRead).1 == Refused
  {
    s := Overslept();
    es := [Call(0, Read), Try(0), Call(1, Write), Try(1), Call(2, TryRead), Unlock(0), Try(2), Try(1)];
    var s0 := State(Lock(0, {}), map[]);
    var s1 := Apply(s0, es[0]);
    var s2 := Apply(s1, es[1]);
    var s3 := Apply(s2, es[2]);
    var s4 := Apply(s3, es[3]);
    var s5 := Apply(s4, es[4]);
    assert s5 == BeforeUnlock();
    assert es[5..] == [Unlock(0), Try(2), Try(1)];
    Chain(s4, es[4..], s);
    Chain(s3, es[3..], s);
    Chain(s2, es[2..], s);
    Chain(s1, es[1..], s);
  }

  // A reader holds the lock, a writer sleeps, a trylock reader is about to try.
  function BeforeUnlock(): State {
    State(Lock(1, {WritePending}), map[0 := Holding(Read), 1 := Waiting(Write, false), 2 := Waiting(TryRead, true)])
  }

  lemma Overslept() returns (s: State)
    ensures Runs(BeforeUnlock(), [Unlock(0), Try(2), Try(1)], s)
    ensures Asleep(s, 2) && s.threads[2].kind == TryRead && Attempt(s.lock, TryRead).1 == Refused
  {
    var es := [Unlock(0), Try(2), Try(1)];
    var s1 := Apply(BeforeUnlock(), es[0]);
    assert s1.threads == map[1 := Waiting(Write, true), 2 := Waiting(TryRead, true)];
    var s2 := Apply(s1, es[1]);
    s := Apply(s2, es[2]);
    assert s.threads == map[1 := Holding(Write), 2 := Waiting(TryRead, false)];
    Chain(s2, es[2..], s);
    Chain(s1, es[1..], s);
  }

  lemma Chain(s: State, es: seq<Event>, t: State)
    requires es != [] && Enabled(s, es[0]) && Runs(Apply(s, es[0]), es[1..], t)
    ensures Runs(s, es, t)
  {
  }

  // ------------------------------------------------- the lock as the driver keeps it

  // What an attempt to write comes to, in terms of who holds the lock.
  lemma WriteOutcome(s: State, t: Tid)
    requires Inv(s) && Enabled(s, Try(t)) && s.threads[t].kind.Write?
    ensures var s' := Apply(s, Try(t));
            && Inv(s')
            && (Attempt(s.lock, Write).1 == Granted <==> Idle(s.threads) && s.lock.flags <= {WritePending})
            && (Attempt(s.lock, Write).1 == Granted ==>
                  Readers(s'.threads) == {} && Writers(s'.threads) == {t} && s'.lock.flags == {})
  {
    InvKept(s, Try(t));
    GrantHolders(s.threads, t, Write);
  }

  // Nobody reads or writes.
  predicate Idle(threads: map<Tid, Thread>) { Readers(threads) == {} && Writers(threads) == {} }

  // The two fields of the lock, and the threads that wait for it, hold it or clean up.
  class LockObject {
    var rw: int
    var flags: set<Flag>
    ghost var threads: map<Tid, Thread>

    ghost function Abs(): State
      reads this
    {
      State(Lock(rw, flags), threads)
    }

    ghost predicate Valid()
      reads this
    {
      Inv(Abs())
    }

    constructor ()
      ensures Valid() && threads == map[] && rw == 0 && flags == {}
    {
      rw, flags, threads := 0, {}, map[];
    }

    // A reader gets the lock exactly if nobody writes and no flag is set.
    method ReadLock(ghost t: Tid) returns (locked: bool)
      requires Valid() && t in threads && threads[t] == Waiting(Read, true)
      modifies this
      ensures Valid()
      ensures locked <==> old(Writers(threads)) == {} && old(flags) == {}
      ensures threads == old(threads)[t := if locked then Holding(Read) else Waiting(Read, false)]
      ensures locked ==> Readers(threads) == old(Readers(threads)) + {t} && Writers(threads) == {}
      ensures flags == old(flags)
    {
      InvKept(Abs(), Try(t));
      locked := false;
      if rw >= 0 && flags == {} {
        rw := rw + 1;
        locked := true;
      }
      threads := threads[t := if locked then Holding(Read) else Waiting(Read, false)];
    }

    // A trylock is refused exactly if somebody writes and no flag is set; with a flag it waits.
    method ReadTryLock(ghost t: Tid) returns (locked: bool, done: bool)
      requires Valid() && t in threads && threads[t] == Waiting(TryRead, true)
      modifies this
      ensures Valid()
      ensures locked <==> old(Writers(threads)) == {} && old(flags) == {}
      ensures done <==> old(flags) == {}
      ensures threads == if locked then old(threads)[t := Holding(TryRead)]
                         else if done then old(threads) - {t} else old(threads)[t := Waiting(TryRead, false)]
      ensures locked ==> Readers(threads) == old(Readers(threads)) + {t} && Writers(threads) == {}
      ensures flags == old(flags)
    {
      InvKept(Abs(), Try(t));
      var block := true;
      locked := false;
      if rw >= 0 && flags == {} {
        rw := rw + 1;
        block := false;
        locked := true;
      } else if flags == {} {
        block := false;
      }
      done := !block;
      threads := if locked then threads[t := Holding(TryRead)]
                 else if done then threads - {t} else threads[t := Waiting(TryRead, false)];
    }

    // A writer gets the lock exactly if it is idle and nothing but writers is pending, and
    // is then alone; otherwise it holds back new readers.
    method WriteLock(ghost t: Tid) returns (locked: bool)
      requires Valid() && t in threads && threads[t] == Waiting(Write, true)
      modifies this
      ensures Valid()
      ensures locked <==> old(Idle(threads)) && old(flags) <= {WritePending}
      ensures threads == old(threads)[t := if locked then Holding(Write) else Waiting(Write, false)]
      ensures locked ==> Readers(threads) == {} && Writers(threads) == {t} && flags == {}
      ensures !locked ==> WritePending in flags
      ensures forall f :: f !in OwnFlags(Write) ==> (f in flags <==> f in old(flags))
    {
      WriteOutcome(Abs(), t);
      locked := false;
      if rw == 0 && flags - {WritePending} == {} {
        rw := -1;
        flags := flags - {WritePending};
        locked := true;
      } else {
        flags := flags + {WritePending};
      }
      threads := threads[t := if locked then Holding(Write) else Waiting(Write, false)];
      assert Abs() == Apply(old(Abs()), Try(t));
    }

    // The virtual terminal is locked exactly if the lock is idle, and keeps it idle.
    method VtLock(ghost t: Tid) returns (locked: bool)
      requires Valid() && t in threads && threads[t] == Waiting(Vt, true)
      modifies this
      ensures Valid()
      ensures locked <==> old(Idle(threads))
      ensures threads == old(threads)[t := if locked then Holding(Vt) else Waiting(Vt, false)]
      ensures locked ==> Idle(threads) && Flag.VtLock in flags && VtPending !in flags
      ensures !locked ==> VtPending in flags
      ensures forall f :: f !in OwnFlags(Vt) ==> (f in flags <==> f in old(flags))
      ensures !locked ==> forall f :: f !in PendingFlag(Vt) ==> (f in flags <==> f in old(flags))
    {
      InvKept(Abs(), Try(t));
      locked := false;
      if rw == 0 {
        flags := flags - {VtPending};
        flags := flags + {Flag.VtLock};
        locked := true;
      } else {
        flags := flags + {VtPending};
      }
      threads := threads[t := if locked then Holding(Vt) else Waiting(Vt, false)];
    }

    method SuspendLock(ghost t: Tid) returns (locked: bool)
      requires Valid() && t in threads && threads[t] == Waiting(Suspend, true)
      modifies this
      ensures Valid()
      ensures locked <==> old(Idle(threads))
      ensures threads == old(threads)[t := if locked then Holding(Suspend) else Waiting(Suspend, false)]
      ensures locked ==> Idle(threads) && Flag.SuspendLock in flags && SuspendPending !in flags
      ensures !locked ==> SuspendPending in flags
      ensures forall f :: f !in OwnFlags(Suspend) ==> (f in flags <==> f in old(flags))
      ensures !locked ==> forall f :: f !in PendingFlag(Suspend) ==> (f in flags <==> f in old(flags))
    {
      InvKept(Abs(), Try(t));
      locked := false;
      if rw == 0 {
        flags := flags - {SuspendPending};
        flags := flags + {Flag.SuspendLock};
        locked := true;
      } else {
        flags := flags + {SuspendPending};
      }
      threads := threads[t := if locked then Holding(Suspend) else Waiting(Suspend, false)];
    }

    // The last reader wakes the queue.
    method ReadUnlock(ghost t: Tid) returns (wake: bool)
      requires Valid() && t in Readers(threads)
      modifies this
      ensures Valid() && wake == (old(Readers(threads)) == {t})
      ensures threads == if wake then WakeAll(old(threads) - {t}) else old(threads) - {t}
      ensures Readers(threads) == old(Readers(threads)) - {t} && Writers(threads) == {}
      ensures flags == old(flags)
    {
      InvKept(Abs(), Unlock(t));
      ghost var readers := Readers(threads);
      if readers != {t} { assert |readers - {t}| == |readers| - 1 && readers - {t} != {}; }
      rw := rw - 1;
      wake := rw == 0;
      threads := if wake then WakeAll(threads - {t}) else threads - {t};
    }

    method WriteUnlock(ghost t: Tid) returns (wake: bool)
      requires Valid() && t in Writers(threads)
      modifies this
      ensures Valid() && wake && Idle(threads) && threads == WakeAll(old(threads) - {t})
      ensures flags == old(flags)
    {
      InvKept(Abs(), Unlock(t));
      rw, wake := 0, true;
      threads := WakeAll(threads - {t});
    }

    // `held` is false if another virtual-terminal holder unlocked before.
    method VtUnlock(ghost t: Tid) returns (wake: bool, held: bool)
      requires Valid() && t in threads && threads[t] == Holding(Vt)
      modifies this
      ensures Valid() && wake && threads == WakeAll(old(threads) - {t})
      ensures held == (Flag.VtLock in old(flags)) && Flag.VtLock !in flags
      ensures Readers(threads) == old(Readers(threads)) && Writers(threads) == old(Writers(threads))
      ensures forall f :: f !in ModeFlag(Vt) ==> (f in flags <==> f in old(flags))
    {
      InvKept(Abs(), Unlock(t));
      held := Flag.VtLock in flags;
      flags, wake := flags - {Flag.VtLock}, true;
      threads := WakeAll(threads - {t});
    }

    method SuspendUnlock(ghost t: Tid) returns (wake: bool)
      requires Valid() && t in threads && threads[t] == Holding(Suspend)
      modifies this
      ensures Valid() && wake && threads == WakeAll(old(threads) - {t}) && Flag.SuspendLock !in flags
      ensures Readers(threads) == old(Readers(threads)) && Writers(threads) == old(Writers(threads))
      ensures forall f :: f !in ModeFlag(Suspend) ==> (f in flags <==> f in old(flags))
    {
      InvKept(Abs(), Unlock(t));
      flags, wake := flags - {Flag.SuspendLock}, true;
      threads := WakeAll(threads - {t});
    }

    // The clean-up of an interrupted write or virtual-terminal wait: its flag is gone, other
    // waiters of the kind are awake and will set it again.
    method ClearPending(ghost t: Tid, k: Kind)
      requires Valid() && t in threads && threads[t] == CleaningUp(k)
      modifies this
      ensures Valid() && PendingFlag(k) !! flags && threads == WakeAll(old(threads) - {t})
      ensures forall u :: u in threads && threads[u].Waiting? ==> threads[u].awake
      ensures forall f :: f !in PendingFlag(k) ==> (f in flags <==> f in old(flags))
    {
      InvKept(Abs(), CleanUp(t));
      flags := flags - (if k == Write then {WritePending} else {VtPending});
      threads := WakeAll(threads - {t});
    }
  }
}
