/** The shutdown protocol (session/close.go:28-66): Close, goWatchdog and the watchdog
    goroutines, at the granularity of single lock, check and WaitGroup operations.

    Any number of threads may be arming watchdogs, including watchdogs arming their
    successors, while any thread calls Close. */
module Shutdown {

  /** A gateway handler's goroutine, or a watchdog's own. */
  datatype Thread = Handler(id: nat) | Dog(id: nat)

  /** Where a thread is inside goWatchdog. */
  datatype Pc = Outside | Locking | Holding | Passed | Added

  /** Where the one effective Close call is. */
  datatype Closing = NotCalled | ClosingLock | ClosingHolds | Cancelled | Unlocked | Returned

  datatype Mutex = Free | HeldBy(thread: Thread) | HeldByClose

  datatype Protocol = Protocol(
    mutex: Mutex, cancelled: bool, waitGroup: nat, running: set<nat>, started: set<nat>,
    pcs: map<Thread, Pc>, closing: Closing, waiting: bool, done: bool)

  const START := Protocol(Free, false, 0, {}, {}, map[], NotCalled, false, false)

  datatype Step =
    | Enter(t: Thread) | Lock(t: Thread) | Check(t: Thread) | Go(t: Thread, dog: nat) | Unlock(t: Thread)
    | Exit(dog: nat)
    | CallClose | CloseLock | CloseCancel | CloseUnlock | CloseSpawn
    | WaitReturns

  function PcOf(p: Protocol, t: Thread): Pc { if t in p.pcs then p.pcs[t] else Outside }

  predicate Alive(p: Protocol, t: Thread) { t.Handler? || t.id in p.running }

  predicate Enabled(p: Protocol, s: Step) {
    match s
    case Enter(t) => PcOf(p, t) == Outside && Alive(p, t)
    case Lock(t) => PcOf(p, t) == Locking && p.mutex == Free
    case Check(t) => PcOf(p, t) == Holding
    case Go(t, dog) => PcOf(p, t) == Passed && dog !in p.started
    case Unlock(t) => PcOf(p, t) == Added
    case Exit(dog) => dog in p.running && PcOf(p, Dog(dog)) == Outside
    case CallClose => true
    case CloseLock => p.closing == ClosingLock && p.mutex == Free
    case CloseCancel => p.closing == ClosingHolds
    case CloseUnlock => p.closing == Cancelled
    case CloseSpawn => p.closing == Unlocked
    case WaitReturns => p.waiting && p.waitGroup == 0
  }

  function Do(p: Protocol, s: Step): Protocol
    requires Enabled(p, s)
  {
    match s
    case Enter(t) => p.(pcs := p.pcs[t := Locking])
    case Lock(t) => p.(pcs := p.pcs[t := Holding], mutex := HeldBy(t))
    case Check(t) =>
      if p.cancelled then p.(pcs := p.pcs[t := Outside], mutex := Free) else p.(pcs := p.pcs[t := Passed])
    case Go(t, dog) =>
      p.(pcs := p.pcs[t := Added], waitGroup := p.waitGroup + 1, running := p.running + {dog},
        started := p.started + {dog})
    case Unlock(t) => p.(pcs := p.pcs[t := Outside], mutex := Free)
    case Exit(dog) => p.(running := p.running - {dog}, waitGroup := if p.waitGroup > 0 then p.waitGroup - 1 else 0)
    // sync.Once: only the first call does anything.
    case CallClose => if p.closing == NotCalled then p.(closing := ClosingLock) else p
    case CloseLock => p.(closing := ClosingHolds, mutex := HeldByClose)
    case CloseCancel => p.(closing := Cancelled, cancelled := true)
    case CloseUnlock => p.(closing := Unlocked, mutex := Free)
    case CloseSpawn => p.(closing := Returned, waiting := true)
    case WaitReturns => p.(waiting := false, done := true)
  }

  /** The mutex is where the program counters say; a thread that passed the check still
      holds it, so none has passed once the context is cancelled. */
  ghost predicate Inv(p: Protocol) {
    && p.waitGroup == |p.running| && p.running <= p.started
    && (forall t :: PcOf(p, t) in {Holding, Passed, Added} ==> p.mutex == HeldBy(t))
    && (p.mutex.HeldBy? ==> PcOf(p, p.mutex.thread) in {Holding, Passed, Added})
    && (p.mutex == HeldByClose <==> p.closing in {ClosingHolds, Cancelled})
    && (p.cancelled <==> p.closing in {Cancelled, Unlocked, Returned})
    && (p.cancelled ==> forall t :: PcOf(p, t) != Passed)
    && (forall n :: PcOf(p, Dog(n)) != Outside ==> n in p.running)
    && (p.waiting || p.done <==> p.closing == Returned) && !(p.waiting && p.done)
    && (p.done ==> p.running == {})
  }

  lemma StepKeepsInv(p: Protocol, s: Step)
    requires Inv(p) && Enabled(p, s)
    ensures Inv(Do(p, s))
  {
    hide Inv;
    if s.Enter? || s.Lock? || s.Unlock? {
      LockStepKeepsInv(p, s);
    } else if s.Check? || s.Go? {
      ArmStepKeepsInv(p, s);
    } else {
      OtherStepKeepsInv(p, s);
    }
  }

  lemma LockStepKeepsInv(p: Protocol, s: Step)
    requires Inv(p) && Enabled(p, s) && (s.Enter? || s.Lock? || s.Unlock?)
    ensures Inv(Do(p, s))
  {
    PcsAfter(p, Do(p, s), s.t);
  }

  lemma ArmStepKeepsInv(p: Protocol, s: Step)
    requires Inv(p) && Enabled(p, s) && (s.Check? || s.Go?)
    ensures Inv(Do(p, s))
  {
    PcsAfter(p, Do(p, s), s.t);
  }

  lemma OtherStepKeepsInv(p: Protocol, s: Step)
    requires Inv(p) && Enabled(p, s) && !s.Enter? && !s.Lock? && !s.Unlock? && !s.Check? && !s.Go?
    ensures Inv(Do(p, s))
  {
    assert forall x :: PcOf(Do(p, s), x) == PcOf(p, x);
  }

  lemma PcsAfter(p: Protocol, q: Protocol, t: Thread)
    requires t in q.pcs && q.pcs == p.pcs[t := q.pcs[t]]
    ensures forall x :: x != t ==> PcOf(q, x) == PcOf(p, x)
  {
  }

  ghost predicate Trace(p: Protocol, ss: seq<Step>, q: Protocol)
    decreases |ss|
  {
    if ss == [] then p == q else Enabled(p, ss[0]) && Trace(Do(p, ss[0]), ss[1..], q)
  }

  lemma {:induction false} TraceKeepsInv(p: Protocol, ss: seq<Step>, q: Protocol)
    requires Inv(p) && Trace(p, ss, q)
    ensures Inv(q) && (p.done ==> q.done) && (p.cancelled ==> q.cancelled && q.started == p.started)
    decreases |ss|
  {
    hide Inv;
    if ss != [] {
      StepKeepsInv(p, ss[0]);
      NothingStartsAfterCancel(p, ss[0]);
      TraceKeepsInv(Do(p, ss[0]), ss[1..], q);
    }
  }

  /** Once Close has cancelled the context, no watchdog starts, so no Add can race the Wait. */
  lemma NothingStartsAfterCancel(p: Protocol, s: Step)
    requires Inv(p) && Enabled(p, s)
    ensures p.cancelled ==> Do(p, s).cancelled && Do(p, s).started == p.started
    ensures p.done ==> Do(p, s).done
  {
  }

  /** Under every interleaving: once WaitShutdown has returned nil, no watchdog is running,
      and none ever runs again. */
  lemma ShutdownIsFinal(ss: seq<Step>, p: Protocol, more: seq<Step>, q: Protocol)
    requires Trace(START, ss, p) && p.done && Trace(p, more, q)
    ensures p.running == {} && q.running == {} && q.started == p.started && q.waitGroup == 0
  {
    TraceKeepsInv(START, ss, p);
    TraceKeepsInv(p, more, q);
  }

  // ---- Progress ----

  /** A step that finishes something begun: neither a new attempt to arm nor another Close. */
  predicate Finishes(s: Step) { !s.Enter? && !s.CallClose? }

  lemma FreshDog(started: set<nat>)
    ensures exists dog: nat :: dog !in started
  {
    var n := UpperBound(started);
    assert n !in started;
  }

  ghost function UpperBound(xs: set<nat>): (n: nat)
    ensures forall x :: x in xs ==> x < n
  {
    if xs == {} then 0
    else
      var x :| x in xs;
      var n := UpperBound(xs - {x});
      assert forall y :: y in xs ==> y == x || y in xs - {x};
      if x < n then n else x + 1
  }

  /** Whoever holds the lock can go on. */
  lemma HolderGoesOn(p: Protocol)
    requires Inv(p) && p.mutex != Free
    ensures exists s :: Enabled(p, s) && Finishes(s)
  {
    if p.mutex.HeldBy? {
      var t := p.mutex.thread;
      FreshDog(p.started);
      var dog: nat :| dog !in p.started;
      var s := if PcOf(p, t) == Holding then Check(t) else if PcOf(p, t) == Passed then Go(t, dog) else Unlock(t);
      assert Enabled(p, s) && Finishes(s);
    } else {
      var s := if p.closing == ClosingHolds then CloseCancel else CloseUnlock;
      assert Enabled(p, s) && Finishes(s);
    }
  }

  /** Close never gets stuck: under every interleaving, once it was called and until the wait
      has returned, something begun can be finished. */
  lemma CloseNeverStuck(ss: seq<Step>, p: Protocol)
    requires Trace(START, ss, p) && p.closing != NotCalled && !p.done
    ensures exists s :: Enabled(p, s) && Finishes(s)
  {
    TraceKeepsInv(START, ss, p);
    if p.mutex != Free {
      HolderGoesOn(p);
    } else if p.closing == ClosingLock {
      assert Enabled(p, CloseLock) && Finishes(CloseLock);
    } else if p.closing == Unlocked {
      assert Enabled(p, CloseSpawn) && Finishes(CloseSpawn);
    } else if p.running == {} {
      assert Enabled(p, WaitReturns) && Finishes(WaitReturns);
    } else {
      var dog :| dog in p.running;
      var s := if PcOf(p, Dog(dog)) == Outside then Exit(dog) else Lock(Dog(dog));
      assert Enabled(p, s) && Finishes(s);
    }
  }

  /** And before Close has cancelled, a thread that holds the lock does start its watchdog. */
  lemma ArmingStarts(ss: seq<Step>, p: Protocol, t: Thread, dog: nat)
    requires Trace(START, ss, p) && PcOf(p, t) == Holding && !p.cancelled && dog !in p.started
    ensures var q := Do(p, Check(t));
            Enabled(q, Go(t, dog)) && dog in Do(q, Go(t, dog)).running
  {
  }
}
