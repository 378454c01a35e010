/** What the calls of a thread have done when they return, over any run, whatever other threads and
    interrupts do meanwhile (synch.c, thread.c, keyboard.c). */
module KernelCalls {
  import opened Common
  import opened Runs
  import opened KernelSteps
  import opened KernelSync
  import opened KernelInvariant
  import opened KernelStores
  import opened KernelCreate
  import opened KernelRuns
  import opened KernelSafety

  // ------------------------------------------------------------ what others leave alone

  /** Thread t is at the same statement and holds the same mutexes. */
  predicate Still(s: State, s': State, t: Tid) {
    t in s.pc && t in s.held && t in s'.pc && t in s'.held && s'.pc[t] == s.pc[t] && s'.held[t] == s.held[t]
  }

  predicate Elsewhere(s: State, t: Tid) {
    t in s.pc && t in s.held && t != s.cpu.current
  }

  lemma WakeOnePc(s: State, q: QueueId)
    ensures WakeOne(s, q).pc == s.pc && WakeOne(s, q).held == s.held && WakeOne(s, q).cpu == s.cpu
  {
  }

  lemma {:induction false} WakeAllPc(s: State, q: QueueId)
    requires q != RunQ
    ensures WakeAll(s, q).pc == s.pc && WakeAll(s, q).held == s.held && WakeAll(s, q).cpu == s.cpu
    decreases |Q(s.queues, q)|
  {
    if Q(s.queues, q) != [] && Q(s.queues, q)[0] in s.sched {
      WakeOnePc(s, q);
      assert Q(WakeOne(s, q).queues, q) == Q(s.queues, q)[1..];
      WakeAllPc(WakeOne(s, q), q);
    }
  }

  lemma RequeuePc(s: State, saved: bool)
    requires Consistent(s) && Requeue(s, saved).Ok?
    ensures Requeue(s, saved).s.pc == s.pc && Requeue(s, saved).s.held == s.held
  {
  }

  lemma ReturnPc(s: State)
    requires Consistent(s) && InterruptReturn(s).Ok?
    ensures InterruptReturn(s).s.pc == s.pc && InterruptReturn(s).s.held == s.held
  {
  }

  /** An interrupt moves no thread to another statement. */
  lemma InterruptPc(s: State, e: Event, s': State)
    requires IsStep(s, e, s') && !e.Run?
    ensures s'.pc == s.pc && s'.held == s.held
  {
    match e
    case Timer => ReturnPc(Tick(s));
    case Key(printable) =>
      if printable {
        WakeAllPc(s, EventQ);
        var s1 := WakeAll(s, EventQ);
        ReturnPc(s1.(cpu := s1.cpu.(resched := true)));
      } else {
        ReturnPc(s);
      }
  }

  lemma WaitPc(s: State, q: QueueId)
    requires Consistent(s) && WaitOn(s, q).Ok?
    ensures WaitOn(s, q).s.pc == s.pc && WaitOn(s, q).s.held == s.held
  {
  }

  lemma LockStill(s: State, t: Tid)
    requires Consistent(s) && LockStep(s).Ok? && Elsewhere(s, t)
    ensures Still(s, LockStep(s).s, t)
  {
    var c := s.cpu.current;
    if s.pc[c].LockOwn? {
      assert LockStep(s).s.held == s.held[c := s.held[c] + {s.pc[c].m}];
    } else {
      assert LockStep(s).s.held == s.held;
    }
  }

  lemma ParkStill(s: State, t: Tid)
    requires Consistent(s) && ParkStep(s).Ok? && Elsewhere(s, t)
    ensures Still(s, ParkStep(s).s, t)
  {
    var p := s.pc[s.cpu.current];
    if p.ParkWait? {
      WaitPc(Goto(s, ParkResume(p.q, p.m)), p.q);
    }
  }

  lemma UnlockStill(s: State, t: Tid)
    requires Consistent(s) && UnlockStep(s).Ok? && Elsewhere(s, t)
    ensures Still(s, UnlockStep(s).s, t)
  {
    var p := s.pc[s.cpu.current];
    if p.UnlockWake? {
      WakeOnePc(s, MutexQ(p.m));
    } else {
      var s' := UnlockStep(s).s;
      assert s' == s.(cpu := s'.cpu, pc := s'.pc, mutexes := s'.mutexes, held := s'.held);
    }
  }

  lemma YieldStill(s: State, t: Tid)
    requires Consistent(s) && SignalStep(s).Ok? && s.pc[s.cpu.current].YieldSwitch? && Elsewhere(s, t)
    ensures Still(s, SignalStep(s).s, t)
  {
  }

  lemma SignalStill(s: State, t: Tid)
    requires Consistent(s) && SignalStep(s).Ok? && Elsewhere(s, t)
    ensures Still(s, SignalStep(s).s, t)
  {
    var p := s.pc[s.cpu.current];
    if p.YieldSwitch? {
      YieldStill(s, t);
    } else if p.SignalWake? || p.BroadcastWake? {
      WakeOnePc(s, CondQ(p.c));
    } else {
      assert SignalStep(s).s == s.(cpu := SignalStep(s).s.cpu, pc := SignalStep(s).s.pc);
    }
  }

  lemma ExitSwitchStill(s: State, t: Tid)
    requires Consistent(s) && ExitStep(s).Ok? && s.pc[s.cpu.current].ExitSwitch? && Elsewhere(s, t)
    ensures Still(s, ExitStep(s).s, t)
  {
  }

  lemma ExitStill(s: State, t: Tid)
    requires Consistent(s) && ExitStep(s).Ok? && Elsewhere(s, t)
    ensures Still(s, ExitStep(s).s, t)
  {
    var p := s.pc[s.cpu.current];
    if p.ExitDetach? {
      DetachIs(s, s.cpu.current, ExitMark);
      WakeOnePc(s, EventQ);
    } else if p.ExitWake? {
      WakeOnePc(s, JoinQ(s.cpu.current));
    } else if p.ExitSwitch? {
      ExitSwitchStill(s, t);
    }
  }

  lemma JoinTestStill(s: State, t: Tid)
    requires Consistent(s) && JoinStep(s).Ok? && s.pc[s.cpu.current].JoinTest? && Elsewhere(s, t)
    ensures Still(s, JoinStep(s).s, t)
  {
    if JoinStep(s) == WaitOn(s, JoinQ(s.pc[s.cpu.current].child)) {
      WaitPc(s, JoinQ(s.pc[s.cpu.current].child));
    }
  }

  lemma JoinStill(s: State, t: Tid)
    requires Consistent(s) && JoinStep(s).Ok? && Elsewhere(s, t)
    ensures Still(s, JoinStep(s).s, t)
  {
    var p := s.pc[s.cpu.current];
    if p.JoinTest? {
      JoinTestStill(s, t);
    } else if p.MergeMove? {
      WakeOnePc(s, NewQ);
    }
  }

  lemma WorkStill(s: State, keyReady: bool, t: Tid)
    requires Consistent(s) && WorkStep(s, keyReady).Ok? && Elsewhere(s, t)
    ensures Still(s, WorkStep(s, keyReady).s, t)
  {
    var p := s.pc[s.cpu.current];
    if (p.KeyTest? && !keyReady) || (p.WorkTest? && s.work.items == []) {
      EventWaitIs(s, keyReady);
      WaitPc(s, EventQ);
    } else {
      assert WorkStep(s, keyReady).s == s.(cpu := WorkStep(s, keyReady).s.cpu, pc := WorkStep(s, keyReady).s.pc,
                                           work := WorkStep(s, keyReady).s.work);
    }
  }

  lemma CallStill(s: State, call: Call, t: Tid)
    requires Consistent(s) && CallStep(s, call).Ok? && Elsewhere(s, t)
    requires call.Create? || call.CreateJob? ==> call.t !in s.pc
    ensures Still(s, CallStep(s, call).s, t)
  {
    match call
    case Create(u, attached) => CreateIs(s, u, attached);
    case CreateJob(u, attached, burst, priority) => CreateJobIs(s, u, attached, burst, priority);
    case _ =>
  }

  lemma RunStill(s: State, call: Call, keyReady: bool, t: Tid)
    requires Consistent(s) && Allowed(s, Run(call, keyReady)) && Step(s, call, keyReady).Ok? && Elsewhere(s, t)
    ensures Still(s, Step(s, call, keyReady).s, t)
  {
    var p := s.pc[s.cpu.current];
    if p.User? {
      CallStill(s, call, t);
    } else if p.LockEnter? || p.LockTest? || p.LockTake? || p.LockOwn? || p.PreemptOn? {
      LockStill(s, t);
    } else if p.ParkDisable? || p.ParkPreempt? || p.ParkWait? || p.ParkResume? || p.ParkEnable? {
      ParkStill(s, t);
    } else if p.UnlockEnter? || p.UnlockState? || p.UnlockOwner? || p.UnlockTest? || p.UnlockDisable?
        || p.UnlockWake? || p.UnlockEnable? {
      UnlockStill(s, t);
    } else if p.ExitDisable? || p.ExitDetach? || p.ExitMark? || p.ExitWake? || p.ExitSwitch? {
      ExitStill(s, t);
    } else if p.JoinDisable? || p.JoinTest? || p.JoinDetach? || p.MergeDisable? || p.MergeMove? {
      JoinStill(s, t);
    } else if p.KeyDisable? || p.KeyTest? || p.WorkDisable? || p.WorkTest? || p.WorkTake? || p.WorkEnable?
        || p.WorkRun? {
      WorkStill(s, keyReady, t);
    } else {
      SignalStill(s, t);
    }
  }

  /** The step is a statement of thread t. */
  predicate Own(s: State, e: Event, t: Tid) {
    e.Run? && t == s.cpu.current
  }

  /** Nobody but thread t, and no interrupt, moves it to another statement, or takes or releases a mutex for
      it. */
  lemma StaysStill(s: State, e: Event, s': State, t: Tid)
    requires IsStep(s, e, s') && t in s.pc && t in s.held && !Own(s, e, t)
    ensures Still(s, s', t)
  {
    match e
    case Run(call, keyReady) => RunStill(s, call, keyReady, t);
    case _ => InterruptPc(s, e, s');
  }

  // ------------------------------------------------------------- calls that return

  predicate Knows(s: State, t: Tid) {
    t in s.pc && t in s.held
  }

  predicate AtUser(s: State, t: Tid) {
    t in s.pc && s.pc[t] == User
  }

  /** A run from a call of thread t to its return, in states[i]. */
  ghost predicate Returns(states: seq<State>, events: seq<Event>, t: Tid, call: Call, i: nat) {
    && Follow(states, events) && Reachable(states[0]) && 1 <= i < |states|
    && states[0].cpu.current == t && AtUser(states[0], t) && events[0].Run? && events[0].call == call
    && (forall j :: 1 <= j < i ==> !AtUser(states[j], t)) && AtUser(states[i], t)
  }

  ghost function Out(t: Tid): State -> bool {
    s => AtUser(s, t)
  }

  /** The first statement of a call. */
  function First(call: Call): Pc {
    match call
    case Lock(m) => LockEnter(m)
    case Unlock(m) => UnlockEnter(m, None)
    case CondWait(c, m) => UnlockEnter(m, Some(c))
    case Signal(c) => SignalDisable(c)
    case Broadcast(c) => BroadcastDisable(c)
    case Yield => YieldDisable
    case Exit => ExitDisable
    case Join(ch) => JoinDisable(ch)
    case ReadKey => KeyDisable
    case Merge => MergeDisable
    case _ => User
  }

  lemma Begins(s: State, e: Event, s': State)
    requires Reachable(s) && IsStep(s, e, s') && e.Run? && s.pc[s.cpu.current] == User && First(e.call) != User
    ensures Reachable(s') && Knows(s', s.cpu.current) && s'.pc[s.cpu.current] == First(e.call)
  {
    ReachableOn(s, e, s');
    assert Knows(s', s.cpu.current);
  }

  lemma CallBegins(states: seq<State>, events: seq<Event>, t: Tid, call: Call, i: nat)
    requires Returns(states, events, t, call, i) && First(call) != User
    ensures Reachable(states[1]) && Knows(states[1], t) && states[1].pc[t] == First(call)
  {
    ChainAt(IsStep, states, events, 0);
    Begins(states[0], events[0], states[1]);
  }

  // ----------------------------------------------------------------------- mutex_lock

  /** In mutex_lock, or in cond_wait where it locks the mutex again, and not done yet. */
  predicate Locking(p: Pc, m: nat) {
    || p == LockEnter(m) || p == LockTest(m) || p == LockTake(m) || p == LockOwn(m)
    || p == ParkDisable(MutexQ(m), m) || p == ParkPreempt(MutexQ(m), m) || p == ParkWait(MutexQ(m), m)
    || p == ParkResume(MutexQ(m), m) || p == ParkEnable(m)
  }

  /** Thread t is about to return from a call with mutex m. */
  predicate ReturnsHolding(s: State, t: Tid, m: nat) {
    Knows(s, t) && (s.pc[t] == PreemptOn || s.pc[t] == User) && m in s.held[t]
  }

  predicate InLock(s: State, t: Tid, m: nat) {
    Knows(s, t) && Locking(s.pc[t], m)
  }

  lemma LockOwnStep(s: State, m: nat)
    requires Here(s) && Locking(s.pc[s.cpu.current], m) && LockStep(s).Ok?
    ensures var t, s' := s.cpu.current, LockStep(s).s;
            InLock(s', t, m) || (m !in s.held[t] && ReturnsHolding(s', t, m))
  {
  }

  lemma ParkOwnStep(s: State, m: nat)
    requires Here(s) && Locking(s.pc[s.cpu.current], m) && ParkStep(s).Ok?
    ensures InLock(ParkStep(s).s, s.cpu.current, m)
  {
    var p := s.pc[s.cpu.current];
    if p.ParkWait? {
      WaitPc(Goto(s, ParkResume(p.q, p.m)), p.q);
    }
  }

  /** A thread that locks mutex m goes on doing so, or has taken it. */
  lemma LockGoesOn(s: State, e: Event, s': State, t: Tid, m: nat)
    requires Reachable(s) && IsStep(s, e, s') && InLock(s, t, m)
    ensures Reachable(s') && (InLock(s', t, m) || (m !in s.held[t] && ReturnsHolding(s', t, m)))
  {
    ReachableOn(s, e, s');
    if Own(s, e, t) {
      assert Here(s) by { ReachableInv(s); InvHere(s); }
      var p := s.pc[t];
      if p.ParkDisable? || p.ParkPreempt? || p.ParkWait? || p.ParkResume? || p.ParkEnable? {
        assert Step(s, e.call, e.keyReady) == ParkStep(s);
        ParkOwnStep(s, m);
      } else {
        assert Step(s, e.call, e.keyReady) == LockStep(s);
        LockOwnStep(s, m);
      }
    } else {
      StaysStill(s, e, s', t);
    }
  }

  /** And having taken it, it returns with it. */
  lemma HoldingGoesOn(s: State, e: Event, s': State, t: Tid, m: nat)
    requires Reachable(s) && IsStep(s, e, s') && ReturnsHolding(s, t, m) && !AtUser(s, t)
    ensures Reachable(s') && ReturnsHolding(s', t, m)
  {
    ReachableOn(s, e, s');
    if Own(s, e, t) {
      assert Step(s, e.call, e.keyReady) == LockStep(s);
    } else {
      StaysStill(s, e, s', t);
    }
  }

  ghost function LockBefore(t: Tid, m: nat): State -> bool {
    s => Reachable(s) && InLock(s, t, m)
  }

  ghost function LockMark(t: Tid, m: nat): (State, Event, State) -> bool {
    (s: State, e: Event, s': State) => Knows(s, t) && m !in s.held[t]
  }

  ghost function LockAfter(t: Tid, m: nat): State -> bool {
    s => Reachable(s) && ReturnsHolding(s, t, m)
  }

  lemma LockStages(t: Tid, m: nat)
    ensures Stages(IsStep, LockBefore(t, m), LockMark(t, m), LockAfter(t, m), Out(t))
  {
    forall s, e, s' | Reachable(s) && InLock(s, t, m) && IsStep(s, e, s')
      ensures Reachable(s') && (InLock(s', t, m) || (LockMark(t, m)(s, e, s') && ReturnsHolding(s', t, m)))
    {
      LockGoesOn(s, e, s', t, m);
    }
    forall s, e, s' | Reachable(s) && ReturnsHolding(s, t, m) && !AtUser(s, t) && IsStep(s, e, s')
      ensures Reachable(s') && ReturnsHolding(s', t, m)
    {
      HoldingGoesOn(s, e, s', t, m);
    }
  }

  /** mutex_lock returns with the mutex, which it has taken. */
  lemma LockReturns(states: seq<State>, events: seq<Event>, t: Tid, m: nat, i: nat) returns (k: nat)
    requires Returns(states, events, t, Lock(m), i)
    ensures Knows(states[i], t) && m in states[i].held[t] && MutexOf(states[i].mutexes, m) == Mutex(true, Some(t))
    ensures 1 <= k < i && Knows(states[k], t) && m !in states[k].held[t]
  {
    CallBegins(states, events, t, Lock(m), i);
    LockStages(t, m);
    k := ChainComesOut(IsStep, states, events, LockBefore(t, m), LockMark(t, m), LockAfter(t, m), Out(t), i);
    OwnerKnown(states[i], t, m);
  }

  lemma OwnerKnown(s: State, t: Tid, m: nat)
    requires Reachable(s) && AtUser(s, t) && t in s.held && m in s.held[t]
    ensures MutexOf(s.mutexes, m) == Mutex(true, Some(t))
  {
    ReachableInv(s);
    assert HeldOk(s.pc, s.held, s.mutexes, t);
  }
}
