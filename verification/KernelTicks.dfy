/** When a thread loses the processor: only by what it does itself, or by an interrupt for which a switch
    has been asked, which under FCFS, SJF and PRIORITY only keys do (timer.c, x86_int_asm.S). */
module KernelTicks {
  import opened Common
  import opened Runs
  import opened SchedulingOrder
  import opened KernelSteps
  import opened KernelInvariant
  import opened KernelStores
  import opened KernelCreate
  import opened KernelRuns
  import opened KernelSafety
  import opened KernelOrder
  import opened KernelTurns
  import opened KernelWakeups

  /** The current thread is about to wait, to yield, or to end. */
  predicate GivesUp(s: State, e: Event)
    requires Consistent(s)
  {
    e.Run? &&
    match s.pc[s.cpu.current]
    case ParkWait(_, _) => true
    case YieldSwitch => true
    case ExitSwitch => true
    case JoinTest(ch) => ch in s.sched && s.sched[ch].state != EXITED
    case KeyTest => !e.keyReady
    case WorkTest => s.work.items == []
    case _ => false
  }

  /** Nobody has asked for a switch, and nobody has changed the scheduler, its quantum or the clock. */
  predicate SameClock(s: State, s': State) {
    s'.cpu.resched == s.cpu.resched && s'.clock == s.clock
  }

  lemma WakeClock(s: State, q: QueueId)
    ensures WakeOne(s, q).cpu == s.cpu && WakeOne(s, q).clock == s.clock
  {
  }

  lemma WaitClock(s: State, q: QueueId)
    requires Consistent(s) && WaitOn(s, q).Ok?
    ensures SameClock(s, WaitOn(s, q).s)
  {
  }

  lemma RequeueClock(s: State, saved: bool)
    requires Consistent(s) && Requeue(s, saved).Ok?
    ensures SameClock(s, Requeue(s, saved).s)
  {
  }

  lemma LockClock(s: State)
    requires Consistent(s) && LockStep(s).Ok?
    ensures SameClock(s, LockStep(s).s) && LockStep(s).s.cpu.current == s.cpu.current
  {
  }

  lemma ParkClock(s: State)
    requires Consistent(s) && ParkStep(s).Ok?
    ensures SameClock(s, ParkStep(s).s)
    ensures !s.pc[s.cpu.current].ParkWait? ==> ParkStep(s).s.cpu.current == s.cpu.current
  {
    var p := s.pc[s.cpu.current];
    if p.ParkWait? {
      WaitClock(Goto(s, ParkResume(p.q, p.m)), p.q);
    }
  }

  lemma UnlockClock(s: State)
    requires Consistent(s) && UnlockStep(s).Ok?
    ensures SameClock(s, UnlockStep(s).s) && UnlockStep(s).s.cpu.current == s.cpu.current
  {
    var p := s.pc[s.cpu.current];
    if p.UnlockWake? {
      WakeClock(s, MutexQ(p.m));
    }
  }

  lemma SignalClock(s: State)
    requires Consistent(s) && SignalStep(s).Ok?
    ensures SameClock(s, SignalStep(s).s)
    ensures !s.pc[s.cpu.current].YieldSwitch? ==> SignalStep(s).s.cpu.current == s.cpu.current
  {
    var p := s.pc[s.cpu.current];
    if p.YieldSwitch? {
      RequeueClock(Goto(s, IntsOn), false);
    } else if p.SignalWake? || p.BroadcastWake? {
      WakeClock(s, CondQ(p.c));
    }
  }

  lemma ExitClock(s: State)
    requires Consistent(s) && ExitStep(s).Ok?
    ensures SameClock(s, ExitStep(s).s)
    ensures !s.pc[s.cpu.current].ExitSwitch? ==> ExitStep(s).s.cpu.current == s.cpu.current
  {
    var p := s.pc[s.cpu.current];
    if p.ExitDetach? {
      DetachIs(s, s.cpu.current, ExitMark);
      WakeClock(s, EventQ);
    } else if p.ExitWake? {
      WakeClock(s, JoinQ(s.cpu.current));
    }
  }

  lemma JoinClock(s: State)
    requires Consistent(s) && JoinStep(s).Ok?
    ensures SameClock(s, JoinStep(s).s)
    ensures var p := s.pc[s.cpu.current];
            !(p.JoinTest? && p.child in s.sched && s.sched[p.child].state != EXITED) ==>
              JoinStep(s).s.cpu.current == s.cpu.current
  {
    var p := s.pc[s.cpu.current];
    if p.JoinTest? {
      if JoinStep(s) == WaitOn(s, JoinQ(p.child)) {
        WaitClock(s, JoinQ(p.child));
      }
    } else if p.JoinDetach? {
      var s1 := s.(refs := s.refs[p.child := s.refs[p.child].(joined := true)]);
      DetachIs(s1, p.child, IntsOn);
      WakeClock(s1, EventQ);
    } else if p.MergeMove? {
      WakeClock(s, NewQ);
    }
  }

  lemma WorkClock(s: State, keyReady: bool)
    requires Consistent(s) && WorkStep(s, keyReady).Ok?
    ensures SameClock(s, WorkStep(s, keyReady).s)
    ensures var p := s.pc[s.cpu.current];
            !(p.KeyTest? && !keyReady) && !(p.WorkTest? && s.work.items == []) ==>
              WorkStep(s, keyReady).s.cpu.current == s.cpu.current
  {
    var p := s.pc[s.cpu.current];
    if (p.KeyTest? && !keyReady) || (p.WorkTest? && s.work.items == []) {
      EventWaitIs(s, keyReady);
      WaitClock(s, EventQ);
    }
  }

  lemma CallClock(s: State, call: Call)
    requires Consistent(s) && CallStep(s, call).Ok? && (call.Create? || call.CreateJob? ==> call.t !in s.pc)
    ensures CallStep(s, call).s.cpu == s.cpu
    ensures CallStep(s, call).s.clock ==
            if call.SetPolicy? then s.clock.(policy := call.policy, quantum := call.quantum) else s.clock
  {
    match call
    case Create(t, attached) => CreateIs(s, t, attached);
    case CreateJob(t, attached, burst, priority) => CreateJobIs(s, t, attached, burst, priority);
    case _ =>
  }

  /** A statement asks for no switch, and switches only where it says so; the scheduler and its quantum are
      changed only by the call that asks for it, and the clock by none. */
  lemma RunClock(s: State, e: Event, s': State)
    requires IsStep(s, e, s') && e.Run?
    ensures s'.cpu.resched == s.cpu.resched && (s'.cpu.current != s.cpu.current ==> GivesUp(s, e))
    ensures s'.clock == if s.pc[s.cpu.current] == User && e.call.SetPolicy?
                        then s.clock.(policy := e.call.policy, quantum := e.call.quantum) else s.clock
  {
    var p, call, keyReady := s.pc[s.cpu.current], e.call, e.keyReady;
    if p.User? {
      CallClock(s, call);
    } else if p.LockEnter? || p.LockTest? || p.LockTake? || p.LockOwn? || p.PreemptOn? {
      LockClock(s);
    } else if p.ParkDisable? || p.ParkPreempt? || p.ParkWait? || p.ParkResume? || p.ParkEnable? {
      ParkClock(s);
    } else if p.UnlockEnter? || p.UnlockState? || p.UnlockOwner? || p.UnlockTest? || p.UnlockDisable?
        || p.UnlockWake? || p.UnlockEnable? {
      UnlockClock(s);
    } else if p.ExitDisable? || p.ExitDetach? || p.ExitMark? || p.ExitWake? || p.ExitSwitch? {
      ExitClock(s);
    } else if p.JoinDisable? || p.JoinTest? || p.JoinDetach? || p.MergeDisable? || p.MergeMove? {
      JoinClock(s);
    } else if p.KeyDisable? || p.KeyTest? || p.WorkDisable? || p.WorkTest? || p.WorkTake? || p.WorkEnable?
        || p.WorkRun? {
      WorkClock(s, keyReady);
    } else {
      SignalClock(s);
    }
  }

  lemma ReturnClock(s: State)
    requires Consistent(s) && InterruptReturn(s).Ok?
    ensures InterruptReturn(s).s.clock == s.clock
  {
    if s.cpu.preempt && s.cpu.resched {
      RequeueClock(s.(cpu := s.cpu.(resched := false)), true);
    }
  }

  lemma {:induction false} WakeAllClock(s: State, q: QueueId)
    requires q != RunQ
    ensures WakeAll(s, q).clock == s.clock
    decreases |Q(s.queues, q)|
  {
    if Q(s.queues, q) != [] && Q(s.queues, q)[0] in s.sched {
      WakeClock(s, q);
      assert Q(WakeOne(s, q).queues, q) == Q(s.queues, q)[1..];
      WakeAllClock(WakeOne(s, q), q);
    }
  }

  /** The clock counts the ticks, and scheduler and quantum are those last asked for. */
  lemma ClockExactly(s: State, e: Event, s': State)
    requires IsStep(s, e, s')
    ensures s'.clock.ticks == s.clock.ticks + (if e == Timer then 1 else 0)
    ensures var call := if e.Run? && s.pc[s.cpu.current] == User then e.call else Compute;
            && s'.clock.policy == (if call.SetPolicy? then call.policy else s.clock.policy)
            && s'.clock.quantum == (if call.SetPolicy? then call.quantum else s.clock.quantum)
  {
    match e
    case Run(_, _) => RunClock(s, e, s');
    case Timer => ReturnClock(Tick(s));
    case Key(printable) =>
      if printable {
        WakeAllClock(s, EventQ);
        var s1 := WakeAll(s, EventQ);
        ReturnClock(s1.(cpu := s1.cpu.(resched := true)));
      } else {
        ReturnClock(s);
      }
  }

  /** A switch has been asked for after a step if and only if none could be made, and it had been asked for
      before, or a printable key asks for it, or a tick that exceeds the quantum, under RR alone. */
  lemma RequestExactly(s: State, e: Event, s': State)
    requires Reachable(s) && IsStep(s, e, s')
    ensures s'.cpu.resched <==>
              if e.Run? then s.cpu.resched
              else !s.cpu.preempt &&
                   (s.cpu.resched || e == Key(true) ||
                    (e == Timer && s.clock.policy == RR && s.times[s.cpu.current].numTicks >= s.clock.quantum))
  {
    match e
    case Run(_, _) => RunClock(s, e, s');
    case Timer => TimerExactly(s, s');
    case Key(printable) =>
      var s1 := KeyExactly(s, printable, s');
  }

  /** Under FCFS, SJF and PRIORITY a tick changes nothing but clocks, if no switch has been asked for. */
  lemma TickElsewhere(s: State, s': State)
    requires IsStep(s, Timer, s') && s.clock.policy != RR && !s.cpu.resched
    ensures s'.cpu == s.cpu && s'.queues == s.queues && s'.sched == s.sched
  {
    TimerExactly(s, s');
  }

  ghost predicate NoRoundRobin(states: seq<State>) {
    forall i {:trigger states[i]} :: 0 <= i < |states| ==> states[i].clock.policy != RR
  }

  ghost predicate NoKeys(events: seq<Event>) {
    forall i {:trigger events[i]} :: 0 <= i < |events| ==> events[i] != Key(true)
  }

  ghost predicate Unasked(s: State) {
    Reachable(s) && !s.cpu.resched
  }

  lemma NotAsked(s: State, e: Event, s': State)
    requires Unasked(s) && IsStep(s, e, s') && s.clock.policy != RR && e != Key(true)
    ensures Unasked(s') && (s'.cpu.current != s.cpu.current ==> GivesUp(s, e))
  {
    ReachableOn(s, e, s');
    match e
    case Run(_, _) => RunClock(s, e, s');
    case Timer => TickElsewhere(s, s');
    case Key(printable) =>
      var s1 := KeyExactly(s, printable, s');
  }

  lemma {:induction false} NeverAsked(states: seq<State>, events: seq<Event>, i: nat)
    requires Follow(states, events) && NoRoundRobin(states) && NoKeys(events) && Unasked(states[0]) && i < |states|
    ensures Unasked(states[i])
  {
    if i > 0 {
      NeverAsked(states, events, i - 1);
      assert IsStep(states[i - 1], events[i - 1], states[i]) by { ChainAt(IsStep, states, events, i - 1); }
      NotAsked(states[i - 1], events[i - 1], states[i]);
    }
  }

  /** So under FCFS, SJF and PRIORITY, without keys, a thread runs until it waits, yields or ends. */
  lemma NotPreempted(states: seq<State>, events: seq<Event>, i: nat)
    requires Follow(states, events) && NoRoundRobin(states) && NoKeys(events) && Unasked(states[0]) && i < |events|
    ensures Consistent(states[i]) && !states[i].cpu.resched
    ensures states[i + 1].cpu.current != states[i].cpu.current ==> GivesUp(states[i], events[i])
  {
    NeverAsked(states, events, i);
    assert IsStep(states[i], events[i], states[i + 1]) by { ChainAt(IsStep, states, events, i); }
    NotAsked(states[i], events[i], states[i + 1]);
  }

  // ------------------------------------------------------------- in order of arrival

  /** Threads have joined the end of the run queue, if any have, to make it ready; and then the first of
      it may have got the processor. */
  predicate ServedFrom(s: State, s': State, ready: seq<Tid>) {
    && RunQueue(s) <= ready
    && ((s'.cpu.current == s.cpu.current && RunQueue(s') == ready) || TurnsFrom(s, s', ready))
  }

  ghost predicate InTurn(s: State, s': State) {
    exists ready :: ServedFrom(s, s', ready)
  }

  lemma TurnsInTurn(s: State, s1: State, s': State)
    requires RunQueue(s) <= RunQueue(s1) && Turns(s1, s')
    ensures InTurn(s, s')
  {
    if TurnsFrom(s1, s', RunQueue(s1)) {
      assert ServedFrom(s, s', RunQueue(s1));
    } else {
      assert ServedFrom(s, s', RunQueue(s1) + [s1.cpu.current]);
    }
  }

  lemma RunInTurn(s: State, call: Call, keyReady: bool, s': State)
    requires Inv(s) && IsStep(s, Run(call, keyReady), s') && Consistent(s') && InOrder(s)
    ensures InTurn(s, s')
  {
    assert Here(s) by { InvHere(s); }
    StepSlides(s, call, keyReady);
    if Stays(s, s') {
      assert ServedFrom(s, s', RunQueue(s'));
    } else {
      TurnsInTurn(s, s, s');
    }
  }

  /** Under FCFS and RR nobody is overtaken on the run queue: in every step threads join its end, if any do,
      and who gets the processor is the first of it. */
  lemma FirstReadyFirstServed(s: State, e: Event, s': State)
    requires Reachable(s) && IsStep(s, e, s') && (s.clock.policy == FCFS || s.clock.policy == RR)
    ensures InTurn(s, s')
  {
    assert Inv(s) by { ReachableInv(s); }
    assert Consistent(s') by { StepKeeps(s, e, s'); InvConsistent(s'); }
    match e
    case Run(call, keyReady) => RunInTurn(s, call, keyReady, s');
    case Timer =>
      ReturnSlides(Tick(s));
      if Tick(s).cpu.preempt && Tick(s).cpu.resched {
        TurnsInTurn(s, Tick(s), s');
      } else {
        assert ServedFrom(s, s', RunQueue(s'));
      }
    case Key(printable) =>
      var s1 := KeySlides(s, s', printable);
      if s' == s1 {
        assert ServedFrom(s, s', RunQueue(s'));
      } else {
        TurnsInTurn(s, s1, s');
      }
  }

  // ------------------------------------------------------------ what is noted of a thread

  /** What is noted of thread t, but for the ticks of its slice and its end. */
  function RecordOf(s: State, t: Tid): Option<Times> {
    if t in s.times then Some(s.times[t].(numTicks := 0, termination := 0)) else None
  }

  lemma WaitRecord(s: State, q: QueueId, t: Tid)
    requires Consistent(s) && WaitOn(s, q).Ok?
    ensures RecordOf(WaitOn(s, q).s, t) == RecordOf(s, t)
  {
  }

  lemma RequeueRecord(s: State, saved: bool, t: Tid)
    requires Consistent(s) && Requeue(s, saved).Ok?
    ensures RecordOf(Requeue(s, saved).s, t) == RecordOf(s, t)
  {
  }

  lemma WakeRecord(s: State, q: QueueId)
    ensures WakeOne(s, q).times == s.times
  {
  }

  lemma SyncRecord(s: State, t: Tid)
    requires Consistent(s)
    ensures LockStep(s).Ok? ==> RecordOf(LockStep(s).s, t) == RecordOf(s, t)
    ensures ParkStep(s).Ok? ==> RecordOf(ParkStep(s).s, t) == RecordOf(s, t)
    ensures UnlockStep(s).Ok? ==> RecordOf(UnlockStep(s).s, t) == RecordOf(s, t)
  {
    var p := s.pc[s.cpu.current];
    if p.ParkWait? && ParkStep(s).Ok? {
      WaitRecord(Goto(s, ParkResume(p.q, p.m)), p.q, t);
    } else if p.UnlockWake? {
      WakeRecord(s, MutexQ(p.m));
    }
  }

  lemma SignalRecord(s: State, t: Tid)
    requires Consistent(s) && SignalStep(s).Ok?
    ensures RecordOf(SignalStep(s).s, t) == RecordOf(s, t)
  {
    var p := s.pc[s.cpu.current];
    if p.YieldSwitch? {
      RequeueRecord(Goto(s, IntsOn), false, t);
    } else if p.SignalWake? || p.BroadcastWake? {
      WakeRecord(s, CondQ(p.c));
    }
  }

  lemma ExitRecord(s: State, t: Tid)
    requires Consistent(s) && ExitStep(s).Ok?
    ensures RecordOf(ExitStep(s).s, t) == RecordOf(s, t)
  {
    var p := s.pc[s.cpu.current];
    if p.ExitDetach? {
      DetachIs(s, s.cpu.current, ExitMark);
      WakeRecord(s, EventQ);
    } else if p.ExitWake? {
      WakeRecord(s, JoinQ(s.cpu.current));
    }
  }

  lemma JoinRecord(s: State, t: Tid)
    requires Consistent(s) && JoinStep(s).Ok?
    ensures RecordOf(JoinStep(s).s, t) == RecordOf(s, t)
  {
    var p := s.pc[s.cpu.current];
    if p.JoinTest? {
      if JoinStep(s) == WaitOn(s, JoinQ(p.child)) {
        WaitRecord(s, JoinQ(p.child), t);
      }
    } else if p.JoinDetach? {
      var s1 := s.(refs := s.refs[p.child := s.refs[p.child].(joined := true)]);
      DetachIs(s1, p.child, IntsOn);
      WakeRecord(s1, EventQ);
    } else if p.MergeMove? {
      WakeRecord(s, NewQ);
    }
  }

  lemma WorkRecord(s: State, keyReady: bool, t: Tid)
    requires Consistent(s) && WorkStep(s, keyReady).Ok?
    ensures RecordOf(WorkStep(s, keyReady).s, t) == RecordOf(s, t)
  {
    var p := s.pc[s.cpu.current];
    if (p.KeyTest? && !keyReady) || (p.WorkTest? && s.work.items == []) {
      EventWaitIs(s, keyReady);
      WaitRecord(s, EventQ, t);
    }
  }

  lemma CallRecord(s: State, call: Call, t: Tid)
    requires Consistent(s) && CallStep(s, call).Ok? && t in s.times
    requires call.Create? || call.CreateJob? ==> call.t !in s.pc && call.t !in s.times
    ensures RecordOf(CallStep(s, call).s, t) ==
            if call.FirstResponse? && t == s.cpu.current
            then Some(RecordOf(s, t).value.(response := Some(s.clock.ticks))) else RecordOf(s, t)
  {
    match call
    case Create(u, attached) => CreateIs(s, u, attached);
    case CreateJob(u, attached, burst, priority) => CreateJobIs(s, u, attached, burst, priority);
    case _ =>
  }

  lemma RunRecord(s: State, e: Event, s': State, t: Tid)
    requires IsStep(s, e, s') && e.Run? && t in s.times && s.pc.Keys == s.times.Keys
    ensures RecordOf(s', t) ==
            if s.pc[s.cpu.current] == User && e.call.FirstResponse? && t == s.cpu.current
            then Some(RecordOf(s, t).value.(response := Some(s.clock.ticks))) else RecordOf(s, t)
  {
    var p := s.pc[s.cpu.current];
    if p == User {
      CallRecord(s, e.call, t);
    } else {
      StepIs(s, e.call, e.keyReady);
      var o := Step(s, e.call, e.keyReady);
      if o == SignalStep(s) {
        SignalRecord(s, t);
      } else if o == ExitStep(s) {
        ExitRecord(s, t);
      } else if o == JoinStep(s) {
        JoinRecord(s, t);
      } else if o == WorkStep(s, e.keyReady) {
        WorkRecord(s, e.keyReady, t);
      } else {
        SyncRecord(s, t);
      }
    }
  }

  lemma ReturnRecord(s: State, t: Tid)
    requires Consistent(s) && InterruptReturn(s).Ok?
    ensures RecordOf(InterruptReturn(s).s, t) == RecordOf(s, t)
  {
    if s.cpu.preempt && s.cpu.resched {
      RequeueRecord(s.(cpu := s.cpu.(resched := false)), true, t);
    }
  }

  /** A tick is charged to the thread that runs, and to nobody else; a thread that is alive and does not run
      has waited for it; and the first response is the tick at which the thread last said so. */
  lemma RecordExactly(s: State, e: Event, s': State, t: Tid)
    requires Reachable(s) && IsStep(s, e, s') && t in s.times && t in s.sched
    ensures t in s'.times
    ensures s'.times[t].running == s.times[t].running + (if e == Timer && t == s.cpu.current then 1 else 0)
    ensures s'.times[t].waited ==
            s.times[t].waited + (if e == Timer && t != s.cpu.current && s.sched[t].state != EXITED then 1 else 0)
    ensures s'.times[t].job == s.times[t].job && s'.times[t].arrival == s.times[t].arrival
    ensures s'.times[t].response ==
            if e.Run? && s.pc[s.cpu.current] == User && e.call.FirstResponse? && t == s.cpu.current
            then Some(s.clock.ticks) else s.times[t].response
  {
    assert s.pc.Keys == s.times.Keys by { ReachableInv(s); }
    match e
    case Run(_, _) => RunRecord(s, e, s', t);
    case Timer => ReturnRecord(Tick(s), t);
    case Key(printable) => KeyRecord(s, printable, s', t);
  }

  lemma KeyRecord(s: State, printable: bool, s': State, t: Tid)
    requires Reachable(s) && IsStep(s, Key(printable), s')
    ensures RecordOf(s', t) == RecordOf(s, t)
  {
    if printable {
      QueueMembers(s, EventQ);
      WakeAllMeans(s, EventQ);
      var s1 := WakeAll(s, EventQ);
      ReturnRecord(s1.(cpu := s1.cpu.(resched := true)), t);
    } else {
      ReturnRecord(s, t);
    }
  }
}
