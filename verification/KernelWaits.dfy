/** How threads come to wait and to be woken: cond_wait, who takes a thread off a queue, in which order;
    and what no step forgets. */
module KernelWaits {
  import opened Common
  import opened SchedulingOrder
  import opened KernelSteps
  import opened KernelPlaces
  import opened KernelInvariant
  import opened KernelWake
  import opened KernelSwitch
  import opened KernelStores
  import opened KernelCreate
  import opened KernelRuns
  import opened KernelSafety

  // ----------------------------------------------------------------------- cond_wait

  /** In cond_wait on condition c: the mutex has been released and the thread is not yet on the queue. */
  predicate Releasing(p: Pc, c: nat, m: nat) {
    || p == UnlockOwner(m, Some(c)) || p == UnlockTest(m, Some(c)) || p == UnlockDisable(m, Some(c))
    || p == UnlockWake(m, Some(c)) || p == UnlockEnable(m, Some(c))
    || p == ParkDisable(CondQ(c), m) || p == ParkPreempt(CondQ(c), m) || p == ParkWait(CondQ(c), m)
  }

  /** t goes on releasing, alone on the processor, or it is on the condition's queue; and no other
      thread has taken a mutex. */
  ghost predicate ReleasesOn(s: State, s': State, c: nat, m: nat) {
    var t := s.cpu.current;
    && Consistent(s') && t in s'.pc
    && ((s'.cpu.current == t && Releasing(s'.pc[t], c, m))
        || (s'.pc[t] == ParkResume(CondQ(c), m) && t in Q(s'.queues, CondQ(c))))
    && s'.held == s.held
  }

  lemma UnlockReleases(s: State, c: nat, m: nat)
    requires Consistent(s) && Releasing(s.pc[s.cpu.current], c, m) && UnlockStep(s).Ok?
    requires !s.pc[s.cpu.current].UnlockWake?
    ensures ReleasesOn(s, UnlockStep(s).s, c, m)
  {
  }

  lemma UnlockWakeReleases(s: State, c: nat, m: nat)
    requires Consistent(s) && s.pc[s.cpu.current] == UnlockWake(m, Some(c)) && UnlockStep(s).Ok?
    ensures ReleasesOn(s, UnlockStep(s).s, c, m)
  {
    assert UnlockStep(s).s == Goto(WakeOne(s, MutexQ(m)), UnlockEnable(m, Some(c)));
  }

  lemma ParkReleases(s: State, c: nat, m: nat)
    requires Here(s) && Releasing(s.pc[s.cpu.current], c, m) && ParkStep(s).Ok? && Consistent(ParkStep(s).s)
    ensures ReleasesOn(s, ParkStep(s).s, c, m)
  {
    var p := s.pc[s.cpu.current];
    if p.ParkWait? {
      assert ParkStep(s) == Dispatch(Parked(s, p.q, ParkResume(p.q, p.m)), false);
      var q := Q(Parked(s, p.q, ParkResume(p.q, p.m)).queues, CondQ(c));
      assert q[|q| - 1] == s.cpu.current;
    }
  }

  lemma StepReleases(s: State, call: Call, keyReady: bool, c: nat, m: nat)
    requires Here(s) && Releasing(s.pc[s.cpu.current], c, m)
    requires Step(s, call, keyReady).Ok? && Consistent(Step(s, call, keyReady).s)
    ensures ReleasesOn(s, Step(s, call, keyReady).s, c, m)
  {
    var p := s.pc[s.cpu.current];
    if p.ParkDisable? || p.ParkPreempt? || p.ParkWait? {
      assert Step(s, call, keyReady) == ParkStep(s);
      ParkReleases(s, c, m);
    } else if p.UnlockWake? {
      UnlockWakeReleases(s, c, m);
    } else {
      assert Step(s, call, keyReady) == UnlockStep(s);
      UnlockReleases(s, c, m);
    }
  }

  /** cond_wait releases the mutex and waits in one go: from the store that frees the mutex until the
      thread is on the condition's queue no other thread runs, so none can take the mutex first. */
  lemma CondWaitAtomic(s: State, e: Event, s': State, c: nat, m: nat)
    requires Reachable(s) && IsStep(s, e, s') && Releasing(s.pc[s.cpu.current], c, m)
    ensures ReleasesOn(s, s', c, m)
  {
    assert Inv(s) by { ReachableInv(s); }
    assert Here(s) by { InvHere(s); }
    assert Consistent(s') by { StepKeeps(s, e, s'); InvConsistent(s'); }
    match e
    case Timer => TimerInside(s);
    case Key(printable) => KeyInside(s, printable);
    case Run(call, keyReady) => StepReleases(s, call, keyReady, c, m);
  }

  /** Interrupts while g_preemption is clear: the thread stays where it is. */
  lemma TimerInside(s: State)
    requires Consistent(s) && !s.cpu.preempt
    ensures var o := InterruptReturn(Tick(s));
            o.Ok? && o.s.pc == s.pc && o.s.held == s.held && o.s.cpu.current == s.cpu.current
  {
  }

  lemma KeyInside(s: State, printable: bool)
    requires Inv(s) && Consistent(s) && s.cpu.ints && !s.cpu.preempt
    ensures var o := Next(s, Key(printable));
            o.Ok? && o.s.pc == s.pc && o.s.held == s.held && o.s.cpu.current == s.cpu.current
  {
    if printable {
      WakeAllKeeps(s);
    }
  }

  /** thread_wait puts the thread at the end of the queue. */
  lemma WaitJoinsQueue(s: State, q: QueueId, p: Pc)
    requires Consistent(s) && q != RunQ && WaitOn(Goto(s, p), q).Ok?
    ensures var s' := WaitOn(Goto(s, p), q).s;
            Q(s'.queues, q) == Q(s.queues, q) + [s.cpu.current] && s.cpu.current in s'.pc && s'.pc[s.cpu.current] == p
  {
    assert WaitOn(Goto(s, p), q) == Dispatch(Parked(s, q, p), false);
  }

  lemma ParkWaitJoins(s: State, q: QueueId, m: nat)
    requires Here(s) && s.pc[s.cpu.current] == ParkWait(q, m) && ParkStep(s).Ok?
    ensures s.cpu.preempt && !s.cpu.ints && (q == MutexQ(m) || q.CondQ?)
    ensures Q(ParkStep(s).s.queues, q) == Q(s.queues, q) + [s.cpu.current]
  {
    WaitJoinsQueue(s, q, ParkResume(q, m));
  }

  /** thread_park waits with preemption enabled and interrupts disabled, on the queue of the mutex or of a
      condition, at its end. */
  lemma ParkJoinsQueue(s: State, q: QueueId, m: nat)
    requires Reachable(s) && Consistent(s) && s.pc[s.cpu.current] == ParkWait(q, m)
    ensures s.cpu.preempt && !s.cpu.ints && (q == MutexQ(m) || q.CondQ?)
    ensures ParkStep(s).Ok? && Q(ParkStep(s).s.queues, q) == Q(s.queues, q) + [s.cpu.current]
  {
    assert Here(s) && ParkStep(s).Ok? by {
      ReachableInv(s);
      InvHere(s);
      ParkWaitKeeps(s, q, m);
    }
    ParkWaitJoins(s, q, m);
  }

  /** A parent that finds its child not exited waits at the end of the child's queue, to test again. */
  lemma JoinJoinsQueue(s: State, ch: Tid)
    requires Reachable(s) && Consistent(s) && s.pc[s.cpu.current] == JoinTest(ch) && ch in s.sched
    requires s.sched[ch].state != EXITED
    ensures JoinStep(s).Ok? && Q(JoinStep(s).s.queues, JoinQ(ch)) == Q(s.queues, JoinQ(ch)) + [s.cpu.current]
    ensures s.cpu.current in JoinStep(s).s.pc && JoinStep(s).s.pc[s.cpu.current] == JoinTest(ch)
  {
    assert JoinStep(s).Ok? by {
      ReachableInv(s);
      JoinTestKeeps(s, ch);
    }
    assert Goto(s, JoinTest(ch)) == s;
    WaitJoinsQueue(s, JoinQ(ch), JoinTest(ch));
  }

  // ------------------------------------------------------------------- who wakes whom

  /** Each thread stays a job or not, with the arrival noted when it was created. */
  ghost predicate ArrivalsKept(times: map<Tid, Times>, times': map<Tid, Times>) {
    forall t {:trigger times'[t]} :: t in times ==>
      t in times' && times'[t].job == times[t].job && times'[t].arrival == times[t].arrival
  }

  /** Of the work scheduled and done, and of when jobs were created, nothing is forgotten. */
  ghost predicate HistoryKept(s: State, s': State) {
    s.work.log <= s'.work.log && s.work.done <= s'.work.done && ArrivalsKept(s.times, s'.times)
  }

  ghost predicate Untouched(s: State, s': State, q: QueueId) {
    Q(s'.queues, q) == Q(s.queues, q) && HistoryKept(s, s')
  }

  /** Nobody has left q, and only the current thread may have joined it, at the end; but new jobs may
      have been put among those on the new queue. */
  ghost predicate Steady(s: State, s': State, q: QueueId) {
    && (if q == NewQ then forall t :: t in Q(s.queues, q) ==> t in Q(s'.queues, q)
        else Q(s'.queues, q) == Q(s.queues, q) || Q(s'.queues, q) == Q(s.queues, q) + [s.cpu.current])
    && HistoryKept(s, s')
  }

  /** The statement of thread t that takes threads off queue q. */
  predicate TakesOff(t: Tid, p: Pc, q: QueueId) {
    match q
    case RunQ => true
    case NewQ => p.MergeMove?
    case MutexQ(m) => p.UnlockWake? && p.m == m
    case CondQ(c) => p == SignalWake(c) || p == BroadcastWake(c)
    case JoinQ(ch) => p.ExitWake? && t == ch
    case EventQ => p.ExitDetach? || p.JoinDetach?
  }

  lemma InsertAtKeeps(ts: seq<Tid>, k: nat, x: Tid)
    requires k <= |ts|
    ensures forall t :: t in ts ==> t in InsertAt(ts, k, x)
  {
    InsertAtMembers(ts, k, x);
  }

  lemma WakeSteady(s: State, q: QueueId, r: QueueId)
    requires q != r && q != RunQ && r != RunQ
    ensures Untouched(s, WakeOne(s, q), r)
  {
  }

  lemma DispatchSteady(s1: State, saved: bool, q: QueueId)
    requires s1.cpu.current in s1.iflag && Dispatch(s1, saved).Ok? && q != RunQ
    ensures Untouched(s1, Dispatch(s1, saved).s, q)
  {
  }

  lemma WaitSteady(s: State, r: QueueId, p: Pc, q: QueueId)
    requires Consistent(s) && q != RunQ && WaitOn(Goto(s, p), r).Ok?
    ensures Steady(s, WaitOn(Goto(s, p), r).s, q)
  {
    assert WaitOn(Goto(s, p), r) == Dispatch(Parked(s, r, p), false);
    DispatchSteady(Parked(s, r, p), false, q);
  }

  lemma RequeueSteady(s: State, saved: bool, q: QueueId)
    requires Consistent(s) && q != RunQ && Requeue(s, saved).Ok?
    ensures Untouched(s, Requeue(s, saved).s, q)
  {
    DispatchSteady(MakeRunnable(Relinquish(s), s.cpu.current), saved, q);
  }

  lemma LockSteady(s: State, q: QueueId)
    requires Consistent(s) && LockStep(s).Ok?
    ensures Steady(s, LockStep(s).s, q)
  {
  }

  lemma ParkSteady(s: State, q: QueueId)
    requires Consistent(s) && ParkStep(s).Ok? && q != RunQ
    ensures Steady(s, ParkStep(s).s, q)
  {
    var p := s.pc[s.cpu.current];
    if p.ParkWait? {
      WaitSteady(s, p.q, ParkResume(p.q, p.m), q);
    }
  }

  lemma UnlockSteady(s: State, q: QueueId)
    requires Consistent(s) && UnlockStep(s).Ok? && !TakesOff(s.cpu.current, s.pc[s.cpu.current], q)
    ensures Steady(s, UnlockStep(s).s, q)
  {
    var p := s.pc[s.cpu.current];
    if p.UnlockWake? {
      WakeSteady(s, MutexQ(p.m), q);
    }
  }

  lemma YieldSteady(s: State, q: QueueId)
    requires Consistent(s) && SignalStep(s).Ok? && s.pc[s.cpu.current] == YieldSwitch && q != RunQ
    ensures Steady(s, SignalStep(s).s, q)
  {
    RequeueSteady(Goto(s, IntsOn), false, q);
  }

  lemma SignalWakeSteady(s: State, q: QueueId)
    requires Consistent(s) && SignalStep(s).Ok? && !TakesOff(s.cpu.current, s.pc[s.cpu.current], q)
    requires s.pc[s.cpu.current].SignalWake? || s.pc[s.cpu.current].BroadcastWake?
    ensures Steady(s, SignalStep(s).s, q)
  {
    WakeSteady(s, CondQ(s.pc[s.cpu.current].c), q);
  }

  lemma SignalSteady(s: State, q: QueueId)
    requires Consistent(s) && SignalStep(s).Ok? && !TakesOff(s.cpu.current, s.pc[s.cpu.current], q)
    ensures Steady(s, SignalStep(s).s, q)
  {
    var p := s.pc[s.cpu.current];
    if p.SignalWake? || p.BroadcastWake? {
      SignalWakeSteady(s, q);
    } else if p.YieldSwitch? {
      YieldSteady(s, q);
    } else {
      assert SignalStep(s).s == s.(cpu := SignalStep(s).s.cpu, pc := SignalStep(s).s.pc);
    }
  }

  lemma DetachSteady(s: State, t: Tid, p: Pc, q: QueueId)
    requires Consistent(s) && t in s.refs && Then(Detach(s, t), p).Ok? && q != EventQ && q != RunQ
    ensures Untouched(s, Then(Detach(s, t), p).s, q)
  {
    DetachIs(s, t, p);
    WakeSteady(s, EventQ, q);
  }

  lemma ExitSteady(s: State, q: QueueId)
    requires Here(s) && ExitStep(s).Ok? && !TakesOff(s.cpu.current, s.pc[s.cpu.current], q)
    ensures Steady(s, ExitStep(s).s, q)
  {
    var p := s.pc[s.cpu.current];
    if p.ExitDetach? {
      DetachSteady(s, s.cpu.current, ExitMark, q);
    } else if p.ExitWake? {
      WakeSteady(s, JoinQ(s.cpu.current), q);
    } else if p.ExitSwitch? {
      ExitSwitchIs(s);
      DispatchSteady(Ended(s), false, q);
    }
  }

  lemma JoinSteady(s: State, q: QueueId)
    requires Here(s) && JoinStep(s).Ok? && !TakesOff(s.cpu.current, s.pc[s.cpu.current], q)
    ensures Steady(s, JoinStep(s).s, q)
  {
    var p := s.pc[s.cpu.current];
    if p.JoinTest? {
      assert Goto(s, p) == s;
      if JoinStep(s) == WaitOn(s, JoinQ(p.child)) {
        WaitSteady(s, JoinQ(p.child), p, q);
      }
    } else if p.JoinDetach? {
      var s1 := s.(refs := s.refs[p.child := s.refs[p.child].(joined := true)]);
      DetachSteady(s1, p.child, IntsOn, q);
    } else if p.MergeMove? {
      WakeSteady(s, NewQ, q);
    }
  }

  lemma WorkSteady(s: State, keyReady: bool, q: QueueId)
    requires Here(s) && WorkStep(s, keyReady).Ok? && q != RunQ
    ensures Steady(s, WorkStep(s, keyReady).s, q)
  {
    var p := s.pc[s.cpu.current];
    if (p.KeyTest? && !keyReady) || (p.WorkTest? && s.work.items == []) {
      EventWaitIs(s, keyReady);
      assert Goto(s, p) == s;
      WaitSteady(s, EventQ, p, q);
    }
  }

  lemma NewThreadSteady(s: State, t: Tid, r: QueueId, k: nat, v: Sched, refs: Refs, m: Times, q: QueueId)
    requires t !in s.times && q != RunQ && (r == RunQ || r == NewQ) && k <= |Q(s.queues, r)|
    ensures Steady(s, WithThread(s, t, r, k, v, refs, m), q)
  {
    InsertAtKeeps(Q(s.queues, r), k, t);
  }

  lemma CallSteady(s: State, call: Call, q: QueueId)
    requires Consistent(s) && CallStep(s, call).Ok? && q != RunQ
    requires call.Create? || call.CreateJob? ==> call.t !in s.pc && call.t !in s.times
    ensures Steady(s, CallStep(s, call).s, q)
  {
    match call
    case Create(t, attached) =>
      CreateIs(s, t, attached);
      var arrival := if s.clock.ticks > 0 then s.clock.ticks else 1;
      NewThreadSteady(s, t, RunQ, CreateAt(s, t), Sched(READY, In(RunQ), DEFAULT_PRIORITY), NewRefs(s, attached),
                      Times(0, false, arrival, 0, 0, None, 0), q);
    case CreateJob(t, attached, burst, priority) =>
      CreateJobIs(s, t, attached, burst, priority);
      var p := JobPriority(s.clock.policy, burst, priority);
      NewThreadSteady(s, t, NewQ, CreateJobAt(s, t, p), Sched(NEW, In(NewQ), p), NewRefs(s, attached),
                      Times(0, true, s.clock.ticks, 0, 0, None, 0), q);
    case _ =>
  }

  lemma StepSteady(s: State, call: Call, keyReady: bool, q: QueueId)
    requires Here(s) && Allowed(s, Run(call, keyReady)) && Step(s, call, keyReady).Ok? && s.times.Keys == s.pc.Keys
    requires !TakesOff(s.cpu.current, s.pc[s.cpu.current], q)
    ensures Steady(s, Step(s, call, keyReady).s, q)
  {
    var p := s.pc[s.cpu.current];
    if p.User? {
      CallSteady(s, call, q);
    } else if p.LockEnter? || p.LockTest? || p.LockTake? || p.LockOwn? || p.PreemptOn? {
      LockSteady(s, q);
    } else if p.ParkDisable? || p.ParkPreempt? || p.ParkWait? || p.ParkResume? || p.ParkEnable? {
      ParkSteady(s, q);
    } else if p.UnlockEnter? || p.UnlockState? || p.UnlockOwner? || p.UnlockTest? || p.UnlockDisable?
        || p.UnlockWake? || p.UnlockEnable? {
      UnlockSteady(s, q);
    } else if p.ExitDisable? || p.ExitDetach? || p.ExitMark? || p.ExitWake? || p.ExitSwitch? {
      ExitSteady(s, q);
    } else if p.JoinDisable? || p.JoinTest? || p.JoinDetach? || p.MergeDisable? || p.MergeMove? {
      JoinSteady(s, q);
    } else if p.KeyDisable? || p.KeyTest? || p.WorkDisable? || p.WorkTest? || p.WorkTake? || p.WorkEnable?
        || p.WorkRun? {
      WorkSteady(s, keyReady, q);
    } else {
      SignalSteady(s, q);
    }
  }

  lemma {:induction false} WakeAllSteady(s: State, q: QueueId, r: QueueId)
    requires q != r && q != RunQ && r != RunQ
    ensures Untouched(s, WakeAll(s, q), r)
    decreases |Q(s.queues, q)|
  {
    if Q(s.queues, q) != [] && Q(s.queues, q)[0] in s.sched {
      WakeSteady(s, q, r);
      assert Q(WakeOne(s, q).queues, q) == Q(s.queues, q)[1..];
      WakeAllSteady(WakeOne(s, q), q, r);
    }
  }

  lemma ReturnSteady(s: State, q: QueueId)
    requires Consistent(s) && InterruptReturn(s).Ok? && q != RunQ
    ensures Untouched(s, InterruptReturn(s).s, q)
  {
    if s.cpu.preempt && s.cpu.resched {
      RequeueSteady(s.(cpu := s.cpu.(resched := false)), true, q);
    }
  }

  /** No thread is woken by accident: a thread leaves a queue it waits on only by the wake-up meant for
      that queue: the unlock of its mutex, a signal or broadcast of its condition, the exit of its
      child, the merge of new jobs; or, waiting for events, a key or a thread to destroy. */
  lemma NoAccidentalWakeup(s: State, e: Event, s': State, q: QueueId, t: Tid)
    requires Reachable(s) && IsStep(s, e, s') && q != RunQ
    requires t in Q(s.queues, q) && t !in Q(s'.queues, q)
    ensures (e.Run? && TakesOff(s.cpu.current, s.pc[s.cpu.current], q)) || (q == EventQ && e.Key?)
  {
    assert Here(s) && s.times.Keys == s.pc.Keys by { ReachableInv(s); InvHere(s); }
    match e
    case Timer => ReturnSteady(Tick(s), q);
    case Key(printable) =>
      if printable && q != EventQ {
        WakeAllSteady(s, EventQ, q);
        var s1 := WakeAll(s, EventQ);
        ReturnSteady(s1.(cpu := s1.cpu.(resched := true)), q);
      } else if !printable {
        ReturnSteady(s, q);
      }
    case Run(call, keyReady) =>
      if !TakesOff(s.cpu.current, s.pc[s.cpu.current], q) {
        StepSteady(s, call, keyReady, q);
      }
  }

  lemma TickHistory(s: State)
    requires Consistent(s) && InterruptReturn(Tick(s)).Ok?
    ensures HistoryKept(s, InterruptReturn(Tick(s)).s)
  {
    ReturnSteady(Tick(s), NewQ);
  }

  lemma KeyHistory(s: State, printable: bool)
    requires Consistent(s) && Next(s, Key(printable)).Ok?
    ensures HistoryKept(s, Next(s, Key(printable)).s)
  {
    if printable {
      WakeAllSteady(s, EventQ, NewQ);
      var s1 := WakeAll(s, EventQ);
      ReturnSteady(s1.(cpu := s1.cpu.(resched := true)), NewQ);
    } else {
      ReturnSteady(s, NewQ);
    }
  }

  /** In no step is scheduled or finished work forgotten; so, with DestroyedOnceInOrder, over a whole
      run each thread is destroyed at most once. Nor does a job's arrival ever change. */
  lemma WorkHistoryGrows(s: State, e: Event, s': State)
    requires Reachable(s) && IsStep(s, e, s')
    ensures s.work.log <= s'.work.log && s.work.done <= s'.work.done && ArrivalsKept(s.times, s'.times)
  {
    assert Here(s) && s.times.Keys == s.pc.Keys by { ReachableInv(s); InvHere(s); }
    match e
    case Timer => TickHistory(s);
    case Key(printable) => KeyHistory(s, printable);
    case Run(call, keyReady) =>
      StepSteady(s, call, keyReady, if s.pc[s.cpu.current].MergeMove? then EventQ else NewQ);
  }

  /** The first of the queue has left it. */
  predicate FirstLeft(s: State, s': State, q: QueueId) {
    Q(s.queues, q) != [] && Q(s'.queues, q) == Q(s.queues, q)[1..]
  }

  lemma WakeFirst(s: State, q: QueueId)
    requires q != RunQ
    ensures Q(WakeOne(s, q).queues, q) == Q(s.queues, q) || FirstLeft(s, WakeOne(s, q), q)
  {
  }

  lemma DetachFirst(s: State, t: Tid, p: Pc)
    requires Consistent(s) && t in s.refs && Then(Detach(s, t), p).Ok?
    ensures var s' := Then(Detach(s, t), p).s; Q(s'.queues, EventQ) == Q(s.queues, EventQ) || FirstLeft(s, s', EventQ)
  {
    DetachIs(s, t, p);
    WakeFirst(s, EventQ);
  }

  lemma EventFirst(s: State, call: Call, keyReady: bool)
    requires Here(s) && Step(s, call, keyReady).Ok?
    requires (s.pc[s.cpu.current].ExitDetach? || s.pc[s.cpu.current].JoinDetach?)
    ensures var s' := Step(s, call, keyReady).s;
            Q(s'.queues, EventQ) == Q(s.queues, EventQ) || FirstLeft(s, s', EventQ)
  {
    var p := s.pc[s.cpu.current];
    if p.ExitDetach? {
      DetachFirst(s, s.cpu.current, ExitMark);
    } else {
      var s1 := s.(refs := s.refs[p.child := s.refs[p.child].(joined := true)]);
      DetachFirst(s1, p.child, IntsOn);
    }
  }

  lemma SyncFirst(s: State, call: Call, keyReady: bool, q: QueueId)
    requires Consistent(s) && Step(s, call, keyReady).Ok? && (q.MutexQ? || q.CondQ?)
    requires TakesOff(s.cpu.current, s.pc[s.cpu.current], q)
    ensures var s' := Step(s, call, keyReady).s; Q(s'.queues, q) == Q(s.queues, q) || FirstLeft(s, s', q)
  {
    WakeFirst(s, q);
  }

  lemma TakeFirst(s: State, call: Call, keyReady: bool, q: QueueId)
    requires Here(s) && Step(s, call, keyReady).Ok? && q != RunQ && q != NewQ
    requires TakesOff(s.cpu.current, s.pc[s.cpu.current], q)
    ensures var s' := Step(s, call, keyReady).s; Q(s'.queues, q) == Q(s.queues, q) || FirstLeft(s, s', q)
  {
    if q == EventQ {
      EventFirst(s, call, keyReady);
    } else if q.JoinQ? {
      assert Step(s, call, keyReady) == ExitStep(s);
      WakeFirst(s, q);
    } else {
      SyncFirst(s, call, keyReady, q);
    }
  }

  /** Nobody is overtaken in a wait queue. A step leaves it alone, or the thread that runs joins its end,
      or a wake-up meant for it takes the first off it, or a key empties the queue for events. */
  lemma FirstComeFirstWoken(s: State, e: Event, s': State, q: QueueId)
    requires Reachable(s) && IsStep(s, e, s') && q != RunQ && q != NewQ
    ensures || Q(s'.queues, q) == Q(s.queues, q)
            || (e.Run? && Q(s'.queues, q) == Q(s.queues, q) + [s.cpu.current])
            || (e.Run? && TakesOff(s.cpu.current, s.pc[s.cpu.current], q) && FirstLeft(s, s', q))
            || (e.Key? && q == EventQ && Q(s'.queues, q) == [])
  {
    assert Inv(s) && Here(s) by { ReachableInv(s); InvHere(s); }
    match e
    case Timer => ReturnSteady(Tick(s), q);
    case Key(printable) => KeyOrder(s, printable, s', q);
    case Run(call, keyReady) =>
      if TakesOff(s.cpu.current, s.pc[s.cpu.current], q) {
        TakeFirst(s, call, keyReady, q);
      } else {
        StepSteady(s, call, keyReady, q);
      }
  }

  lemma KeyOrder(s: State, printable: bool, s': State, q: QueueId)
    requires Inv(s) && IsStep(s, Key(printable), s') && q != RunQ && q != NewQ
    ensures Q(s'.queues, q) == Q(s.queues, q) || (q == EventQ && Q(s'.queues, q) == [])
  {
    if printable {
      var s1 := WakeAll(s, EventQ);
      if q == EventQ {
        WakeAllKeeps(s);
      } else {
        WakeAllSteady(s, EventQ, q);
      }
      ReturnSteady(s1.(cpu := s1.cpu.(resched := true)), q);
    } else {
      ReturnSteady(s, q);
    }
  }

  /** The first of q has left it and is ready on the run queue. */
  predicate FirstWoken(s: State, s': State, q: QueueId) {
    && FirstLeft(s, s', q)
    && var x := Q(s.queues, q)[0];
    x in s'.sched && s'.sched[x].state == READY && s'.sched[x].place == In(RunQ)
  }

  lemma WakeWakes(s: State, q: QueueId)
    requires q != RunQ && Q(s.queues, q) != [] && Q(s.queues, q)[0] in s.sched
    ensures FirstWoken(s, WakeOne(s, q), q)
  {
  }

  /** The reference about to be given up is the last to its thread. */
  predicate LastReference(s: State)
    requires Consistent(s)
  {
    match s.pc[s.cpu.current]
    case ExitDetach => s.refs[s.cpu.current].refcount == 1
    case JoinDetach(ch) => ch in s.refs && s.refs[ch].refcount == 1
    case _ => false
  }

  lemma DetachWakes(s: State, call: Call, keyReady: bool)
    requires Here(s) && Step(s, call, keyReady).Ok? && LastReference(s)
    requires Q(s.queues, EventQ) != [] && Q(s.queues, EventQ)[0] in s.sched
    ensures FirstWoken(s, Step(s, call, keyReady).s, EventQ)
  {
    var p := s.pc[s.cpu.current];
    if p.ExitDetach? {
      DetachIs(s, s.cpu.current, ExitMark);
    } else {
      DetachIs(s.(refs := s.refs[p.child := s.refs[p.child].(joined := true)]), p.child, IntsOn);
    }
    WakeWakes(s, EventQ);
  }

  lemma SyncWakes(s: State, call: Call, keyReady: bool, q: QueueId)
    requires Here(s) && Step(s, call, keyReady).Ok? && (q.MutexQ? || q.CondQ?)
    requires TakesOff(s.cpu.current, s.pc[s.cpu.current], q)
    requires Q(s.queues, q) != [] && Q(s.queues, q)[0] in s.sched
    ensures FirstWoken(s, Step(s, call, keyReady).s, q)
  {
    WakeWakes(s, q);
    if q.MutexQ? {
      assert Step(s, call, keyReady) == UnlockStep(s);
    } else {
      assert Step(s, call, keyReady) == SignalStep(s);
    }
  }

  lemma ExitWakes(s: State, call: Call, keyReady: bool)
    requires Consistent(s) && !s.cpu.ints && s.pc[s.cpu.current] == ExitWake && Q(s.queues, JoinQ(s.cpu.current)) != []
    ensures Step(s, call, keyReady) == Ok(WakeOne(s, JoinQ(s.cpu.current)))
  {
  }

  lemma MergeWakes(s: State, call: Call, keyReady: bool)
    requires Consistent(s) && s.pc[s.cpu.current] == MergeMove && Q(s.queues, NewQ) != []
    ensures Step(s, call, keyReady) == Ok(WakeOne(s, NewQ))
  {
  }

  /** The statement meant for a queue never fails to wake the first of it, if there is one; the end of
      thread_detach is such a statement if it gives up the last reference. */
  lemma FirstIsWoken(s: State, e: Event, s': State, q: QueueId)
    requires Reachable(s) && IsStep(s, e, s') && e.Run? && q != RunQ && Q(s.queues, q) != []
    requires TakesOff(s.cpu.current, s.pc[s.cpu.current], q) && (q == EventQ ==> LastReference(s))
    ensures FirstWoken(s, s', q)
  {
    assert Here(s) && Q(s.queues, q)[0] in s.sched by {
      ReachableInv(s);
      InvHere(s);
      WakePlaces(s, q, Some(s.cpu.current));
    }
    if q == EventQ {
      DetachWakes(s, e.call, e.keyReady);
    } else if q.MutexQ? || q.CondQ? {
      SyncWakes(s, e.call, e.keyReady, q);
    } else {
      WakeWakes(s, q);
      if q.JoinQ? {
        ExitWakes(s, e.call, e.keyReady);
      } else {
        MergeWakes(s, e.call, e.keyReady);
      }
    }
  }
}
