/** Inputs at which the code does not do what it is meant to: short runs from the kernel's first state,
    statement by statement. */
module KernelInputs {
  import opened Common
  import opened Runs
  import opened SchedulingOrder
  import opened KernelSteps
  import opened KernelPlaces
  import opened KernelTimes
  import opened KernelSafety
  import opened KernelCreate
  import opened KernelWaits
  import opened KernelOrder
  import opened KernelAsserts

  // --------------------------------------------------------- waking one of an empty queue

  /** Main at statement p, before anything else has happened. */
  predicate AtFirst(s: State, p: Pc) {
    && Consistent(s) && s.cpu == Cpu(MAIN, true, !IntsOff(p), false) && s.pc[MAIN] == p
    && s.queues == map[RunQ := [IDLE, WORKER]] && s.refs[MAIN].refcount == 1
  }

  lemma Calls(s: State, call: Call, p: Pc) returns (s': State)
    requires AtFirst(s, User) && ((call == Signal(0) && p == SignalDisable(0)) || (call == Exit && p == ExitDisable))
    ensures IsAssertedStep(s, Run(call, false), s') && AtFirst(s', p)
  {
    s' := Step(s, call, false).s;
  }

  lemma Disables(s: State, p: Pc) returns (s': State)
    requires AtFirst(s, if p == ExitDetach then ExitDisable else SignalDisable(0))
    requires p == ExitDetach || p == SignalWake(0)
    ensures IsAssertedStep(s, Run(Compute, false), s') && AtFirst(s', p)
  {
    s' := Step(s, Compute, false).s;
  }

  /** Main calls cond_signal, or thread_exit. */
  lemma TwoSteps(s: State, call: Call, p1: Pc, p2: Pc) returns (s2: State)
    requires Initial(s)
    requires || (call == Signal(0) && p1 == SignalDisable(0) && p2 == SignalWake(0))
             || (call == Exit && p1 == ExitDisable && p2 == ExitDetach)
    ensures AssertedReachable(s2) && AtFirst(s2, p2)
  {
    ReachesInit<State, Event>(IsAssertedStep, Initial, s);
    var s1 := Calls(s, call, p1);
    ReachesOn(IsAssertedStep, Initial, s, Run(call, false), s1);
    s2 := Disables(s1, p2);
    ReachesOn(IsAssertedStep, Initial, s1, Run(Compute, false), s2);
  }

  /** The kernel halts when a condition is signalled that nobody waits on. */
  lemma SignalHalts(s: State) returns (s2: State)
    requires Initial(s)
    ensures AssertedReachable(s2) && Consistent(s2) && Allowed(s2, Run(Compute, false))
    ensures s2.pc[s2.cpu.current] == SignalWake(0) && AssertedNext(s2, Run(Compute, false)).Panic?
  {
    s2 := TwoSteps(s, Signal(0), SignalDisable(0), SignalWake(0));
    assert WakesNobody(s2, Run(Compute, false));
    AssertedNextIs(s2, Run(Compute, false));
  }

  /** The kernel halts when a thread that nobody joins exits before the workqueue thread has begun to wait
      for work. */
  lemma ExitHalts(s: State) returns (s2: State)
    requires Initial(s)
    ensures AssertedReachable(s2) && Consistent(s2) && Allowed(s2, Run(Compute, false))
    ensures s2.pc[s2.cpu.current] == ExitDetach && AssertedNext(s2, Run(Compute, false)).Panic?
  {
    s2 := TwoSteps(s, Exit, ExitDisable, ExitDetach);
  }

  // ------------------------------------------------------------ a job without statistics

  /** A job that arrives at tick 0 has no statistics, now or ever: the KASSERTs of stat.c fail for it
      whenever its parent joins it. */
  lemma {:induction false} NeverStatistics(states: seq<State>, events: seq<Event>, t: Tid, i: nat)
    requires Follow(states, events) && Reachable(states[0]) && i < |states|
    requires t in states[0].times && states[0].times[t].arrival == 0
    ensures Reachable(states[i]) && t in states[i].times && states[i].times[t].arrival == 0
    ensures var m := states[i].times[t]; WaitTime(m) == None && TurnaroundTime(m) == None && ResponseTime(m) == None
  {
    if i > 0 {
      NeverStatistics(states, events, t, i - 1);
      ChainAt(IsStep, states, events, i - 1);
      ReachableOn(states[i - 1], events[i - 1], states[i]);
      WorkHistoryGrows(states[i - 1], events[i - 1], states[i]);
    }
  }

  // -------------------------------------------------------------- a thread out of order

  /** Main at statement p, with job 3 of priority 50 on queue q; the run queue is otherwise as it was. */
  predicate WithJob(s: State, p: Pc, q: QueueId) {
    && Consistent(s) && s.cpu.current == MAIN && s.pc == map[MAIN := p, IDLE := Start, WORKER := Start, 3 := Start]
    && s.cpu.preempt && s.cpu.ints == !IntsOff(p) && s.clock.policy == PRIORITY
    && s.sched.Keys == {MAIN, IDLE, WORKER, 3} && s.sched[3].priority == 50
    && s.sched[IDLE].priority == DEFAULT_PRIORITY && s.sched[WORKER].priority == DEFAULT_PRIORITY
    && Q(s.queues, RunQ) == (if q == RunQ then [3, IDLE, WORKER] else [IDLE, WORKER])
    && Q(s.queues, NewQ) == (if q == NewQ then [3] else [])
  }

  lemma ChoosesPriority(s: State) returns (s': State)
    requires Initial(s)
    ensures IsStep(s, Run(SetPolicy(PRIORITY, 0), false), s')
    ensures s' == s.(clock := s.clock.(policy := PRIORITY, quantum := 0))
  {
    SetPolicyIs(s, PRIORITY, 0);
    s' := Step(s, SetPolicy(PRIORITY, 0), false).s;
  }

  function NewJob(s: State): State
    requires s.queues == map[RunQ := [IDLE, WORKER]]
  {
    WithThread(s, 3, NewQ, 0, Sched(NEW, In(NewQ), 50), NewRefs(s, false), Times(0, true, 0, 0, 0, None, 0))
  }

  lemma NewJobIs(s: State, s1: State)
    requires Initial(s) && s1 == s.(clock := s.clock.(policy := PRIORITY, quantum := 0))
    ensures WithJob(NewJob(s1), User, NewQ)
  {
    assert InsertAt([], 0, 3) == [3];
  }

  lemma FirstJobIs(s: State)
    requires Consistent(s) && 3 !in s.pc && s.clock.policy == PRIORITY && s.clock.ticks == 0
    requires s.queues == map[RunQ := [IDLE, WORKER]]
    ensures CallStep(s, CreateJob(3, false, 0, 50)) == Ok(NewJob(s))
  {
    CreateJobIs(s, 3, false, 0, 50);
    assert CreateJobAt(s, 3, 50) == 0;
  }

  lemma CreatesJob(s: State, s1: State)
    requires Initial(s) && s1 == s.(clock := s.clock.(policy := PRIORITY, quantum := 0))
    ensures IsStep(s1, Run(CreateJob(3, false, 0, 50), false), NewJob(s1))
  {
    FirstJobIs(s1);
    assert s1.pc[s1.cpu.current] == User;
    assert Step(s1, CreateJob(3, false, 0, 50), false) == CallStep(s1, CreateJob(3, false, 0, 50));
  }

  lemma EntersMerge(s: State) returns (s': State)
    requires WithJob(s, User, NewQ)
    ensures IsStep(s, Run(Merge, false), s') && WithJob(s', MergeDisable, NewQ)
  {
    s' := Step(s, Merge, false).s;
  }

  lemma DisablesInterrupts(s: State) returns (s': State)
    requires WithJob(s, MergeDisable, NewQ)
    ensures IsStep(s, Run(Compute, false), s') && WithJob(s', MergeMove, NewQ)
  {
    s' := Step(s, Compute, false).s;
  }

  /** The job goes ahead of the others. */
  lemma MovesJob(s: State) returns (s': State)
    requires WithJob(s, MergeMove, NewQ)
    ensures IsStep(s, Run(Compute, false), s') && WithJob(s', MergeMove, RunQ)
  {
    var others := Entries(s.sched, [IDLE, WORKER]);
    assert others[0].priority == 100 && others[1].priority == 100;
    assert Position(PRIORITY, s.sched, [IDLE, WORKER], 3) == 0;
    assert InsertAt([IDLE, WORKER], 0, 3) == [3, IDLE, WORKER];
    s' := Step(s, Compute, false).s;
  }

  lemma EndsMerge(s: State) returns (s': State)
    requires WithJob(s, MergeMove, RunQ)
    ensures IsStep(s, Run(Compute, false), s') && WithJob(s', IntsOn, RunQ)
  {
    s' := Step(s, Compute, false).s;
  }

  lemma EnablesInterrupts(s: State) returns (s': State)
    requires WithJob(s, IntsOn, RunQ)
    ensures IsStep(s, Run(Compute, false), s') && WithJob(s', User, RunQ)
  {
    s' := Step(s, Compute, false).s;
  }

  /** A job created before the first tick arrives at tick 0, and so has no statistics, now or ever
      (NeverStatistics). */
  lemma JobAtTickZero(s: State) returns (s2: State)
    requires Initial(s)
    ensures Reachable(s2) && 3 in s2.times && s2.times[3].job && s2.times[3].arrival == s2.clock.ticks == 0
    ensures WaitTime(s2.times[3]) == None && TurnaroundTime(s2.times[3]) == None && ResponseTime(s2.times[3]) == None
  {
    InitialReachable(s);
    var s1 := ChoosesPriority(s);
    ReachableOn(s, Run(SetPolicy(PRIORITY, 0), false), s1);
    s2 := NewJob(s1);
    CreatesJob(s, s1);
    ReachableOn(s1, Run(CreateJob(3, false, 0, 50), false), s2);
  }

  /** Main creates a job under priority scheduling and moves it to the run queue. */
  lemma JobReady(s: State) returns (s7: State)
    requires Initial(s)
    ensures Reachable(s7) && WithJob(s7, User, RunQ)
  {
    InitialReachable(s);
    var s1 := ChoosesPriority(s);
    ReachableOn(s, Run(SetPolicy(PRIORITY, 0), false), s1);
    var s2 := NewJob(s1);
    CreatesJob(s, s1);
    NewJobIs(s, s1);
    ReachableOn(s1, Run(CreateJob(3, false, 0, 50), false), s2);
    s7 := JobMerged(s2);
  }

  lemma JobMerged(s: State) returns (s': State)
    requires Reachable(s) && WithJob(s, User, NewQ)
    ensures Reachable(s') && WithJob(s', User, RunQ)
  {
    var s1 := EntersMerge(s);
    ReachableOn(s, Run(Merge, false), s1);
    var s2 := DisablesInterrupts(s1);
    ReachableOn(s1, Run(Compute, false), s2);
    var s3 := MovesJob(s2);
    ReachableOn(s2, Run(Compute, false), s3);
    var s4 := EndsMerge(s3);
    ReachableOn(s3, Run(Compute, false), s4);
    s' := EnablesInterrupts(s4);
    ReachableOn(s4, Run(Compute, false), s');
  }

  lemma JobsFirst(s: State)
    requires WithJob(s, User, RunQ)
    ensures Ordered(s.sched, s.queues)
    ensures var s' := CallStep(s, Create(4, false)).s;
            Q(s'.queues, RunQ) == [4, 3, IDLE, WORKER] && !Ordered(s'.sched, s'.queues)
  {
    CreateIs(s, 4, false);
    var ts, s' := [3, IDLE, WORKER], CallStep(s, Create(4, false)).s;
    var es := Entries(s.sched[4 := Sched(NEW, Gone, 0)], ts);
    assert es[0].priority == 50 && es[1].priority == 100 && es[2].priority == 100;
    assert CreateAt(s, 4) == 0;
    assert InsertAt(ts, 0, 4) == [4, 3, IDLE, WORKER];
    var es' := Entries(s'.sched, Q(s'.queues, RunQ));
    assert es'[0].priority == 100 && es'[1].priority == 50;
    var before := Entries(s.sched, ts);
    assert before[0].priority == 50 && before[1].priority == 100 && before[2].priority == 100;
  }

  /** With one ready job of priority 50, in a state the kernel can get into, thread_create breaks the
      order: the new thread, of priority 100, stands before the job. */
  lemma CreateDisorders(s: State) returns (before: State)
    requires Initial(s)
    ensures Reachable(before) && Consistent(before) && before.pc[before.cpu.current] == User
    ensures before.cpu.current != IDLE && 4 !in before.pc && before.clock.policy == PRIORITY
    ensures Ordered(before.sched, before.queues)
    ensures var s' := CallStep(before, Create(4, false)).s;
            Q(s'.queues, RunQ) == [4, 3, IDLE, WORKER] && !Ordered(s'.sched, s'.queues)
  {
    before := JobReady(s);
    JobsFirst(before);
  }
}
