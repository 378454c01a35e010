/** The kernel with the assertion of list.h in force, that nothing is taken off an empty queue:
    thread_wakeup_one halts it where the machine of KernelSteps does nothing. */
module KernelAsserts {
  import opened Runs
  import opened KernelSteps
  import opened KernelInvariant
  import opened KernelRuns
  import opened KernelSafety

  /** thread_wakeup_one, whose first act is to take a thread off the queue. */
  function AssertedWake(s: State, q: QueueId): Outcome {
    if s.cpu.ints || Q(s.queues, q) == [] then Panic else Ok(WakeOne(s, q))
  }

  /** thread_detach */
  function AssertedDetach(s: State, t: Tid): Outcome
    requires t in s.refs
  {
    if s.cpu.ints || s.refs[t].refcount <= 0 then
      Panic
    else
      var s1 := s.(refs := s.refs[t := s.refs[t].(refcount := s.refs[t].refcount - 1)]);
      if s1.refs[t].refcount == 0 then
        AssertedWake(s1.(work := s1.work.(items := s1.work.items + [t], log := s1.work.log + [t])), EventQ)
      else
        Ok(s1)
  }

  /** The statements that call thread_wakeup_one without having looked at the queue. The others, in
      mutex_unlock_imp, in thread_wakeup and in the merge of new jobs, have seen that it is not empty. */
  function AssertedStep(s: State, call: Call, keyReady: bool): Outcome
    requires Consistent(s)
  {
    var t := s.cpu.current;
    match s.pc[t]
    case SignalWake(c) => Then(AssertedWake(s, CondQ(c)), IntsOn)
    case ExitDetach => Then(AssertedDetach(s, t), ExitMark)
    case JoinDetach(ch) =>
      if ch !in s.refs then Panic
      else Then(AssertedDetach(s.(refs := s.refs[ch := s.refs[ch].(joined := true)]), ch), IntsOn)
    case _ => Step(s, call, keyReady)
  }

  function AssertedNext(s: State, e: Event): Outcome
    requires Consistent(s)
  {
    match e
    case Run(call, keyReady) => AssertedStep(s, call, keyReady)
    case _ => Next(s, e)
  }

  /** The next statement wakes one of an empty queue: it signals a condition nobody waits on, or gives up
      the last reference to a thread while neither the workqueue thread nor a reader waits for events. */
  predicate WakesNobody(s: State, e: Event)
    requires Consistent(s)
  {
    var t := s.cpu.current;
    && e.Run?
    && match s.pc[t]
       case SignalWake(c) => Q(s.queues, CondQ(c)) == []
       case ExitDetach => s.refs[t].refcount == 1 && Q(s.queues, EventQ) == []
       case JoinDetach(ch) => ch in s.refs && s.refs[ch].refcount == 1 && Q(s.queues, EventQ) == []
       case _ => false
  }

  lemma AssertedDetachIs(s: State, t: Tid, p: Pc)
    requires t in s.refs
    ensures AssertedDetach(s, t) ==
            if s.refs[t].refcount == 1 && Q(s.queues, EventQ) == [] then Panic else Detach(s, t)
  {
  }

  lemma AssertedStepIs(s: State, call: Call, keyReady: bool)
    requires Consistent(s)
    ensures AssertedStep(s, call, keyReady) ==
            if WakesNobody(s, Run(call, keyReady)) then Panic else Step(s, call, keyReady)
  {
    var p := s.pc[s.cpu.current];
    if p.ExitDetach? {
      AssertedDetachIs(s, s.cpu.current, ExitMark);
    } else if p.JoinDetach? && p.child in s.refs {
      AssertedDetachIs(s.(refs := s.refs[p.child := s.refs[p.child].(joined := true)]), p.child, IntsOn);
    }
  }

  /** With the assertion in force the kernel does what it does without, except to halt at those
      statements. */
  lemma AssertedNextIs(s: State, e: Event)
    requires Consistent(s)
    ensures AssertedNext(s, e) == if WakesNobody(s, e) then Panic else Next(s, e)
  {
    if e.Run? {
      AssertedStepIs(s, e.call, e.keyReady);
    }
  }

  /** Every step keeps the invariant unless it wakes one of an empty queue, and then it halts the kernel. */
  lemma AssertedNextKeeps(s: State, e: Event)
    requires Inv(s) && Consistent(s) && Allowed(s, e)
    ensures AssertedNext(s, e).Panic? <==> WakesNobody(s, e)
    ensures !WakesNobody(s, e) ==> Inv(AssertedNext(s, e).s)
  {
    AssertedNextIs(s, e);
    NextKeeps(s, e);
  }

  /** In any reachable state, a KASSERT fails exactly when the next statement wakes one of an empty queue;
      no other KASSERT ever does. */
  lemma PanicsExactly(s: State, e: Event)
    requires Reachable(s) && Consistent(s) && Allowed(s, e)
    ensures AssertedNext(s, e).Panic? <==> WakesNobody(s, e)
  {
    AssertedNextIs(s, e);
    NoOtherPanic(s, e);
  }

  ghost predicate IsAssertedStep(s: State, e: Event, s': State) {
    Consistent(s) && Allowed(s, e) && AssertedNext(s, e) == Ok(s')
  }

  ghost predicate AssertedReachable(s: State) {
    Reaches(IsAssertedStep, Initial, s)
  }

  lemma AssertedStepIsStep(s: State, e: Event, s': State)
    requires IsAssertedStep(s, e, s')
    ensures IsStep(s, e, s')
  {
    AssertedNextIs(s, e);
  }

  /** Whatever is proved of reachable states holds with the assertion in force, as long as it has not
      halted the kernel. */
  lemma AssertedIsReachable(s: State)
    requires AssertedReachable(s)
    ensures Reachable(s)
  {
    forall s0: State | Initial(s0) ensures Reachable(s0) {
      InitialReachable(s0);
    }
    forall s0: State, e: Event, s1: State | Reachable(s0) && IsAssertedStep(s0, e, s1) ensures Reachable(s1) {
      AssertedStepIsStep(s0, e, s1);
      ReachableOn(s0, e, s1);
    }
    ReachesInvariant(IsAssertedStep, Initial, Reachable, s);
  }

  /** With the assertion in force too the kernel gets on, from every state it gets into, by every event but
      those. */
  lemma AssertedRunsOn(s: State, e: Event)
    requires AssertedReachable(s) && Consistent(s) && Allowed(s, e)
    ensures AssertedNext(s, e).Panic? <==> WakesNobody(s, e)
    ensures !WakesNobody(s, e) ==> AssertedReachable(AssertedNext(s, e).s)
  {
    AssertedIsReachable(s);
    PanicsExactly(s, e);
    if !WakesNobody(s, e) {
      ReachesOn(IsAssertedStep, Initial, s, e, AssertedNext(s, e).s);
    }
  }
}
