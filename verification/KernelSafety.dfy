/** What the invariant says about every reachable state of the kernel. */
module KernelSafety {
  import opened Common
  import opened Runs
  import opened SchedulingOrder
  import opened KernelSteps
  import opened KernelPlaces
  import opened KernelSync
  import opened KernelLives
  import opened KernelTimes
  import opened KernelInvariant
  import opened KernelRuns

  // -------------------------------------------------------------------------- runs

  ghost predicate IsStep(s: State, e: Event, s': State) {
    Consistent(s) && Allowed(s, e) && Next(s, e) == Ok(s')
  }

  /** states are the states of a run from states[0]. */
  ghost predicate Follow(states: seq<State>, events: seq<Event>) {
    Chain(IsStep, states, events)
  }

  /** A state the kernel can get into by any interleaving of threads and interrupts. */
  ghost predicate Reachable(s: State) {
    Reaches(IsStep, Initial, s)
  }

  lemma StepKeeps(s: State, e: Event, s': State)
    requires Inv(s) && IsStep(s, e, s')
    ensures Inv(s')
  {
    NextKeeps(s, e);
  }

  lemma FollowKeeps(states: seq<State>, events: seq<Event>, i: nat)
    requires Follow(states, events) && Inv(states[0]) && i < |states|
    ensures Inv(states[i])
  {
    forall s: State, e: Event, s': State | Inv(s) && IsStep(s, e, s') ensures Inv(s') {
      StepKeeps(s, e, s');
    }
    ChainInvariant(IsStep, states, events, Inv, i);
  }

  lemma ReachableInv(s: State)
    requires Reachable(s)
    ensures Inv(s)
  {
    forall s0: State | Initial(s0) ensures Inv(s0) {
      InitialInv(s0);
    }
    forall s0: State, e: Event, s1: State | Inv(s0) && IsStep(s0, e, s1) ensures Inv(s1) {
      StepKeeps(s0, e, s1);
    }
    ReachesInvariant(IsStep, Initial, Inv, s);
  }

  lemma ReachableOn(s: State, e: Event, s': State)
    requires Reachable(s) && IsStep(s, e, s')
    ensures Reachable(s')
  {
    ReachesOn(IsStep, Initial, s, e, s');
  }

  lemma InitialReachable(s: State)
    requires Initial(s)
    ensures Reachable(s)
  {
    ReachesInit<State, Event>(IsStep, Initial, s);
  }

  /** Apart from the assertion of list.h that a queue is not empty (see KernelAsserts), no KASSERT fails in
      any run: from a reachable state every event leads to a reachable state. */
  lemma NoOtherPanic(s: State, e: Event)
    requires Reachable(s) && Consistent(s) && Allowed(s, e)
    ensures Next(s, e).Ok? && Reachable(Next(s, e).s)
  {
    ReachableInv(s);
    NextKeeps(s, e);
    ReachableOn(s, e, Next(s, e).s);
  }

  /** There is always something that may happen, and somebody to do it. */
  lemma SomebodyRuns(s: State)
    requires Reachable(s)
    ensures Consistent(s) && s.sched[s.cpu.current].state in {RUNNING, EXITED}
    ensures IDLE == s.cpu.current || IDLE in Q(s.queues, RunQ)
  {
    ReachableInv(s);
    assert PlaceOk(Some(s.cpu.current), s.pc, s.sched, s.queues, s.cpu.current);
    assert PlaceOk(Some(s.cpu.current), s.pc, s.sched, s.queues, IDLE);
  }

  // ----------------------------------------------------------------------- mutexes

  /** At most one thread is between lock and unlock of a mutex. */
  lemma MutualExclusion(s: State, t: Tid, u: Tid, m: nat)
    requires Reachable(s) && t in s.held && u in s.held && m in s.held[t] && m in s.held[u]
    ensures t == u
  {
    ReachableInv(s);
    assert HeldOk(s.pc, s.held, s.mutexes, t) && HeldOk(s.pc, s.held, s.mutexes, u);
  }

  /** A mutex is locked exactly when it has an owner, and the owner is the thread between lock and
      unlock of it; only the current thread can be between the two stores that make it so. */
  lemma LockedIffOwned(s: State, m: nat)
    requires Reachable(s) && Consistent(s)
    requires var p := s.pc[s.cpu.current]; p != LockOwn(m) && !(p.UnlockOwner? && p.m == m)
    ensures var mutex := MutexOf(s.mutexes, m);
            && (mutex.locked <==> mutex.owner.Some?)
            && forall t :: t in s.held ==> (m in s.held[t] <==> mutex.owner == Some(t))
  {
    ReachableInv(s);
    var c := s.cpu.current;
    assert MutexOk(s.pc[c], c, s.held, s.mutexes, m);
    forall t | t in s.held ensures m in s.held[t] <==> MutexOf(s.mutexes, m).owner == Some(t) {
      assert HeldOk(s.pc, s.held, s.mutexes, t);
    }
  }

  /** A thread that parks and comes back does not hold the mutex it is about to lock again, as
      mutex_lock_imp requires of cond_wait. */
  lemma NotHeldAgain(s: State, m: nat)
    requires Reachable(s) && Consistent(s)
    requires s.pc[s.cpu.current] == ParkEnable(m) || s.pc[s.cpu.current] == LockTest(m)
    ensures !IsHeld(s, m)
  {
    ReachableInv(s);
    IsHeldMeans(s, m);
    assert HeldOk(s.pc, s.held, s.mutexes, s.cpu.current);
  }

  /** A thread that has cleared g_preemption, or disabled interrupts other than to be switched away
      from, is the one that runs. */
  lemma AloneInside(s: State, t: Tid)
    requires Reachable(s) && t in s.pc
    requires PreemptOff(s.pc[t]) || (IntsOff(s.pc[t]) && !Resumes(s.pc[t]) && s.pc[t] != Dead)
    ensures t == s.cpu.current
    ensures PreemptOff(s.pc[t]) ==> !s.cpu.preempt
  {
    ReachableInv(s);
    assert FlagsOff(s.cpu.current, s.pc, s.iflag, t);
  }

  /** If a mutex is free and threads wait for it, somebody ready to run is bound to test it again, or
      to wake a waiter. */
  lemma NoWakeupLost(s: State, m: nat)
    requires Reachable(s) && !MutexOf(s.mutexes, m).locked && Q(s.queues, MutexQ(m)) != []
    ensures exists t :: t in s.pc && Attends(s.pc[t], m) && (t == s.cpu.current || t in Q(s.queues, RunQ))
  {
    ReachableInv(s);
    assert Attended(s.pc, s.sched, s.mutexes, s.queues, m);
    var t :| Rescuer(s.pc, s.sched, t, m);
    assert PlaceOk(Some(s.cpu.current), s.pc, s.sched, s.queues, t);
  }

  // ----------------------------------------------------------------------- places

  ghost predicate Somewhere(s: State, t: Tid) {
    t == s.cpu.current || exists q :: t in Q(s.queues, q)
  }

  /** In(q) says which queue a thread is on. */
  lemma PlaceIsQueue(s: State, t: Tid)
    requires Places(Some(s.cpu.current), s.pc, s.sched, s.queues) && t in s.pc && t in s.sched
    ensures forall q {:trigger Q(s.queues, q)} :: t in Q(s.queues, q) <==> s.sched[t].place == In(q)
    ensures s.sched[t].place == OnCpu <==> t == s.cpu.current
    ensures s.sched[t].place == Gone <==> s.pc[t] == Dead
    ensures s.sched[t].state == StateFor(s.sched[t].place, s.pc[t])
    ensures s.sched[t].place.In? ==> WaitsAt(s.sched[t].place.q, s.pc[t])
  {
    assert PlaceOk(Some(s.cpu.current), s.pc, s.sched, s.queues, t);
    forall q ensures t in Q(s.queues, q) ==> s.sched[t].place == In(q) {
      assert QueueOk(s.pc, s.sched, s.queues, q);
    }
  }

  /** Every thread that has not ended is current or on one queue, once; its state says which. */
  lemma ExactlyOnePlace(s: State, t: Tid)
    requires Reachable(s) && t in s.pc && t in s.sched
    ensures s.pc[t] != Dead <==> Somewhere(s, t)
    ensures forall q {:trigger Q(s.queues, q)} :: t in Q(s.queues, q) ==> t != s.cpu.current
    ensures forall q, r {:trigger Q(s.queues, q), Q(s.queues, r)} :: t in Q(s.queues, q) && t in Q(s.queues, r) ==>
             q == r
    ensures forall q, i, j {:trigger Q(s.queues, q)[i], Q(s.queues, q)[j]} ::
              0 <= i < j < |Q(s.queues, q)| ==> Q(s.queues, q)[i] != Q(s.queues, q)[j]
  {
    assert Places(Some(s.cpu.current), s.pc, s.sched, s.queues) by { ReachableInv(s); }
    PlaceIsQueue(s, t);
    forall q ensures forall i, j :: 0 <= i < j < |Q(s.queues, q)| ==> Q(s.queues, q)[i] != Q(s.queues, q)[j] {
      assert QueueOk(s.pc, s.sched, s.queues, q);
    }
    if s.pc[t] != Dead && t != s.cpu.current {
      assert t in Q(s.queues, s.sched[t].place.q);
    }
  }

  /** READY on the run queue and nowhere else, NEW on the new queue and nowhere else, EXITED at the
      end of thread_exit. */
  lemma StateTellsPlace(s: State, t: Tid)
    requires Reachable(s) && t in s.pc && t in s.sched
    ensures s.sched[t].state == READY <==> t in Q(s.queues, RunQ)
    ensures s.sched[t].state == NEW <==> t in Q(s.queues, NewQ)
    ensures s.sched[t].state == EXITED <==> Exited(s.pc[t])
  {
    assert Places(Some(s.cpu.current), s.pc, s.sched, s.queues) by { ReachableInv(s); }
    PlaceIsQueue(s, t);
  }

  /** RUNNING when current, but also when blocked. */
  lemma BlockedStaysRunning(s: State, t: Tid)
    requires Reachable(s) && t in s.pc && t in s.sched
    ensures s.sched[t].state == RUNNING <==>
              (t == s.cpu.current && !Exited(s.pc[t])) || (exists q :: q != RunQ && q != NewQ && t in Q(s.queues, q))
  {
    assert Places(Some(s.cpu.current), s.pc, s.sched, s.queues) by { ReachableInv(s); }
    PlaceIsQueue(s, t);
    if s.sched[t].state == RUNNING && t != s.cpu.current {
      assert t in Q(s.queues, s.sched[t].place.q);
    }
  }

  // ------------------------------------------------------------- references and joining

  /** The references to a thread are its own, until it exits, and its parent's, until it joins. */
  lemma ReferencesCounted(s: State, t: Tid)
    requires Reachable(s) && t in s.pc && t in s.refs
    ensures s.refs[t].refcount == (if SelfReleased(s.pc[t]) then 0 else 1) +
                                  (if s.refs[t].parent.Some? && !s.refs[t].joined then 1 else 0)
    ensures s.refs[t].refcount == 0 <==> t in s.work.log
  {
    ReachableInv(s);
    assert RefOk(s.pc, s.refs, s.work.log, t);
  }

  /** Destruction is scheduled at most once per thread, items are done in the order scheduled, and
      what is being destroyed has ended, has been let go by its parent, and is nowhere. */
  lemma DestroyedOnceInOrder(s: State)
    requires Reachable(s)
    ensures WORKER in s.pc && s.work.log == s.work.done + Inflight(s.pc[WORKER]) + s.work.items
    ensures forall i, j :: 0 <= i < j < |s.work.log| ==> s.work.log[i] != s.work.log[j]
    ensures forall t :: t in s.work.done + Inflight(s.pc[WORKER]) ==>
              && t in s.pc && s.pc[t] == Dead && t != s.cpu.current && !Somewhere(s, t)
              && t in s.refs && (s.refs[t].parent.Some? ==> s.refs[t].joined)
  {
    ReachableInv(s);
    forall t | t in s.work.done + Inflight(s.pc[WORKER])
      ensures t in s.pc && s.pc[t] == Dead && t != s.cpu.current && !Somewhere(s, t)
      ensures t in s.refs && (s.refs[t].parent.Some? ==> s.refs[t].joined)
    {
      assert t in s.work.log;
      assert RefOk(s.pc, s.refs, s.work.log, t);
      ExactlyOnePlace(s, t);
    }
  }

  /** A thread waits for its child only while the child has still to wake it; and a thread that lets
      its child go has seen it end. */
  lemma JoinNeverMisses(s: State, t: Tid, ch: Tid)
    requires Reachable(s) && t in s.pc
    ensures t in Q(s.queues, JoinQ(ch)) ==>
              && ch in s.pc && ch in s.refs && s.refs[ch].parent == Some(t)
              && !s.pc[ch].ExitSwitch? && !s.pc[ch].Dead? && s.refs[ch].refcount > 0
    ensures s.pc[t] == JoinDetach(ch) ==> ch in s.pc && s.pc[ch] == Dead
  {
    assert Lives(s.pc, s.sched, s.refs, s.work)
        && Places(Some(s.cpu.current), s.pc, s.sched, s.queues) by { ReachableInv(s); }
    PlaceIsQueue(s, t);
    assert WaiterOk(s.pc, s.sched, t) && JoinerOk(s.pc, s.refs, t) && RefOk(s.pc, s.refs, s.work.log, ch);
    assert t in Q(s.queues, JoinQ(ch)) || s.pc[t] == JoinDetach(ch) ==> Joins(s.pc[t], ch);
  }

  // --------------------------------------------------------------------------- ticks

  /** The ticks charged to all threads ever created, destroyed ones included, are all the ticks. */
  lemma TicksConserved(s: State, n: nat)
    requires Reachable(s) && Bounds(s.times, n)
    ensures SumRunning(s.times, n) == s.clock.ticks
  {
    ReachableInv(s);
  }

  /** What stat.c calculates for a job that has exited. */
  lemma JobStatistics(s: State, t: Tid)
    requires Reachable(s) && t in s.pc && t in s.times && Exited(s.pc[t]) && s.times[t].job
    ensures s.times[t].arrival + s.times[t].running + s.times[t].waited == s.times[t].termination <= s.clock.ticks
    ensures s.times[t].response.Some? ==> s.times[t].arrival <= s.times[t].response.value <= s.times[t].termination
    ensures s.times[t].termination - s.times[t].arrival < U32 && WaitTime(s.times[t]).Some? ==>
              WaitTime(s.times[t]).value == s.times[t].waited
    ensures s.times[t].termination - s.times[t].arrival < U32 ==>
              ResponseTime(s.times[t]).Some? && TurnaroundTime(s.times[t]).Some? ==>
              0 <= ResponseTime(s.times[t]).value <= TurnaroundTime(s.times[t]).value
  {
    assert TimesOk(s.cpu.current, s.pc, s.times, s.clock.ticks) by { ReachableInv(s); }
    assert TimeOk(s.cpu.current, s.pc, s.times, s.clock.ticks, t);
    if s.times[t].termination - s.times[t].arrival < U32 {
      StatisticsMean(s.cpu.current, s.pc, s.times, s.clock.ticks, t);
    }
  }

  /** When it can: the KASSERTs of stat.c hold for a job that has exited, while its times fit in 32 bits,
      exactly if it was created after the first tick and, for the wait, was charged a tick, and for the
      response, noted one. */
  lemma JobStatisticsExist(s: State, t: Tid)
    requires Reachable(s) && t in s.pc && t in s.times && Exited(s.pc[t]) && s.times[t].job
    requires s.times[t].termination < U32
    ensures WaitTime(s.times[t]).Some? <==> s.times[t].arrival > 0 && s.times[t].running > 0
    ensures TurnaroundTime(s.times[t]).Some? <==> s.times[t].arrival > 0
    ensures ResponseTime(s.times[t]).Some? <==> s.times[t].arrival > 0 && s.times[t].response.Some?
  {
    assert TimesOk(s.cpu.current, s.pc, s.times, s.clock.ticks) by { ReachableInv(s); }
    StatisticsExist(s.cpu.current, s.pc, s.times, s.clock.ticks, t);
  }
}
