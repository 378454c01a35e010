/** Every reachable state of the kernel, and every step out of it. */
module KernelInvariant {
  import opened Common
  import opened SchedulingOrder
  import opened KernelSteps
  import opened KernelPlaces
  import opened KernelSync
  import opened KernelLives
  import opened KernelTimes

  ghost predicate Inv(s: State) {
    && s.pc.Keys == s.iflag.Keys
    && Flags(s.cpu, s.pc, s.iflag)
    && Roles(s.pc)
    && Places(Some(s.cpu.current), s.pc, s.sched, s.queues)
    && Sync(s.cpu.current, s.pc, s.held, s.mutexes, s.queues)
    && NoLostWakeup(s.pc, s.sched, s.mutexes, s.queues)
    && Lives(s.pc, s.sched, s.refs, s.work)
    && TimesOk(s.cpu.current, s.pc, s.times, s.clock.ticks)
  }

  lemma InvConsistent(s: State)
    requires Inv(s)
    ensures Consistent(s)
  {
  }

  lemma InitialPlaces(s: State)
    requires Initial(s)
    ensures Flags(s.cpu, s.pc, s.iflag) && Roles(s.pc) && Places(Some(MAIN), s.pc, s.sched, s.queues)
  {
    forall t ensures FlagsOff(s.cpu.current, s.pc, s.iflag, t) {}
    forall t ensures Role(s.pc, t) {}
    forall t ensures PlaceOk(Some(MAIN), s.pc, s.sched, s.queues, t) {
      assert s.queues[RunQ][0] == IDLE && s.queues[RunQ][1] == WORKER;
    }
    forall q ensures QueueOk(s.pc, s.sched, s.queues, q) {}
  }

  lemma InitialSync(s: State)
    requires Initial(s)
    ensures Sync(MAIN, s.pc, s.held, s.mutexes, s.queues) && NoLostWakeup(s.pc, s.sched, s.mutexes, s.queues)
  {
    forall t ensures HeldOk(s.pc, s.held, s.mutexes, t) {}
    forall m ensures MutexOk(User, MAIN, s.held, s.mutexes, m) {}
    forall m ensures Attended(s.pc, s.sched, s.mutexes, s.queues, m) {}
  }

  lemma InitialLives(s: State)
    requires Initial(s)
    ensures Lives(s.pc, s.sched, s.refs, s.work)
  {
    forall t ensures RefOk(s.pc, s.refs, s.work.log, t) {}
    forall t ensures JoinerOk(s.pc, s.refs, t) {}
    forall t ensures WaiterOk(s.pc, s.sched, t) {}
  }

  lemma InitialInv(s: State)
    requires Initial(s)
    ensures Inv(s)
  {
    InitialPlaces(s);
    InitialSync(s);
    InitialLives(s);
    forall t ensures TimeOk(MAIN, s.pc, s.times, 0, t) {}
    forall n | Bounds(s.times, n) ensures SumRunning(s.times, n) == 0 {
      NothingRun(s.times, n);
    }
  }

  lemma {:induction false} NothingRun(times: map<Tid, Times>, n: nat)
    requires forall t :: t in times ==> times[t].running == 0
    ensures SumRunning(times, n) == 0
  {
    if n != 0 {
      NothingRun(times, n - 1);
    }
  }

  // ----------------------------------------------------------- steps that only move on

  /** What holds of the thread that runs, without reference to any other. */
  ghost predicate Here(s: State) {
    && Consistent(s)
    && var c := s.cpu.current;
    var p := s.pc[c];
    && s.cpu.preempt == !PreemptOff(p) && s.cpu.ints == !IntsOff(p) && p != Dead
    && Role(s.pc, c)
    && HeldAt(p, s.held[c]) && CurrentOk(p, s.mutexes, s.queues)
    && s.sched[c].place == OnCpu && s.sched[c].state == (if Exited(p) then EXITED else RUNNING)
    && (p == WorkTake ==> s.work.items != [])
  }

  lemma InvHere(s: State)
    requires Inv(s)
    ensures Here(s)
  {
    var c := s.cpu.current;
    assert Role(s.pc, c);
    assert PlaceOk(Some(c), s.pc, s.sched, s.queues, c);
    assert HeldOk(s.pc, s.held, s.mutexes, c);
  }

  /** MUTEX_IS_HELD says whether the current thread is between lock and unlock. */
  lemma IsHeldMeans(s: State, m: nat)
    requires Inv(s)
    ensures Consistent(s) && (IsHeld(s, m) <==> m in s.held[s.cpu.current])
    ensures s.pc[s.cpu.current] == LockTake(m) ==> MutexOf(s.mutexes, m) == Mutex(false, None)
    ensures s.pc[s.cpu.current] == LockOwn(m) ==> MutexOf(s.mutexes, m) == Mutex(true, None)
    ensures s.pc[s.cpu.current].UnlockOwner? && s.pc[s.cpu.current].m == m ==> !MutexOf(s.mutexes, m).locked
  {
    var c := s.cpu.current;
    assert HeldOk(s.pc, s.held, s.mutexes, c);
    assert MutexOk(s.pc[c], c, s.held, s.mutexes, m);
  }

  /** Statement p can follow in a step that changes nothing but the two flags. */
  ghost predicate QuietTo(s: State, p: Pc)
    requires s.cpu.current in s.pc && s.cpu.current in s.held
  {
    var c := s.cpu.current;
    var was := s.pc[c];
    && Exited(p) == Exited(was) && p != Dead && !HalfDone(was) && !HalfDone(p)
    && Role(s.pc[c := p], c)
    && HeldAt(p, s.held[c]) && CurrentOk(p, s.mutexes, s.queues)
    && SelfReleased(p) == SelfReleased(was)
    && Inflight(p) == Inflight(was)
    && JoinerOk(s.pc[c := p], s.refs, c)
    && (p.ExitSwitch? ==> Unawaited(s.sched, c))
    && (p == WorkTake ==> s.work.items != [])
    && forall m {:trigger Attends(was, m)} :: Attends(was, m) && Stalled(s.mutexes, s.queues, m) ==> Attends(p, m)
  }

  lemma QuietPlaces(s: State, p: Pc)
    requires Inv(s) && s.cpu.current in s.pc && s.cpu.current in s.held && QuietTo(s, p)
    ensures var pc' := s.pc[s.cpu.current := p];
            Roles(pc') && Places(Some(s.cpu.current), pc', s.sched, s.queues)
  {
    RolesGoto(s.pc, s.cpu.current, p);
    PlacesGoto(s.cpu.current, s.pc, s.sched, s.queues, p);
  }

  lemma QuietSync(s: State, p: Pc)
    requires Inv(s) && s.cpu.current in s.pc && s.cpu.current in s.held && QuietTo(s, p)
    ensures Sync(s.cpu.current, s.pc[s.cpu.current := p], s.held, s.mutexes, s.queues)
    ensures NoLostWakeup(s.pc[s.cpu.current := p], s.sched, s.mutexes, s.queues)
  {
    var c := s.cpu.current;
    assert PlaceOk(Some(c), s.pc, s.sched, s.queues, c);
    SyncMove(c, s.pc, s.held, s.mutexes, s.queues, p, c, s.queues);
    NoLostWakeupStep(s.pc, s.sched, s.mutexes, s.queues, c, p, s.sched, s.mutexes, s.queues, c);
  }

  lemma QuietLives(s: State, p: Pc)
    requires Inv(s) && s.cpu.current in s.pc && s.cpu.current in s.held && QuietTo(s, p)
    ensures Lives(s.pc[s.cpu.current := p], s.sched, s.refs, s.work)
    ensures TimesOk(s.cpu.current, s.pc[s.cpu.current := p], s.times, s.clock.ticks)
  {
    var c := s.cpu.current;
    assert PlaceOk(Some(c), s.pc, s.sched, s.queues, c);
    LivesMove(s.pc, s.sched, s.refs, s.work, c, p, s.sched);
    TimesGoto(c, s.pc, s.times, s.clock.ticks, p);
  }

  /** The state after a quiet step to p. */
  function Moved(s: State, p: Pc): State {
    Goto(s.(cpu := s.cpu.(preempt := !PreemptOff(p), ints := !IntsOff(p))), p)
  }

  lemma Quiet(s: State, p: Pc)
    requires Inv(s) && s.cpu.current in s.pc && s.cpu.current in s.held && QuietTo(s, p)
    ensures Inv(Moved(s, p))
  {
    FlagsLocal(s.cpu, s.pc, s.iflag, p, s.cpu.(preempt := !PreemptOff(p), ints := !IntsOff(p)));
    QuietPlaces(s, p);
    QuietSync(s, p);
    QuietLives(s, p);
  }

  /** A quiet step: it leads to p and changes nothing else but the flags. */
  ghost predicate IsQuiet(s: State, o: Outcome, p: Pc)
    requires s.cpu.current in s.pc && s.cpu.current in s.held
  {
    QuietTo(s, p) && o == Ok(Moved(s, p))
  }

  lemma QuietKeeps(s: State, o: Outcome, p: Pc)
    requires Inv(s) && Consistent(s) && IsQuiet(s, o, p)
    ensures o.Ok? && Inv(o.s)
  {
    Quiet(s, p);
  }

  /** Only thread c changes place. */
  lemma OnlyMoved(sched: map<Tid, Sched>, c: Tid, v: Sched)
    ensures StayReady(sched, sched[c := v], c) && NoNewWaiter(sched, sched[c := v], c)
  {
    var sched' := sched[c := v];
    forall t | t != c && Ready(sched, t) ensures Ready(sched', t) {}
    forall t | t != c && WaitsForChild(sched', t)
        ensures WaitsForChild(sched, t) && sched'[t].place == sched[t].place {}
  }
}
