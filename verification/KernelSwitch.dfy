/** Steps that switch to another thread. */
module KernelSwitch {
  import opened Common
  import opened SchedulingOrder
  import opened KernelSteps
  import opened KernelPlaces
  import opened KernelSync
  import opened KernelLives
  import opened KernelTimes
  import opened KernelInvariant

  /** Because the idle thread is always current or ready, a switch always finds a thread to run. */
  lemma SomebodyReady(pc: map<Tid, Pc>, sched: map<Tid, Sched>, queues: map<QueueId, seq<Tid>>)
    requires Places(None, pc, sched, queues) && IDLE in pc
    ensures var ready := Q(queues, RunQ);
            ready != [] && ready[0] in pc && ready[0] in sched && sched[ready[0]].place == In(RunQ)
                && !Exited(pc[ready[0]])
  {
    assert PlaceOk(None, pc, sched, queues, IDLE);
    assert QueueOk(pc, sched, queues, RunQ);
    assert PlaceOk(None, pc, sched, queues, Q(queues, RunQ)[0]);
  }

  /** The thread that ran is at p, in the place it waits or goes to, and s1 is ready for a switch. */
  ghost predicate Left(s: State, p: Pc, s1: State) {
    var c := s.cpu.current;
    && Consistent(s) && Consistent(s1)
    && s1 == s.(cpu := s1.cpu, pc := s.pc[c := p], sched := s1.sched, queues := s1.queues, times := s1.times)
    && (s1.times == s.times[c := s.times[c].(numTicks := 0)] || (Exited(p) && s1.times == s.times))
    && s1.cpu == s.cpu.(resched := s1.cpu.resched)
    && Places(None, s1.pc, s1.sched, s1.queues)
    && StayReady(s.sched, s1.sched, c) && NoNewWaiter(s.sched, s1.sched, c)
    && forall m {:trigger Stalled(s.mutexes, s1.queues, m)} :: Stalled(s.mutexes, s1.queues, m) ==>
        Stalled(s.mutexes, s.queues, m)
  }

  /** Of the thread that ran: where it goes on when it runs again. */
  ghost predicate ResumesAt(s: State, p: Pc, sched1: map<Tid, Sched>)
    requires Consistent(s)
  {
    var c := s.cpu.current;
    var was := s.pc[c];
    && s.cpu.preempt && OffCpu(p) && Role(s.pc[c := p], c)
    && Exited(p) == Exited(was) && was != Dead
    && (p == Dead ==> was.ExitSwitch? && c != WORKER)
    && !p.ExitSwitch? && p != WorkTake
    && HeldAt(p, s.held[c]) && Inflight(p) == Inflight(was) && SelfReleased(p) == SelfReleased(was)
    && JoinerOk(s.pc[c := p], s.refs, c) && WaiterOk(s.pc[c := p], sched1, c)
  }

  lemma SwitchPlaces(pc: map<Tid, Pc>, sched: map<Tid, Sched>, queues: map<QueueId, seq<Tid>>)
    requires Places(None, pc, sched, queues) && IDLE in pc
    ensures var ready := Q(queues, RunQ);
            && ready != [] && ready[0] in sched
            && Places(Some(ready[0]), pc, sched[ready[0] := sched[ready[0]].(state := RUNNING, place := OnCpu)],
                      queues[RunQ := ready[1..]])
  {
    SomebodyReady(pc, sched, queues);
    var next := Q(queues, RunQ)[0];
    LeaveQueue(RunQ, None, pc, sched, queues);
    EnterCpu(next, pc, sched, queues[RunQ := Q(queues, RunQ)[1..]], sched[next].(state := RUNNING, place := OnCpu));
  }

  lemma SwitchSync(s: State, p: Pc, next: Tid, queues': map<QueueId, seq<Tid>>)
    requires Sync(s.cpu.current, s.pc, s.held, s.mutexes, s.queues)
    requires Flags(s.cpu, s.pc, s.iflag) && s.pc.Keys == s.iflag.Keys
    requires Consistent(s) && s.cpu.preempt && OffCpu(p) && HeldAt(p, s.held[s.cpu.current]) && next in s.pc
    ensures Sync(next, s.pc[s.cpu.current := p], s.held, s.mutexes, queues')
  {
    assert FlagsOff(s.cpu.current, s.pc, s.iflag, next);
    SyncMove(s.cpu.current, s.pc, s.held, s.mutexes, s.queues, p, next, queues');
  }

  /** The thread chosen was ready and stays so; the others are not touched. */
  lemma SwitchOthers(sched: map<Tid, Sched>, sched1: map<Tid, Sched>, c: Tid, next: Tid, v: Sched)
    requires StayReady(sched, sched1, c) && NoNewWaiter(sched, sched1, c) && v.place == OnCpu
    ensures StayReady(sched, sched1[next := v], c) && NoNewWaiter(sched, sched1[next := v], c)
  {
    var sched' := sched1[next := v];
    forall t | t != c && Ready(sched, t) ensures Ready(sched', t) {
      assert Ready(sched1, t);
    }
    forall t | t != c && WaitsForChild(sched', t) ensures WaitsForChild(sched, t) && sched'[t].place == sched[t].place {
      assert WaitsForChild(sched1, t);
    }
  }

  lemma SwitchIsNotLost(s: State, p: Pc, s1: State, sched': map<Tid, Sched>, queues': map<QueueId, seq<Tid>>)
    requires NoLostWakeup(s.pc, s.sched, s.mutexes, s.queues)
    requires Left(s, p, s1) && StayReady(s.sched, sched', s.cpu.current)
    requires forall m {:trigger Q(queues', MutexQ(m))} :: Q(queues', MutexQ(m)) == Q(s1.queues, MutexQ(m))
    requires !PreemptOff(s.pc[s.cpu.current]) && !s.pc[s.cpu.current].ParkResume?
    ensures NoLostWakeup(s1.pc, sched', s.mutexes, queues')
  {
    forall m | Stalled(s.mutexes, queues', m) ensures Stalled(s.mutexes, s.queues, m) {
      assert Stalled(s.mutexes, s1.queues, m);
    }
    NoLostWakeupStep(s.pc, s.sched, s.mutexes, s.queues, s.cpu.current, p, sched', s.mutexes, queues', s.cpu.current);
  }

  lemma SwitchLives(s: State, p: Pc, s1: State, sched': map<Tid, Sched>)
    requires Lives(s.pc, s.sched, s.refs, s.work)
    requires Left(s, p, s1) && ResumesAt(s, p, sched') && NoNewWaiter(s.sched, sched', s.cpu.current)
    ensures Lives(s1.pc, sched', s.refs, s.work)
  {
    LivesMove(s.pc, s.sched, s.refs, s.work, s.cpu.current, p, sched');
  }

  lemma SwitchTimes(s: State, p: Pc, s1: State, next: Tid)
    requires TimesOk(s.cpu.current, s.pc, s.times, s.clock.ticks)
    requires Left(s, p, s1) && Exited(p) == Exited(s.pc[s.cpu.current])
    ensures TimesOk(next, s1.pc, s1.times, s.clock.ticks)
  {
    var c := s.cpu.current;
    TimesMove(c, s.pc, s.times, s.clock.ticks, p, next, s1.times[c]);
    assert s.times[c := s1.times[c]] == s1.times;
  }

  /** The state after the switch to next. */
  function Switched(s1: State, saved: bool, next: Tid): State
    requires Consistent(s1) && next in s1.sched && next in s1.iflag && Q(s1.queues, RunQ) != []
  {
    s1.(queues := s1.queues[RunQ := Q(s1.queues, RunQ)[1..]],
        sched := s1.sched[next := s1.sched[next].(state := RUNNING, place := OnCpu)],
        iflag := s1.iflag[s1.cpu.current := saved],
        cpu := s1.cpu.(current := next, ints := s1.iflag[s1.cpu.current := saved][next]))
  }

  lemma SwitchedFlags(s: State, p: Pc, saved: bool, s1: State, next: Tid)
    requires Inv(s) && Left(s, p, s1) && ResumesAt(s, p, s1.sched) && (p != Dead ==> saved == !IntsOff(p))
    requires next in s1.sched && next in s1.pc && s1.pc[next] != Dead && Q(s1.queues, RunQ) != []
    ensures next in s1.iflag
    ensures var s' := Switched(s1, saved, next); Flags(s'.cpu, s'.pc, s'.iflag) && Roles(s'.pc)
  {
    FlagsSwitch(s.cpu, s.pc, s.iflag, p, saved, next);
    RolesGoto(s.pc, s.cpu.current, p);
  }

  lemma SwitchedOthers(s: State, p: Pc, saved: bool, s1: State, next: Tid)
    requires Inv(s) && Left(s, p, s1) && ResumesAt(s, p, s1.sched)
    requires next in s1.sched && next in s1.iflag && Q(s1.queues, RunQ) != []
    requires !s.pc[s.cpu.current].ParkResume? && !PreemptOff(s.pc[s.cpu.current])
    ensures var s' := Switched(s1, saved, next);
            NoLostWakeup(s'.pc, s'.sched, s'.mutexes, s'.queues) && Lives(s'.pc, s'.sched, s'.refs, s'.work)
  {
    var sched', queues' := Switched(s1, saved, next).sched, Switched(s1, saved, next).queues;
    SwitchOthers(s.sched, s1.sched, s.cpu.current, next, sched'[next]);
    SwitchIsNotLost(s, p, s1, sched', queues');
    SwitchLives(s, p, s1, sched');
  }

  lemma SwitchedSync(s: State, p: Pc, saved: bool, s1: State, next: Tid)
    requires Inv(s) && Left(s, p, s1) && ResumesAt(s, p, s1.sched)
    requires next in s1.sched && next in s1.pc && next in s1.iflag && Q(s1.queues, RunQ) != []
    ensures var s' := Switched(s1, saved, next);
            Sync(next, s'.pc, s'.held, s'.mutexes, s'.queues) && TimesOk(next, s'.pc, s'.times, s'.clock.ticks)
  {
    SwitchSync(s, p, next, Switched(s1, saved, next).queues);
    SwitchTimes(s, p, s1, next);
  }

  lemma SwitchedPlaces(s1: State, saved: bool)
    requires Consistent(s1) && Places(None, s1.pc, s1.sched, s1.queues) && IDLE in s1.pc && s1.pc.Keys == s1.iflag.Keys
    ensures var ready := Q(s1.queues, RunQ);
            && ready != [] && ready[0] in s1.sched && ready[0] in s1.iflag
            && var s' := Switched(s1, saved, ready[0]); Places(Some(ready[0]), s'.pc, s'.sched, s'.queues)
  {
    SwitchPlaces(s1.pc, s1.sched, s1.queues);
  }

  lemma SwitchedInv(s: State, p: Pc, saved: bool, s1: State, next: Tid)
    requires Inv(s) && Left(s, p, s1) && ResumesAt(s, p, s1.sched) && (p != Dead ==> saved == !IntsOff(p))
    requires !s.pc[s.cpu.current].ParkResume?
    requires Q(s1.queues, RunQ) != [] && next == Q(s1.queues, RunQ)[0] && next in s1.pc && next in s1.sched
    requires s1.pc[next] != Dead
    ensures next in s1.iflag && Inv(Switched(s1, saved, next))
  {
    assert next in s1.iflag && s1.pc.Keys == s1.iflag.Keys;
    var s' := Switched(s1, saved, next);
    assert Flags(s'.cpu, s'.pc, s'.iflag) && Roles(s'.pc) by { SwitchedFlags(s, p, saved, s1, next); }
    assert Places(Some(next), s'.pc, s'.sched, s'.queues) by { SwitchedPlaces(s1, saved); }
    SwitchedOthers(s, p, saved, s1, next);
    SwitchedSync(s, p, saved, s1, next);
  }

  /** A switch keeps the invariant, and there is always a thread to switch to. */
  lemma DispatchKeeps(s: State, p: Pc, saved: bool, s1: State)
    requires Inv(s) && Left(s, p, s1) && ResumesAt(s, p, s1.sched) && (p != Dead ==> saved == !IntsOff(p))
    requires !s.pc[s.cpu.current].ParkResume?
    ensures Dispatch(s1, saved).Ok? && Inv(Dispatch(s1, saved).s)
    ensures Q(s1.queues, RunQ) != [] && Dispatch(s1, saved).s.cpu.current == Q(s1.queues, RunQ)[0]
  {
    SomebodyReady(s1.pc, s1.sched, s1.queues);
    var next := Q(s1.queues, RunQ)[0];
    SwitchedInv(s, p, saved, s1, next);
    assert Dispatch(s1, saved) == Ok(Switched(s1, saved, next));
  }

  // ----------------------------------------------------------------- the ways to leave

  /** The state of a thread that waits on q, to go on at p, just before the switch. */
  function Parked(s: State, q: QueueId, p: Pc): State
    requires Consistent(s)
  {
    var c := s.cpu.current;
    var s1 := Relinquish(Goto(s, p));
    s1.(sched := s1.sched[c := s1.sched[c].(place := In(q))], queues := s1.queues[q := Q(s1.queues, q) + [c]])
  }

  lemma ParkedLeft(s: State, q: QueueId, p: Pc)
    requires Consistent(s) && Places(Some(s.cpu.current), s.pc, s.sched, s.queues)
    requires q != RunQ && q != NewQ && WaitsAt(q, p) && !Exited(p) && s.cpu.current != IDLE
    requires s.sched[s.cpu.current].state == RUNNING
    requires forall m :: q == MutexQ(m) ==> MutexOf(s.mutexes, m).locked
    ensures Left(s, p, Parked(s, q, p))
  {
    var c, ts := s.cpu.current, Q(s.queues, q);
    LeaveCpu(c, s.pc, s.sched, s.queues, p);
    EnterQueue(c, q, |ts|, None, s.pc[c := p], s.sched, s.queues, s.sched[c].(place := In(q)));
    assert InsertAt(ts, |ts|, c) == ts + [c];
    OnlyMoved(s.sched, c, s.sched[c].(place := In(q)));
  }

  lemma WaitKeeps(s: State, q: QueueId, p: Pc)
    requires Inv(s) && Here(s) && !s.cpu.ints && !Exited(p) && !s.pc[s.cpu.current].ParkResume?
    requires q != RunQ && q != NewQ && WaitsAt(q, p) && s.cpu.current != IDLE
    requires forall m :: q == MutexQ(m) ==> MutexOf(s.mutexes, m).locked
    requires ResumesAt(s, p, Parked(s, q, p).sched) && IntsOff(p)
    ensures WaitOn(Goto(s, p), q).Ok? && Inv(WaitOn(Goto(s, p), q).s)
  {
    ParkedLeft(s, q, p);
    DispatchKeeps(s, p, false, Parked(s, q, p));
  }

  /** The state of a thread that goes back on the run queue, to go on at p, just before the switch. */
  function Requeued(s: State, p: Pc): State
    requires Consistent(s)
  {
    MakeRunnable(Relinquish(Goto(s, p)), s.cpu.current)
  }

  lemma RequeuedLeft(s: State, p: Pc)
    requires Consistent(s) && Places(Some(s.cpu.current), s.pc, s.sched, s.queues) && !Exited(p)
    ensures Left(s, p, Requeued(s, p))
  {
    var c, v := s.cpu.current, s.sched[s.cpu.current].(state := READY, place := In(RunQ));
    LeaveCpu(c, s.pc, s.sched, s.queues, p);
    var k := Position(s.clock.policy, s.sched, Q(s.queues, RunQ), c);
    EnterQueue(c, RunQ, k, None, s.pc[c := p], s.sched, s.queues, v);
    OnlyMoved(s.sched, c, v);
  }

  lemma RequeueKeeps(s: State, p: Pc, saved: bool)
    requires Inv(s) && Here(s) && !Exited(p) && !s.pc[s.cpu.current].ParkResume? && !Exited(s.pc[s.cpu.current])
    requires ResumesAt(s, p, Requeued(s, p).sched) && saved == !IntsOff(p)
    ensures Requeue(Goto(s, p), saved).Ok? && Inv(Requeue(Goto(s, p), saved).s)
  {
    RequeuedLeft(s, p);
    DispatchKeeps(s, p, saved, Requeued(s, p));
  }

  // ------------------------------------------------------------ the steps that switch

  lemma ParkWaitResumes(s: State, q: QueueId, m: nat)
    requires Here(s) && s.pc[s.cpu.current] == ParkWait(q, m)
    ensures ResumesAt(s, ParkResume(q, m), Parked(s, q, ParkResume(q, m)).sched)
    ensures forall n :: q == MutexQ(n) ==> MutexOf(s.mutexes, n).locked
    ensures q.MutexQ? || q.CondQ?
    ensures WaitsAt(q, ParkResume(q, m))
  {
  }

  lemma ParkWaitKeeps(s: State, q: QueueId, m: nat)
    requires Inv(s) && Consistent(s) && s.pc[s.cpu.current] == ParkWait(q, m)
    ensures ParkStep(s).Ok? && Inv(ParkStep(s).s)
  {
    InvHere(s);
    ParkWaitResumes(s, q, m);
    WaitKeeps(s, q, ParkResume(q, m));
  }

  lemma WaitResumes(s: State, q: QueueId)
    requires Here(s) && JoinerOk(s.pc, s.refs, s.cpu.current)
    requires match s.pc[s.cpu.current]
             case JoinTest(ch) => q == JoinQ(ch) && ch in s.pc && s.pc[ch] != Dead && !s.pc[ch].ExitSwitch?
             case KeyTest => q == EventQ
             case WorkTest => q == EventQ
             case _ => false
    ensures ResumesAt(s, s.pc[s.cpu.current], Parked(s, q, s.pc[s.cpu.current]).sched)
    ensures Goto(s, s.pc[s.cpu.current]) == s && WaitsAt(q, s.pc[s.cpu.current]) && s.cpu.current != IDLE
  {
    assert s.pc[s.cpu.current := s.pc[s.cpu.current]] == s.pc;
  }

  lemma KeyWaitKeeps(s: State)
    requires Inv(s) && Consistent(s) && s.pc[s.cpu.current] == KeyTest
    ensures WaitOn(s, EventQ).Ok? && Inv(WaitOn(s, EventQ).s)
  {
    assert Here(s) by { InvHere(s); }
    assert JoinerOk(s.pc, s.refs, s.cpu.current);
    WaitResumes(s, EventQ);
    WaitKeeps(s, EventQ, KeyTest);
  }

  lemma WorkWaitKeeps(s: State)
    requires Inv(s) && Consistent(s) && s.pc[s.cpu.current] == WorkTest
    ensures WaitOn(s, EventQ).Ok? && Inv(WaitOn(s, EventQ).s)
  {
    assert Here(s) by { InvHere(s); }
    assert JoinerOk(s.pc, s.refs, s.cpu.current);
    WaitResumes(s, EventQ);
    WaitKeeps(s, EventQ, WorkTest);
  }

  /** Of the child of a thread about to test whether it has exited. */
  lemma ChildOf(s: State, ch: Tid)
    requires Consistent(s) && Joins(s.pc[s.cpu.current], ch)
    requires Lives(s.pc, s.sched, s.refs, s.work) && Places(Some(s.cpu.current), s.pc, s.sched, s.queues)
    requires Flags(s.cpu, s.pc, s.iflag) && s.pc.Keys == s.iflag.Keys
    ensures ch in s.refs && ch in s.sched && ch in s.pc && s.refs[ch].refcount > 0
    ensures s.refs[ch].parent == Some(s.cpu.current)
    ensures !s.refs[ch].joined
    ensures !s.pc[s.cpu.current].JoinDisable? ==> (s.sched[ch].state == EXITED <==> s.pc[ch] == Dead)
    ensures !s.pc[s.cpu.current].JoinDisable? ==> !s.pc[ch].ExitSwitch?
  {
    assert JoinerOk(s.pc, s.refs, s.cpu.current);
    assert RefOk(s.pc, s.refs, s.work.log, ch);
    assert PlaceOk(Some(s.cpu.current), s.pc, s.sched, s.queues, ch);
    assert FlagsOff(s.cpu.current, s.pc, s.iflag, ch);
  }

  lemma JoinTestKeeps(s: State, ch: Tid)
    requires Inv(s) && Consistent(s) && s.pc[s.cpu.current] == JoinTest(ch)
    requires ch in s.sched && s.sched[ch].state != EXITED
    ensures JoinStep(s).Ok? && Inv(JoinStep(s).s)
  {
    InvHere(s);
    ChildOf(s, ch);
    WaitResumes(s, JoinQ(ch));
    WaitKeeps(s, JoinQ(ch), JoinTest(ch));
  }

  lemma YieldResumes(s: State)
    requires Here(s) && s.pc[s.cpu.current] == YieldSwitch
    ensures ResumesAt(s, IntsOn, Requeued(s, IntsOn).sched)
    ensures SignalStep(s) == Requeue(Goto(s, IntsOn), false)
  {
  }

  lemma YieldSwitchKeeps(s: State)
    requires Inv(s) && Consistent(s) && s.pc[s.cpu.current] == YieldSwitch
    ensures SignalStep(s).Ok? && Inv(SignalStep(s).s)
  {
    InvHere(s);
    YieldResumes(s);
    RequeueKeeps(s, IntsOn, false);
  }

  lemma ReschedKeeps(s: State, resched: bool)
    requires Inv(s)
    ensures Inv(s.(cpu := s.cpu.(resched := resched)))
  {
    FlagsLocal(s.cpu, s.pc, s.iflag, s.pc[s.cpu.current], s.cpu.(resched := resched));
    assert s.pc[s.cpu.current := s.pc[s.cpu.current]] == s.pc;
  }

  lemma InterruptResumes(s: State)
    requires Here(s) && s.cpu.ints && s.cpu.preempt && JoinerOk(s.pc, s.refs, s.cpu.current)
    ensures ResumesAt(s, s.pc[s.cpu.current], Requeued(s, s.pc[s.cpu.current]).sched)
    ensures Goto(s, s.pc[s.cpu.current]) == s
  {
    assert s.pc[s.cpu.current := s.pc[s.cpu.current]] == s.pc;
  }

  lemma InterruptReturnKeeps(s: State)
    requires Inv(s) && Consistent(s) && s.cpu.ints
    ensures InterruptReturn(s).Ok? && Inv(InterruptReturn(s).s)
  {
    if s.cpu.preempt && s.cpu.resched {
      var s1 := s.(cpu := s.cpu.(resched := false));
      ReschedKeeps(s, false);
      InvHere(s1);
      InterruptResumes(s1);
      RequeueKeeps(s1, s1.pc[s1.cpu.current], true);
    }
  }

  function Ended(s: State): State
    requires Consistent(s)
  {
    Goto(s.(sched := s.sched[s.cpu.current := s.sched[s.cpu.current].(place := Gone)]), Dead)
  }

  lemma EndedLeft(s: State)
    requires Here(s) && Places(Some(s.cpu.current), s.pc, s.sched, s.queues) && s.pc[s.cpu.current] == ExitSwitch
    ensures Left(s, Dead, Ended(s)) && ResumesAt(s, Dead, Ended(s).sched)
  {
    var c, v := s.cpu.current, s.sched[s.cpu.current].(place := Gone);
    LeaveCpu(c, s.pc, s.sched, s.queues, Dead);
    GoneForGood(c, s.pc[c := Dead], s.sched, s.queues, v);
    OnlyMoved(s.sched, c, v);
  }

  lemma ExitSwitchIs(s: State)
    requires Here(s) && s.pc[s.cpu.current] == ExitSwitch
    ensures ExitStep(s) == Dispatch(Ended(s), false)
  {
  }

  lemma ExitSwitchKeeps(s: State)
    requires Inv(s) && Consistent(s) && s.pc[s.cpu.current] == ExitSwitch
    ensures ExitStep(s).Ok? && Inv(ExitStep(s).s)
  {
    InvHere(s);
    EndedLeft(s);
    ExitSwitchIs(s);
    DispatchKeeps(s, Dead, false, Ended(s));
  }
}
