/** Every step from a reachable state leads to a reachable state: no KASSERT fails, whatever the
    interleaving. */
module KernelRuns {
  import opened Common
  import opened SchedulingOrder
  import opened KernelSteps
  import opened KernelPlaces
  import opened KernelLives
  import opened KernelInvariant
  import opened KernelQuiet
  import opened KernelWake
  import opened KernelSwitch
  import opened KernelStores
  import opened KernelCreate

  ghost predicate Keeps(o: Outcome) {
    o.Ok? && Inv(o.s)
  }

  lemma LockEnterKeeps(s: State, m: nat)
    requires Inv(s) && Consistent(s) && s.pc[s.cpu.current] == LockEnter(m)
    ensures Keeps(LockStep(s))
  {
    InvHere(s);
    IsHeldMeans(s, m);
    LockEnterQuiet(s, m);
    QuietKeeps(s, LockStep(s), LockTest(m));
  }

  lemma LockTestKeeps(s: State, m: nat)
    requires Inv(s) && Consistent(s) && s.pc[s.cpu.current] == LockTest(m)
    ensures Keeps(LockStep(s))
  {
    InvHere(s);
    if MutexOf(s.mutexes, m).locked {
      LockTestBusy(s, m);
      QuietKeeps(s, LockStep(s), ParkDisable(MutexQ(m), m));
    } else {
      LockTestFree(s, m);
      QuietKeeps(s, LockStep(s), LockTake(m));
    }
  }

  lemma LockKeeps(s: State)
    requires Inv(s) && Consistent(s)
    requires var p := s.pc[s.cpu.current]; p.LockEnter? || p.LockTest? || p.LockTake? || p.LockOwn? || p.PreemptOn?
    ensures Keeps(LockStep(s))
  {
    var p := s.pc[s.cpu.current];
    if p.LockEnter? {
      LockEnterKeeps(s, p.m);
    } else if p.LockTest? {
      LockTestKeeps(s, p.m);
    } else if p.LockTake? {
      LockTakeKeeps(s, p.m);
    } else if p.LockOwn? {
      LockOwnKeeps(s, p.m);
    } else {
      InvHere(s);
      PreemptOnQuiet(s);
      QuietKeeps(s, LockStep(s), User);
    }
  }

  lemma ParkEarlyKeeps(s: State)
    requires Inv(s) && Consistent(s) && (s.pc[s.cpu.current].ParkDisable? || s.pc[s.cpu.current].ParkPreempt?)
    ensures Keeps(ParkStep(s))
  {
    InvHere(s);
    var p := s.pc[s.cpu.current];
    if p.ParkDisable? {
      ParkDisableQuiet(s, p.q, p.m);
      QuietKeeps(s, ParkStep(s), ParkPreempt(p.q, p.m));
    } else {
      ParkPreemptQuiet(s, p.q, p.m);
      QuietKeeps(s, ParkStep(s), ParkWait(p.q, p.m));
    }
  }

  lemma ParkLateKeeps(s: State)
    requires Inv(s) && Consistent(s) && (s.pc[s.cpu.current].ParkResume? || s.pc[s.cpu.current].ParkEnable?)
    ensures Keeps(ParkStep(s))
  {
    InvHere(s);
    var p := s.pc[s.cpu.current];
    if p.ParkResume? {
      ParkResumeQuiet(s, p.q, p.m);
      QuietKeeps(s, ParkStep(s), ParkEnable(p.m));
    } else {
      IsHeldMeans(s, p.m);
      ParkEnableQuiet(s, p.m);
      QuietKeeps(s, ParkStep(s), LockTest(p.m));
    }
  }

  lemma ParkKeeps(s: State)
    requires Inv(s) && Consistent(s)
    requires var p := s.pc[s.cpu.current];
             p.ParkDisable? || p.ParkPreempt? || p.ParkWait? || p.ParkResume? || p.ParkEnable?
    ensures Keeps(ParkStep(s))
  {
    var p := s.pc[s.cpu.current];
    if p.ParkDisable? || p.ParkPreempt? {
      ParkEarlyKeeps(s);
    } else if p.ParkWait? {
      ParkWaitKeeps(s, p.q, p.m);
    } else {
      ParkLateKeeps(s);
    }
  }

  lemma UnlockTestKeeps(s: State, m: nat, k: Option<nat>)
    requires Inv(s) && Consistent(s) && s.pc[s.cpu.current] == UnlockTest(m, k)
    ensures Keeps(UnlockStep(s))
  {
    InvHere(s);
    if Q(s.queues, MutexQ(m)) == [] {
      UnlockTestNobody(s, m, k);
      QuietKeeps(s, UnlockStep(s), AfterUnlock(m, k));
    } else {
      UnlockTestSomebody(s, m, k);
      QuietKeeps(s, UnlockStep(s), UnlockDisable(m, k));
    }
  }

  lemma UnlockEarlyKeeps(s: State)
    requires Inv(s) && Consistent(s)
    requires var p := s.pc[s.cpu.current]; p.UnlockEnter? || p.UnlockState? || p.UnlockOwner? || p.UnlockTest?
    ensures Keeps(UnlockStep(s))
  {
    var p := s.pc[s.cpu.current];
    if p.UnlockEnter? {
      InvHere(s);
      UnlockEnterQuiet(s, p.m, p.k);
      QuietKeeps(s, UnlockStep(s), UnlockState(p.m, p.k));
    } else if p.UnlockState? {
      UnlockStateKeeps(s, p.m, p.k);
    } else if p.UnlockOwner? {
      UnlockOwnerKeeps(s, p.m, p.k);
    } else {
      UnlockTestKeeps(s, p.m, p.k);
    }
  }

  lemma UnlockLateKeeps(s: State)
    requires Inv(s) && Consistent(s) && (s.pc[s.cpu.current].UnlockDisable? || s.pc[s.cpu.current].UnlockEnable?)
    ensures Keeps(UnlockStep(s))
  {
    InvHere(s);
    var p := s.pc[s.cpu.current];
    if p.UnlockDisable? {
      UnlockDisableQuiet(s, p.m, p.k);
      QuietKeeps(s, UnlockStep(s), UnlockWake(p.m, p.k));
    } else {
      UnlockEnableQuiet(s, p.m, p.k);
      QuietKeeps(s, UnlockStep(s), AfterUnlock(p.m, p.k));
    }
  }

  lemma UnlockKeeps(s: State)
    requires Inv(s) && Consistent(s)
    requires var p := s.pc[s.cpu.current];
             || p.UnlockEnter? || p.UnlockState? || p.UnlockOwner? || p.UnlockTest?
             || p.UnlockDisable? || p.UnlockWake? || p.UnlockEnable?
    ensures Keeps(UnlockStep(s))
  {
    var p := s.pc[s.cpu.current];
    if p.UnlockEnter? || p.UnlockState? || p.UnlockOwner? || p.UnlockTest? {
      UnlockEarlyKeeps(s);
    } else if p.UnlockWake? {
      UnlockWakeKeeps(s, p.m, p.k);
    } else {
      UnlockLateKeeps(s);
    }
  }

  /** One turn of a loop that wakes a whole queue. */
  lemma LoopKeeps(s: State, q: QueueId)
    requires Inv(s) && Consistent(s) && Q(s.queues, q) != []
    requires match s.pc[s.cpu.current]
             case BroadcastWake(c) => q == CondQ(c)
             case ExitWake => q == JoinQ(s.cpu.current)
             case MergeMove => q == NewQ
             case _ => false
    ensures Inv(WakeOne(s, q))
  {
    InvHere(s);
    WakeCurrentOk(s, q);
    WakeStays(s, q);
  }

  lemma BroadcastLoopKeeps(s: State)
    requires Inv(s) && Consistent(s) && s.pc[s.cpu.current].BroadcastWake?
    ensures Keeps(SignalStep(s))
  {
    InvHere(s);
    var c := s.pc[s.cpu.current].c;
    if Q(s.queues, CondQ(c)) == [] {
      BroadcastWakeQuiet(s, c);
      QuietKeeps(s, SignalStep(s), IntsOn);
    } else {
      assert SignalStep(s) == Ok(WakeOne(s, CondQ(c)));
      LoopKeeps(s, CondQ(c));
    }
  }

  lemma BroadcastKeeps(s: State)
    requires Inv(s) && Consistent(s) && (s.pc[s.cpu.current].BroadcastDisable? || s.pc[s.cpu.current].BroadcastWake?)
    ensures Keeps(SignalStep(s))
  {
    var p := s.pc[s.cpu.current];
    if p.BroadcastDisable? {
      InvHere(s);
      BroadcastDisableQuiet(s, p.c);
      QuietKeeps(s, SignalStep(s), BroadcastWake(p.c));
    } else {
      BroadcastLoopKeeps(s);
    }
  }

  lemma SignalKeeps(s: State)
    requires Inv(s) && Consistent(s) && (s.pc[s.cpu.current].SignalDisable? || s.pc[s.cpu.current].SignalWake?)
    ensures Keeps(SignalStep(s))
  {
    var p := s.pc[s.cpu.current];
    if p.SignalDisable? {
      InvHere(s);
      SignalDisableQuiet(s, p.c);
      QuietKeeps(s, SignalStep(s), SignalWake(p.c));
    } else {
      SignalWakeKeeps(s, p.c);
    }
  }

  lemma YieldKeeps(s: State)
    requires Inv(s) && Consistent(s)
    requires var p := s.pc[s.cpu.current]; p.YieldDisable? || p.YieldSwitch? || p.IntsOn? || p.Start?
    ensures Keeps(SignalStep(s))
  {
    InvHere(s);
    var p := s.pc[s.cpu.current];
    if p.YieldDisable? {
      YieldDisableQuiet(s);
      QuietKeeps(s, SignalStep(s), YieldSwitch);
    } else if p.YieldSwitch? {
      YieldSwitchKeeps(s);
    } else if p.IntsOn? {
      IntsOnQuiet(s);
      QuietKeeps(s, SignalStep(s), User);
    } else {
      if s.cpu.current == WORKER {
        StartWorker(s);
        QuietKeeps(s, SignalStep(s), WorkDisable);
      } else {
        StartOther(s);
        QuietKeeps(s, SignalStep(s), User);
      }
    }
  }

  lemma ExitWakeEnds(s: State)
    requires Inv(s) && Consistent(s) && s.pc[s.cpu.current] == ExitWake && Q(s.queues, JoinQ(s.cpu.current)) == []
    ensures Unawaited(s.sched, s.cpu.current)
  {
    forall t | WaitsForChild(s.sched, t) ensures s.sched[t].place.q.child != s.cpu.current {
      assert PlaceOk(Some(s.cpu.current), s.pc, s.sched, s.queues, t);
    }
  }

  lemma ExitKeeps(s: State)
    requires Inv(s) && Consistent(s)
    requires var p := s.pc[s.cpu.current];
             p.ExitDisable? || p.ExitDetach? || p.ExitMark? || p.ExitWake? || p.ExitSwitch?
    ensures Keeps(ExitStep(s))
  {
    InvHere(s);
    var p := s.pc[s.cpu.current];
    if p.ExitDisable? {
      ExitDisableQuiet(s);
      QuietKeeps(s, ExitStep(s), ExitDetach);
    } else if p.ExitDetach? {
      ExitDetachKeeps(s);
    } else if p.ExitMark? {
      ExitMarkKeeps(s);
    } else if p.ExitWake? {
      if Q(s.queues, JoinQ(s.cpu.current)) == [] {
        ExitWakeEnds(s);
        ExitWakeQuiet(s);
        QuietKeeps(s, ExitStep(s), ExitSwitch);
      } else {
        LoopKeeps(s, JoinQ(s.cpu.current));
      }
    } else {
      ExitSwitchKeeps(s);
    }
  }

  lemma JoinTestCases(s: State, ch: Tid)
    requires Inv(s) && Consistent(s) && s.pc[s.cpu.current] == JoinTest(ch)
    ensures Keeps(JoinStep(s))
  {
    ChildOf(s, ch);
    if s.sched[ch].state == EXITED {
      InvHere(s);
      assert JoinerOk(s.pc, s.refs, s.cpu.current);
      JoinTestQuiet(s, ch);
      QuietKeeps(s, JoinStep(s), JoinDetach(ch));
    } else {
      JoinTestKeeps(s, ch);
    }
  }

  lemma JoinKeeps(s: State)
    requires Inv(s) && Consistent(s)
    requires var p := s.pc[s.cpu.current]; p.JoinDisable? || p.JoinTest? || p.JoinDetach?
    ensures Keeps(JoinStep(s))
  {
    var p := s.pc[s.cpu.current];
    if p.JoinDisable? {
      InvHere(s);
      assert JoinerOk(s.pc, s.refs, s.cpu.current);
      JoinDisableQuiet(s, p.child);
      QuietKeeps(s, JoinStep(s), JoinTest(p.child));
    } else if p.JoinTest? {
      JoinTestCases(s, p.child);
    } else {
      JoinDetachKeeps(s, p.child);
    }
  }

  lemma MergeKeeps(s: State)
    requires Inv(s) && Consistent(s) && (s.pc[s.cpu.current].MergeDisable? || s.pc[s.cpu.current].MergeMove?)
    ensures Keeps(JoinStep(s))
  {
    InvHere(s);
    var p := s.pc[s.cpu.current];
    if p.MergeDisable? {
      MergeDisableQuiet(s);
      QuietKeeps(s, JoinStep(s), MergeMove);
    } else {
      if Q(s.queues, NewQ) == [] {
        MergeMoveQuiet(s);
        QuietKeeps(s, JoinStep(s), IntsOn);
      } else {
        LoopKeeps(s, NewQ);
      }
    }
  }

  lemma EventWaitIs(s: State, keyReady: bool)
    requires Consistent(s)
    requires || (s.pc[s.cpu.current] == KeyTest && !keyReady)
             || (s.pc[s.cpu.current] == WorkTest && s.work.items == [])
    ensures WorkStep(s, keyReady) == WaitOn(s, EventQ)
  {
  }

  lemma KeyStepKeeps(s: State, keyReady: bool)
    requires Inv(s) && Consistent(s) && (s.pc[s.cpu.current].KeyDisable? || s.pc[s.cpu.current].KeyTest?)
    ensures Keeps(WorkStep(s, keyReady))
  {
    InvHere(s);
    if s.pc[s.cpu.current].KeyDisable? {
      KeyDisableQuiet(s, keyReady);
      QuietKeeps(s, WorkStep(s, keyReady), KeyTest);
    } else if keyReady {
      KeyTestQuiet(s, keyReady);
      QuietKeeps(s, WorkStep(s, keyReady), IntsOn);
    } else {
      EventWaitIs(s, keyReady);
      KeyWaitKeeps(s);
    }
  }

  lemma WorkTestKeeps(s: State, keyReady: bool)
    requires Inv(s) && Consistent(s) && s.pc[s.cpu.current].WorkTest?
    ensures Keeps(WorkStep(s, keyReady))
  {
    if s.work.items == [] {
      EventWaitIs(s, keyReady);
      WorkWaitKeeps(s);
    } else {
      InvHere(s);
      WorkTestQuiet(s, keyReady);
      QuietKeeps(s, WorkStep(s, keyReady), WorkTake);
    }
  }

  lemma WorkStepKeeps(s: State, keyReady: bool)
    requires Inv(s) && Consistent(s)
    requires var p := s.pc[s.cpu.current]; p.WorkDisable? || p.WorkTest? || p.WorkTake? || p.WorkEnable? || p.WorkRun?
    ensures Keeps(WorkStep(s, keyReady))
  {
    InvHere(s);
    var p := s.pc[s.cpu.current];
    if p.WorkDisable? {
      WorkDisableQuiet(s, keyReady);
      QuietKeeps(s, WorkStep(s, keyReady), WorkTest);
    } else if p.WorkTest? {
      WorkTestKeeps(s, keyReady);
    } else if p.WorkTake? {
      WorkTakeKeeps(s, keyReady);
    } else if p.WorkEnable? {
      WorkEnableQuiet(s, keyReady, p.item);
      QuietKeeps(s, WorkStep(s, keyReady), WorkRun(p.item));
    } else {
      WorkRunKeeps(s, keyReady, p.item);
    }
  }

  lemma CallSyncKeeps(s: State, call: Call, keyReady: bool)
    requires Inv(s) && Consistent(s) && s.pc[s.cpu.current] == User && Allowed(s, Run(call, keyReady))
    requires call.Lock? || call.Unlock? || call.CondWait? || call.Signal? || call.Broadcast?
    ensures Keeps(CallStep(s, call))
  {
    InvHere(s);
    if call.Lock? {
      CallLock(s, call.m);
      QuietKeeps(s, CallStep(s, call), LockEnter(call.m));
    } else if call.Unlock? {
      CallUnlock(s, call.m);
      QuietKeeps(s, CallStep(s, call), UnlockEnter(call.m, None));
    } else if call.CondWait? {
      IsHeldMeans(s, call.m);
      CallCondWait(s, call.c, call.m);
      QuietKeeps(s, CallStep(s, call), UnlockEnter(call.m, Some(call.c)));
    } else if call.Signal? {
      CallSignal(s, call.c);
      QuietKeeps(s, CallStep(s, call), SignalDisable(call.c));
    } else {
      CallBroadcast(s, call.c);
      QuietKeeps(s, CallStep(s, call), BroadcastDisable(call.c));
    }
  }

  lemma CallOwnKeeps(s: State, call: Call, keyReady: bool)
    requires Inv(s) && Consistent(s) && s.pc[s.cpu.current] == User && Allowed(s, Run(call, keyReady))
    requires call.Yield? || call.Exit? || call.Join? || call.ReadKey? || call.Merge?
    ensures Keeps(CallStep(s, call))
  {
    InvHere(s);
    if call.Yield? {
      CallYield(s);
      QuietKeeps(s, CallStep(s, call), YieldDisable);
    } else if call.Exit? {
      CallExit(s);
      QuietKeeps(s, CallStep(s, call), ExitDisable);
    } else if call.Join? {
      CallJoin(s, call.child);
      QuietKeeps(s, CallStep(s, call), JoinDisable(call.child));
    } else if call.ReadKey? {
      CallReadKey(s);
      QuietKeeps(s, CallStep(s, call), KeyDisable);
    } else {
      CallMerge(s);
      QuietKeeps(s, CallStep(s, call), MergeDisable);
    }
  }

  lemma CallKeeps(s: State, call: Call, keyReady: bool)
    requires Inv(s) && Consistent(s) && s.pc[s.cpu.current] == User && Allowed(s, Run(call, keyReady))
    ensures Keeps(CallStep(s, call))
  {
    if call.Compute? {
    } else if call.Create? {
      CreateKeeps(s, call.t, call.attached);
    } else if call.CreateJob? {
      CreateJobKeeps(s, call.t, call.attached, call.burst, call.priority);
    } else if call.FirstResponse? {
      FirstResponseKeeps(s);
    } else if call.SetPolicy? {
      SetPolicyKeeps(s, call.policy, call.quantum);
    } else {
      if call.Lock? || call.Unlock? || call.CondWait? || call.Signal? || call.Broadcast? {
        CallSyncKeeps(s, call, keyReady);
      } else {
        CallOwnKeeps(s, call, keyReady);
      }
    }
  }

  lemma RunKeeps(s: State, call: Call, keyReady: bool)
    requires Inv(s) && Consistent(s) && Allowed(s, Run(call, keyReady))
    ensures Keeps(Step(s, call, keyReady))
  {
    var p := s.pc[s.cpu.current];
    if p.User? {
      CallKeeps(s, call, keyReady);
    } else if p.LockEnter? || p.LockTest? || p.LockTake? || p.LockOwn? || p.PreemptOn? {
      LockKeeps(s);
    } else if p.ParkDisable? || p.ParkPreempt? || p.ParkWait? || p.ParkResume? || p.ParkEnable? {
      ParkKeeps(s);
    } else if p.UnlockEnter? || p.UnlockState? || p.UnlockOwner? || p.UnlockTest? || p.UnlockDisable?
        || p.UnlockWake? || p.UnlockEnable? {
      UnlockKeeps(s);
    } else if p.ExitDisable? || p.ExitDetach? || p.ExitMark? || p.ExitWake? || p.ExitSwitch? {
      ExitKeeps(s);
    } else if p.JoinDisable? || p.JoinTest? || p.JoinDetach? {
      JoinKeeps(s);
    } else if p.MergeDisable? || p.MergeMove? {
      MergeKeeps(s);
    } else if p.KeyDisable? || p.KeyTest? {
      KeyStepKeeps(s, keyReady);
    } else if p.WorkDisable? || p.WorkTest? || p.WorkTake? || p.WorkEnable? || p.WorkRun? {
      WorkStepKeeps(s, keyReady);
    } else if p.SignalDisable? || p.SignalWake? {
      SignalKeeps(s);
    } else if p.BroadcastDisable? || p.BroadcastWake? {
      BroadcastKeeps(s);
    } else {
      assert p != Dead by { InvHere(s); }
      YieldKeeps(s);
    }
  }

  lemma TimerKeeps(s: State)
    requires Inv(s) && Consistent(s) && s.cpu.ints
    ensures Keeps(InterruptReturn(Tick(s)))
  {
    TickKeeps(s);
    InterruptReturnKeeps(Tick(s));
  }

  /** A key wakes the workqueue thread and every reader of the keyboard. */
  lemma {:induction false} WakeAllKeeps(s: State)
    requires Inv(s) && Consistent(s) && s.cpu.ints
    ensures var s' := WakeAll(s, EventQ);
            Inv(s') && Consistent(s') && s' == s.(sched := s'.sched, queues := s'.queues) && Q(s'.queues, EventQ) == []
    decreases |Q(s.queues, EventQ)|
  {
    if Q(s.queues, EventQ) != [] {
      InvHere(s);
      WakeCurrentOk(s, EventQ);
      WakeStays(s, EventQ);
      InvConsistent(WakeOne(s, EventQ));
      WakeAllKeeps(WakeOne(s, EventQ));
    }
  }

  lemma KeyKeeps(s: State, printable: bool)
    requires Inv(s) && Consistent(s) && s.cpu.ints
    ensures Keeps(Next(s, Key(printable)))
  {
    if printable {
      WakeAllKeeps(s);
      var s' := WakeAll(s, EventQ);
      ReschedKeeps(s', true);
      InterruptReturnKeeps(s'.(cpu := s'.cpu.(resched := true)));
    } else {
      InterruptReturnKeeps(s);
    }
  }

  /** Whatever happens next, no KASSERT fails and the invariant is kept. */
  lemma NextKeeps(s: State, e: Event)
    requires Inv(s) && Consistent(s) && Allowed(s, e)
    ensures Next(s, e).Ok? && Inv(Next(s, e).s)
  {
    match e
    case Run(call, keyReady) => RunKeeps(s, call, keyReady);
    case Timer => TimerKeeps(s);
    case Key(printable) => KeyKeeps(s, printable);
  }
}
