/** The steps of the kernel that change nothing but the statement reached and the two flags. */
module KernelQuiet {
  import opened Common
  import opened SchedulingOrder
  import opened KernelSteps
  import opened KernelLives
  import opened KernelInvariant

  lemma LockEnterQuiet(s: State, m: nat)
    requires Here(s) && s.pc[s.cpu.current] == LockEnter(m) && !IsHeld(s, m)
    ensures IsQuiet(s, LockStep(s), LockTest(m))
  {
  }

  lemma LockTestBusy(s: State, m: nat)
    requires Here(s) && s.pc[s.cpu.current] == LockTest(m) && MutexOf(s.mutexes, m).locked
    ensures IsQuiet(s, LockStep(s), ParkDisable(MutexQ(m), m))
  {
  }

  lemma LockTestFree(s: State, m: nat)
    requires Here(s) && s.pc[s.cpu.current] == LockTest(m) && !MutexOf(s.mutexes, m).locked
    ensures IsQuiet(s, LockStep(s), LockTake(m))
  {
  }

  lemma PreemptOnQuiet(s: State)
    requires Here(s) && s.pc[s.cpu.current] == PreemptOn
    ensures IsQuiet(s, LockStep(s), User)
  {
  }

  lemma ParkDisableQuiet(s: State, q: QueueId, m: nat)
    requires Here(s) && s.pc[s.cpu.current] == ParkDisable(q, m)
    ensures IsQuiet(s, ParkStep(s), ParkPreempt(q, m))
  {
  }

  lemma ParkPreemptQuiet(s: State, q: QueueId, m: nat)
    requires Here(s) && s.pc[s.cpu.current] == ParkPreempt(q, m)
    ensures IsQuiet(s, ParkStep(s), ParkWait(q, m))
  {
  }

  lemma ParkResumeQuiet(s: State, q: QueueId, m: nat)
    requires Here(s) && s.pc[s.cpu.current] == ParkResume(q, m)
    ensures IsQuiet(s, ParkStep(s), ParkEnable(m))
  {
  }

  lemma ParkEnableQuiet(s: State, m: nat)
    requires Here(s) && s.pc[s.cpu.current] == ParkEnable(m) && !IsHeld(s, m)
    ensures IsQuiet(s, ParkStep(s), LockTest(m))
  {
  }

  lemma UnlockEnterQuiet(s: State, m: nat, k: Option<nat>)
    requires Here(s) && s.pc[s.cpu.current] == UnlockEnter(m, k)
    ensures IsQuiet(s, UnlockStep(s), UnlockState(m, k))
  {
  }

  lemma UnlockTestNobody(s: State, m: nat, k: Option<nat>)
    requires Here(s) && s.pc[s.cpu.current] == UnlockTest(m, k) && Q(s.queues, MutexQ(m)) == []
    ensures IsQuiet(s, UnlockStep(s), AfterUnlock(m, k))
  {
  }

  lemma UnlockTestSomebody(s: State, m: nat, k: Option<nat>)
    requires Here(s) && s.pc[s.cpu.current] == UnlockTest(m, k) && Q(s.queues, MutexQ(m)) != []
    ensures IsQuiet(s, UnlockStep(s), UnlockDisable(m, k))
  {
  }

  lemma UnlockDisableQuiet(s: State, m: nat, k: Option<nat>)
    requires Here(s) && s.pc[s.cpu.current] == UnlockDisable(m, k)
    ensures IsQuiet(s, UnlockStep(s), UnlockWake(m, k))
  {
  }

  lemma UnlockEnableQuiet(s: State, m: nat, k: Option<nat>)
    requires Here(s) && s.pc[s.cpu.current] == UnlockEnable(m, k)
    ensures IsQuiet(s, UnlockStep(s), AfterUnlock(m, k))
  {
  }

  lemma SignalDisableQuiet(s: State, c: nat)
    requires Here(s) && s.pc[s.cpu.current] == SignalDisable(c)
    ensures IsQuiet(s, SignalStep(s), SignalWake(c))
  {
  }

  lemma BroadcastDisableQuiet(s: State, c: nat)
    requires Here(s) && s.pc[s.cpu.current] == BroadcastDisable(c)
    ensures IsQuiet(s, SignalStep(s), BroadcastWake(c))
  {
  }

  lemma BroadcastWakeQuiet(s: State, c: nat)
    requires Here(s) && s.pc[s.cpu.current] == BroadcastWake(c) && Q(s.queues, CondQ(c)) == []
    ensures IsQuiet(s, SignalStep(s), IntsOn)
  {
  }

  lemma YieldDisableQuiet(s: State)
    requires Here(s) && s.pc[s.cpu.current] == YieldDisable
    ensures IsQuiet(s, SignalStep(s), YieldSwitch)
  {
  }

  lemma IntsOnQuiet(s: State)
    requires Here(s) && s.pc[s.cpu.current] == IntsOn
    ensures IsQuiet(s, SignalStep(s), User)
  {
  }

  lemma StartWorker(s: State)
    requires Here(s) && s.pc[s.cpu.current] == Start && s.cpu.current == WORKER
    ensures IsQuiet(s, SignalStep(s), WorkDisable)
  {
  }

  lemma StartOther(s: State)
    requires Here(s) && s.pc[s.cpu.current] == Start && s.cpu.current != WORKER
    ensures IsQuiet(s, SignalStep(s), User)
  {
  }

  lemma ExitDisableQuiet(s: State)
    requires Here(s) && s.pc[s.cpu.current] == ExitDisable
    ensures IsQuiet(s, ExitStep(s), ExitDetach)
  {
  }

  lemma ExitWakeQuiet(s: State)
    requires Here(s) && s.pc[s.cpu.current] == ExitWake && Q(s.queues, JoinQ(s.cpu.current)) == []
    requires Unawaited(s.sched, s.cpu.current)
    ensures IsQuiet(s, ExitStep(s), ExitSwitch)
  {
  }

  lemma JoinDisableQuiet(s: State, ch: Tid)
    requires Here(s) && s.pc[s.cpu.current] == JoinDisable(ch) && JoinerOk(s.pc, s.refs, s.cpu.current)
    ensures IsQuiet(s, JoinStep(s), JoinTest(ch))
  {
    assert Joins(s.pc[s.cpu.current], ch);
  }

  lemma JoinTestQuiet(s: State, ch: Tid)
    requires Here(s) && s.pc[s.cpu.current] == JoinTest(ch) && JoinerOk(s.pc, s.refs, s.cpu.current)
    requires ch in s.pc && ch in s.sched && ch in s.refs && s.refs[ch].refcount > 0
    requires s.pc[ch] == Dead && s.sched[ch].state == EXITED
    ensures IsQuiet(s, JoinStep(s), JoinDetach(ch))
  {
    assert Joins(s.pc[s.cpu.current], ch);
  }

  lemma MergeDisableQuiet(s: State)
    requires Here(s) && s.pc[s.cpu.current] == MergeDisable
    ensures IsQuiet(s, JoinStep(s), MergeMove)
  {
  }

  lemma MergeMoveQuiet(s: State)
    requires Here(s) && s.pc[s.cpu.current] == MergeMove && Q(s.queues, NewQ) == []
    ensures IsQuiet(s, JoinStep(s), IntsOn)
  {
  }

  lemma KeyDisableQuiet(s: State, keyReady: bool)
    requires Here(s) && s.pc[s.cpu.current] == KeyDisable
    ensures IsQuiet(s, WorkStep(s, keyReady), KeyTest)
  {
  }

  lemma KeyTestQuiet(s: State, keyReady: bool)
    requires Here(s) && s.pc[s.cpu.current] == KeyTest && keyReady
    ensures IsQuiet(s, WorkStep(s, keyReady), IntsOn)
  {
  }

  lemma WorkDisableQuiet(s: State, keyReady: bool)
    requires Here(s) && s.pc[s.cpu.current] == WorkDisable
    ensures IsQuiet(s, WorkStep(s, keyReady), WorkTest)
  {
  }

  lemma WorkTestQuiet(s: State, keyReady: bool)
    requires Here(s) && s.pc[s.cpu.current] == WorkTest && s.work.items != []
    ensures IsQuiet(s, WorkStep(s, keyReady), WorkTake)
  {
  }

  lemma WorkEnableQuiet(s: State, keyReady: bool, item: Tid)
    requires Here(s) && s.pc[s.cpu.current] == WorkEnable(item)
    ensures IsQuiet(s, WorkStep(s, keyReady), WorkRun(item))
  {
  }

  lemma CallLock(s: State, m: nat)
    requires Here(s) && s.pc[s.cpu.current] == User && Allowed(s, Run(Lock(m), false))
    ensures IsQuiet(s, CallStep(s, Lock(m)), LockEnter(m))
  {
  }

  lemma CallUnlock(s: State, m: nat)
    requires Here(s) && s.pc[s.cpu.current] == User && Allowed(s, Run(Unlock(m), false))
    ensures IsQuiet(s, CallStep(s, Unlock(m)), UnlockEnter(m, None))
  {
  }

  lemma CallSignal(s: State, c: nat)
    requires Here(s) && s.pc[s.cpu.current] == User && Allowed(s, Run(Signal(c), false))
    ensures IsQuiet(s, CallStep(s, Signal(c)), SignalDisable(c))
  {
  }

  lemma CallBroadcast(s: State, c: nat)
    requires Here(s) && s.pc[s.cpu.current] == User && Allowed(s, Run(Broadcast(c), false))
    ensures IsQuiet(s, CallStep(s, Broadcast(c)), BroadcastDisable(c))
  {
  }

  lemma CallYield(s: State)
    requires Here(s) && s.pc[s.cpu.current] == User && Allowed(s, Run(Yield, false))
    ensures IsQuiet(s, CallStep(s, Yield), YieldDisable)
  {
  }

  lemma CallExit(s: State)
    requires Here(s) && s.pc[s.cpu.current] == User && Allowed(s, Run(Exit, false))
    ensures IsQuiet(s, CallStep(s, Exit), ExitDisable)
  {
  }

  lemma CallReadKey(s: State)
    requires Here(s) && s.pc[s.cpu.current] == User && Allowed(s, Run(ReadKey, false))
    ensures IsQuiet(s, CallStep(s, ReadKey), KeyDisable)
  {
  }

  lemma CallMerge(s: State)
    requires Here(s) && s.pc[s.cpu.current] == User && Allowed(s, Run(Merge, false))
    ensures IsQuiet(s, CallStep(s, Merge), MergeDisable)
  {
  }

  lemma CallCondWait(s: State, c: nat, m: nat)
    requires Here(s) && s.pc[s.cpu.current] == User && s.cpu.current != IDLE && IsHeld(s, m)
    requires m in s.held[s.cpu.current]
    ensures IsQuiet(s, CallStep(s, CondWait(c, m)), UnlockEnter(m, Some(c)))
  {
  }

  lemma CallJoin(s: State, ch: Tid)
    requires Here(s) && s.pc[s.cpu.current] == User && Allowed(s, Run(Join(ch), false)) && ch in s.pc
    ensures IsQuiet(s, CallStep(s, Join(ch)), JoinDisable(ch))
  {
  }
}
