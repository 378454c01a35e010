/** Steps that write a mutex, a thread's references or state, or the queue of work. */
module KernelStores {
  import opened Common
  import opened SchedulingOrder
  import opened KernelSteps
  import opened KernelPlaces
  import opened KernelSync
  import opened KernelLives
  import opened KernelTimes
  import opened KernelInvariant
  import opened KernelWake

  // ------------------------------------------------------------------------ mutexes

  /** The four statements that write a mutex. */
  ghost predicate Stores(s: State, m: nat, mutex: Mutex, mine: set<nat>, p: Pc)
    requires Consistent(s)
  {
    var c := s.cpu.current;
    match s.pc[c]
    case LockTake(n) => n == m && p == LockOwn(m) && mutex == Mutex(true, MutexOf(s.mutexes, m).owner)
        && mine == s.held[c]
    case LockOwn(n) => n == m && p == PreemptOn && mutex == Mutex(true, Some(c)) && mine == s.held[c] + {m}
    case UnlockState(n, k) => n == m && p == UnlockOwner(m, k) && mutex == Mutex(false, MutexOf(s.mutexes, m).owner)
        && mine == s.held[c] - {m}
    case UnlockOwner(n, k) => n == m && p == UnlockTest(m, k) && mutex == Mutex(false, None) && mine == s.held[c]
    case _ => false
  }

  lemma StoreIsNotLost(s: State, m: nat, mutex: Mutex, mine: set<nat>, p: Pc)
    requires Consistent(s) && Stores(s, m, mutex, mine, p)
    requires NoLostWakeup(s.pc, s.sched, s.mutexes, s.queues) && Ready(s.sched, s.cpu.current)
    ensures NoLostWakeup(s.pc[s.cpu.current := p], s.sched, s.mutexes[m := mutex], s.queues)
  {
    var c, mutexes' := s.cpu.current, s.mutexes[m := mutex];
    forall n | Stalled(mutexes', s.queues, n)
      ensures Attends(p, n) || (Stalled(s.mutexes, s.queues, n) && !Attends(s.pc[c], n))
    {
      assert n != m ==> Stalled(s.mutexes, s.queues, n);
    }
    NoLostWakeupStep(s.pc, s.sched, s.mutexes, s.queues, c, p, s.sched, mutexes', s.queues, c);
  }

  /** The current thread can go on at p as far as flags, places and times are concerned. */
  ghost predicate Follows(s: State, p: Pc)
    requires Consistent(s)
  {
    var was := s.pc[s.cpu.current];
    && PreemptOff(p) == PreemptOff(was) && IntsOff(p) == IntsOff(was)
    && Role(s.pc[s.cpu.current := p], s.cpu.current)
    && !Exited(p) && !Exited(was)
  }

  lemma FollowsKeeps(s: State, p: Pc)
    requires Inv(s) && Here(s) && Follows(s, p)
    ensures var pc' := s.pc[s.cpu.current := p];
            && Flags(s.cpu, pc', s.iflag) && Roles(pc') && Places(Some(s.cpu.current), pc', s.sched, s.queues)
            && TimesOk(s.cpu.current, pc', s.times, s.clock.ticks)
  {
    FlagsLocal(s.cpu, s.pc, s.iflag, p, s.cpu);
    RolesGoto(s.pc, s.cpu.current, p);
    PlacesGoto(s.cpu.current, s.pc, s.sched, s.queues, p);
    TimesGoto(s.cpu.current, s.pc, s.times, s.clock.ticks, p);
  }

  lemma StoreNext(was: Pc, p: Pc)
    requires was.LockTake? || was.LockOwn? || was.UnlockState? || was.UnlockOwner?
    requires p.LockOwn? || p.PreemptOn? || p.UnlockOwner? || p.UnlockTest?
    ensures PreemptOff(p) && PreemptOff(was) && !IntsOff(p) && !IntsOff(was) && !Exited(p) && !Exited(was)
    ensures !InWorkqueueThread(p)
    ensures !InWorkqueueThread(was) && !was.Start? && !was.User? && !was.YieldDisable? && !was.YieldSwitch?
    ensures !was.IntsOn?
  {
  }

  lemma StoreFollows(s: State, m: nat, mutex: Mutex, mine: set<nat>, p: Pc)
    requires Consistent(s) && Role(s.pc, s.cpu.current) && Stores(s, m, mutex, mine, p)
    ensures Follows(s, p)
  {
    StoreNext(s.pc[s.cpu.current], p);
  }

  lemma StoreLives(s: State, m: nat, mutex: Mutex, mine: set<nat>, p: Pc)
    requires Lives(s.pc, s.sched, s.refs, s.work) && Consistent(s) && Stores(s, m, mutex, mine, p)
    requires s.sched[s.cpu.current].place == OnCpu
    ensures Lives(s.pc[s.cpu.current := p], s.sched, s.refs, s.work)
  {
    LivesMove(s.pc, s.sched, s.refs, s.work, s.cpu.current, p, s.sched);
  }

  lemma StoreKeeps(s: State, m: nat, mutex: Mutex, mine: set<nat>, p: Pc)
    requires Inv(s) && Here(s) && Stores(s, m, mutex, mine, p)
    ensures Inv(Goto(SetMutex(s, m, mutex).(held := s.held[s.cpu.current := mine]), p))
  {
    StoreFollows(s, m, mutex, mine, p);
    FollowsKeeps(s, p);
    StoreLives(s, m, mutex, mine, p);
    StoreSync(s, m, mutex, mine, p);
  }

  lemma StoreSync(s: State, m: nat, mutex: Mutex, mine: set<nat>, p: Pc)
    requires Inv(s) && Here(s) && Stores(s, m, mutex, mine, p)
    ensures Sync(s.cpu.current, s.pc[s.cpu.current := p], s.held[s.cpu.current := mine], s.mutexes[m := mutex],
             s.queues)
    ensures NoLostWakeup(s.pc[s.cpu.current := p], s.sched, s.mutexes[m := mutex], s.queues)
  {
    SyncStore(s.cpu.current, s.pc, s.held, s.mutexes, s.queues, m, mutex, mine, p);
    StoreIsNotLost(s, m, mutex, mine, p);
  }

  lemma LockTakeKeeps(s: State, m: nat)
    requires Inv(s) && Consistent(s) && s.pc[s.cpu.current] == LockTake(m)
    ensures LockStep(s).Ok? && Inv(LockStep(s).s)
  {
    InvHere(s);
    var c, mutex := s.cpu.current, MutexOf(s.mutexes, m).(locked := true);
    StoreKeeps(s, m, mutex, s.held[c], LockOwn(m));
    assert s.held[c := s.held[c]] == s.held;
  }

  lemma LockOwnKeeps(s: State, m: nat)
    requires Inv(s) && Consistent(s) && s.pc[s.cpu.current] == LockOwn(m)
    ensures LockStep(s).Ok? && Inv(LockStep(s).s)
  {
    InvHere(s);
    IsHeldMeans(s, m);
    StoreKeeps(s, m, Mutex(true, Some(s.cpu.current)), s.held[s.cpu.current] + {m}, PreemptOn);
  }

  lemma UnlockStateKeeps(s: State, m: nat, k: Option<nat>)
    requires Inv(s) && Consistent(s) && s.pc[s.cpu.current] == UnlockState(m, k)
    ensures UnlockStep(s).Ok? && Inv(UnlockStep(s).s)
  {
    InvHere(s);
    IsHeldMeans(s, m);
    StoreKeeps(s, m, MutexOf(s.mutexes, m).(locked := false), s.held[s.cpu.current] - {m}, UnlockOwner(m, k));
  }

  lemma UnlockOwnerIs(s: State, m: nat, k: Option<nat>)
    requires Consistent(s) && s.pc[s.cpu.current] == UnlockOwner(m, k) && !MutexOf(s.mutexes, m).locked
    ensures Stores(s, m, Mutex(false, None), s.held[s.cpu.current], UnlockTest(m, k))
    ensures UnlockStep(s) ==
             Ok(Goto(SetMutex(s, m, Mutex(false, None)).(held := s.held[s.cpu.current := s.held[s.cpu.current]]),
                 UnlockTest(m, k)))
  {
    assert s.held[s.cpu.current := s.held[s.cpu.current]] == s.held;
  }

  lemma UnlockOwnerKeeps(s: State, m: nat, k: Option<nat>)
    requires Inv(s) && Consistent(s) && s.pc[s.cpu.current] == UnlockOwner(m, k)
    ensures UnlockStep(s).Ok? && Inv(UnlockStep(s).s)
  {
    InvHere(s);
    var c := s.cpu.current;
    IsHeldMeans(s, m);
    UnlockOwnerIs(s, m, k);
    StoreKeeps(s, m, Mutex(false, None), s.held[c], UnlockTest(m, k));
  }

  // ----------------------------------------------------- exit, references and destruction

  lemma ExitMarkLives(s: State, p: Pc, v: Sched)
    requires Places(Some(s.cpu.current), s.pc, s.sched, s.queues) && Lives(s.pc, s.sched, s.refs, s.work)
    requires Here(s) && s.pc[s.cpu.current] == ExitMark
    requires p == if s.refs[s.cpu.current].refcount > 0 then ExitWake else ExitSwitch
    requires v.place == OnCpu
    ensures Lives(s.pc[s.cpu.current := p], s.sched[s.cpu.current := v], s.refs, s.work)
  {
    var c := s.cpu.current;
    var sched' := s.sched[c := v];
    OnlyMoved(s.sched, c, v);
    if p == ExitSwitch {
      NobodyAwaits(s, c, sched');
    }
    LivesMove(s.pc, s.sched, s.refs, s.work, c, p, sched');
  }

  /** Nobody waits for a thread that no parent holds a reference to. */
  lemma NobodyAwaits(s: State, c: Tid, sched': map<Tid, Sched>)
    requires Places(Some(c), s.pc, s.sched, s.queues) && Lives(s.pc, s.sched, s.refs, s.work) && c in s.refs
    requires s.refs[c].refcount <= 0 && NoNewWaiter(s.sched, sched', c) && !WaitsForChild(sched', c)
    ensures Unawaited(sched', c)
  {
    assert RefOk(s.pc, s.refs, s.work.log, c);
    forall t | WaitsForChild(sched', t) ensures sched'[t].place.q.child != c {
      assert WaitsForChild(s.sched, t);
      assert PlaceOk(Some(c), s.pc, s.sched, s.queues, t);
      assert JoinerOk(s.pc, s.refs, t);
      assert Joins(s.pc[t], s.sched[t].place.q.child);
    }
  }

  lemma ExitMarkSync(s: State, p: Pc, v: Sched)
    requires Sync(s.cpu.current, s.pc, s.held, s.mutexes, s.queues) && NoLostWakeup(s.pc, s.sched, s.mutexes, s.queues)
    requires Here(s) && s.pc[s.cpu.current] == ExitMark && (p == ExitWake || p == ExitSwitch)
    requires v.place == OnCpu
    ensures Sync(s.cpu.current, s.pc[s.cpu.current := p], s.held, s.mutexes, s.queues)
    ensures NoLostWakeup(s.pc[s.cpu.current := p], s.sched[s.cpu.current := v], s.mutexes, s.queues)
  {
    var c := s.cpu.current;
    var sched' := s.sched[c := v];
    OnlyMoved(s.sched, c, v);
    SyncMove(c, s.pc, s.held, s.mutexes, s.queues, p, c, s.queues);
    NoLostWakeupStep(s.pc, s.sched, s.mutexes, s.queues, c, p, sched', s.mutexes, s.queues, c);
  }

  lemma ExitMarkIs(s: State, p: Pc)
    requires Here(s) && s.pc[s.cpu.current] == ExitMark
    requires p == if s.refs[s.cpu.current].refcount > 0 then ExitWake else ExitSwitch
    ensures Role(s.pc[s.cpu.current := p], s.cpu.current)
    ensures ExitStep(s) == Ok(s.(pc := s.pc[s.cpu.current := p],
                                 sched := s.sched[s.cpu.current := s.sched[s.cpu.current].(state := EXITED)],
                                 times := s.times[s.cpu.current :=
                                                    s.times[s.cpu.current].(termination := s.clock.ticks)]))
  {
  }

  lemma ExitMarkPlaces(s: State, p: Pc, v: Sched)
    requires Flags(s.cpu, s.pc, s.iflag) && Roles(s.pc) && Places(Some(s.cpu.current), s.pc, s.sched, s.queues)
    requires Here(s) && s.pc[s.cpu.current] == ExitMark && (p == ExitWake || p == ExitSwitch)
    requires Role(s.pc[s.cpu.current := p], s.cpu.current) && v.place == OnCpu && v.state == EXITED
    ensures var pc' := s.pc[s.cpu.current := p];
            && Flags(s.cpu, pc', s.iflag) && Roles(pc')
            && Places(Some(s.cpu.current), pc', s.sched[s.cpu.current := v], s.queues)
  {
    FlagsLocal(s.cpu, s.pc, s.iflag, p, s.cpu);
    RolesGoto(s.pc, s.cpu.current, p);
    PlacesLocal(s.cpu.current, s.pc, s.sched, s.queues, p, v);
  }

  lemma ExitMarkKeeps(s: State)
    requires Inv(s) && Consistent(s) && s.pc[s.cpu.current] == ExitMark
    ensures ExitStep(s).Ok? && Inv(ExitStep(s).s)
  {
    InvHere(s);
    var c := s.cpu.current;
    var p := if s.refs[c].refcount > 0 then ExitWake else ExitSwitch;
    var v := s.sched[c].(state := EXITED);
    ExitMarkIs(s, p);
    ExitMarkPlaces(s, p, v);
    ExitMarkSync(s, p, v);
    ExitMarkLives(s, p, v);
    TimesExit(c, s.pc, s.times, s.clock.ticks, p);
  }

  /** The current thread goes on at p without touching a mutex. */
  lemma FollowsSync(s: State, p: Pc)
    requires Inv(s) && Here(s) && !HalfDone(s.pc[s.cpu.current]) && !HalfDone(p)
    requires HeldAt(p, s.held[s.cpu.current]) && CurrentOk(p, s.mutexes, s.queues)
    requires forall m {:trigger Attends(s.pc[s.cpu.current], m)} :: !Attends(s.pc[s.cpu.current], m)
    ensures Sync(s.cpu.current, s.pc[s.cpu.current := p], s.held, s.mutexes, s.queues)
    ensures NoLostWakeup(s.pc[s.cpu.current := p], s.sched, s.mutexes, s.queues)
  {
    var c := s.cpu.current;
    SyncMove(c, s.pc, s.held, s.mutexes, s.queues, p, c, s.queues);
    NoLostWakeupStep(s.pc, s.sched, s.mutexes, s.queues, c, p, s.sched, s.mutexes, s.queues, c);
  }

  /** thread_detach without the wake-up. */
  function Released(s: State, t: Tid, v: Refs, p: Pc): State
    requires s.cpu.current in s.pc
  {
    Goto(s.(refs := s.refs[t := v],
            work := if v.refcount != 0 then s.work
                   else s.work.(items := s.work.items + [t], log := s.work.log + [t])), p)
  }

  lemma ReleasedFollows(s: State, t: Tid, p: Pc)
    requires Here(s)
    requires (s.pc[s.cpu.current] == ExitDetach && p == ExitMark)
             || (s.pc[s.cpu.current] == JoinDetach(t) && p == IntsOn)
    ensures Follows(s, p) && !HalfDone(s.pc[s.cpu.current]) && !HalfDone(p)
    ensures HeldAt(p, s.held[s.cpu.current]) && CurrentOk(p, s.mutexes, s.queues)
    ensures forall m {:trigger Attends(s.pc[s.cpu.current], m)} :: !Attends(s.pc[s.cpu.current], m)
  {
  }

  lemma ReleasedKeeps(s: State, t: Tid, v: Refs, p: Pc)
    requires Inv(s) && Here(s)
    requires (s.pc[s.cpu.current] == ExitDetach && p == ExitMark)
             || (s.pc[s.cpu.current] == JoinDetach(t) && p == IntsOn)
    requires Lives(s.pc[s.cpu.current := p], s.sched, s.refs[t := v], Released(s, t, v, p).work)
    ensures Inv(Released(s, t, v, p))
  {
    ReleasedFollows(s, t, p);
    FollowsKeeps(s, p);
    FollowsSync(s, p);
  }

  lemma WakeWorker(s: State)
    requires Inv(s) && Here(s) && !s.pc[s.cpu.current].ExitSwitch?
    ensures var s' := WakeOne(s, EventQ);
            && Inv(s') && Here(s') && s' == s.(sched := s'.sched, queues := s'.queues)
  {
    if Q(s.queues, EventQ) != [] {
      WakeCurrentOk(s, EventQ);
      WakeStays(s, EventQ);
    }
    InvHere(WakeOne(s, EventQ));
  }

  lemma WakeCurrentOk(s: State, q: QueueId)
    requires Places(Some(s.cpu.current), s.pc, s.sched, s.queues) && Here(s)
    requires q != RunQ && !q.MutexQ? && Q(s.queues, q) != []
    ensures Woken(s, q) in s.sched && CurrentOk(s.pc[s.cpu.current], s.mutexes, WakeOne(s, q).queues)
    ensures WakeOne(s, q) == s.(sched := WakeOne(s, q).sched, queues := WakeOne(s, q).queues)
  {
    WakePlaces(s, q, Some(s.cpu.current));
    WakeEffect(s, q);
  }

  /** The wake-up at the end of thread_detach might as well come first. */
  lemma DetachIs(s: State, t: Tid, p: Pc)
    requires Consistent(s) && t in s.refs && !s.cpu.ints && s.refs[t].refcount > 0
    ensures var v := s.refs[t].(refcount := s.refs[t].refcount - 1);
            var s' := if v.refcount == 0 then WakeOne(s, EventQ) else s;
            Then(Detach(s, t), p) == Ok(Released(s', t, v, p))
  {
  }

  lemma ExitDetachIs(s: State)
    requires Consistent(s) && s.pc[s.cpu.current] == ExitDetach && !s.cpu.ints && s.refs[s.cpu.current].refcount > 0
    ensures var c := s.cpu.current;
            var v := s.refs[c].(refcount := s.refs[c].refcount - 1);
            var s' := if v.refcount == 0 then WakeOne(s, EventQ) else s;
            ExitStep(s) == Ok(Released(s', c, v, ExitMark))
  {
    DetachIs(s, s.cpu.current, ExitMark);
  }

  lemma ExitDetachKeeps(s: State)
    requires Inv(s) && Consistent(s) && s.pc[s.cpu.current] == ExitDetach
    ensures ExitStep(s).Ok? && Inv(ExitStep(s).s)
  {
    InvHere(s);
    var c := s.cpu.current;
    assert s.refs[c].refcount > 0 by { assert RefOk(s.pc, s.refs, s.work.log, c); }
    ExitDetachIs(s);
    var v := s.refs[c].(refcount := s.refs[c].refcount - 1);
    if v.refcount == 0 {
      WakeWorker(s);
      SelfDetached(WakeOne(s, EventQ), v);
    } else {
      SelfDetached(s, v);
    }
  }

  lemma SelfDetached(s: State, v: Refs)
    requires Inv(s) && Here(s) && s.pc[s.cpu.current] == ExitDetach
    requires v == s.refs[s.cpu.current].(refcount := s.refs[s.cpu.current].refcount - 1)
    ensures Inv(Released(s, s.cpu.current, v, ExitMark))
  {
    SelfDetachLives(s, v);
    ReleasedKeeps(s, s.cpu.current, v, ExitMark);
  }

  lemma SelfDetachLives(s: State, v: Refs)
    requires Inv(s) && Here(s) && s.pc[s.cpu.current] == ExitDetach
    requires v == s.refs[s.cpu.current].(refcount := s.refs[s.cpu.current].refcount - 1)
    ensures var s' := Released(s, s.cpu.current, v, ExitMark); Lives(s'.pc, s'.sched, s'.refs, s'.work)
  {
    var s' := Released(s, s.cpu.current, v, ExitMark);
    LivesSelfDetach(s.pc, s.sched, s.refs, s.work, s.cpu.current, v, s'.work, s.sched);
  }

  /** In the state in which the child is noted as joined. */
  lemma ParentDetachLives(s: State, ch: Tid, v: Refs)
    requires Inv(s) && Here(s) && s.pc[s.cpu.current] == JoinDetach(ch) && ch in s.refs
    requires v == s.refs[ch].(joined := true, refcount := s.refs[ch].refcount - 1)
    ensures var s' := Released(s, ch, v, IntsOn); Lives(s'.pc, s'.sched, s'.refs, s'.work)
  {
    var s', c := Released(s, ch, v, IntsOn), s.cpu.current;
    forall t | t in s.pc && t != c ensures !Joins(s.pc[t], ch) {
      if Joins(s.pc[t], ch) {
        OneJoiner(s.pc, s.sched, s.refs, s.work, t, c, ch);
      }
    }
    LivesParentDetach(s.pc, s.sched, s.refs, s.work, c, ch, v, s'.work, s.sched);
  }

  lemma ParentDetached(s: State, ch: Tid, v: Refs)
    requires Inv(s) && Here(s) && s.pc[s.cpu.current] == JoinDetach(ch) && ch in s.refs
    requires v == s.refs[ch].(joined := true, refcount := s.refs[ch].refcount - 1)
    ensures Inv(Released(s, ch, v, IntsOn))
  {
    ParentDetachLives(s, ch, v);
    ReleasedKeeps(s, ch, v, IntsOn);
  }

  lemma JoinDetachIs(s: State, ch: Tid)
    requires Consistent(s) && s.pc[s.cpu.current] == JoinDetach(ch) && ch in s.refs && !s.cpu.ints
    requires s.refs[ch].refcount > 0
    ensures var v := s.refs[ch].(joined := true, refcount := s.refs[ch].refcount - 1);
            var s' := if v.refcount == 0 then WakeOne(s, EventQ) else s;
            JoinStep(s) == Ok(Released(s', ch, v, IntsOn))
  {
    var v := s.refs[ch].(joined := true, refcount := s.refs[ch].refcount - 1);
    var s1 := s.(refs := s.refs[ch := s.refs[ch].(joined := true)]);
    DetachIs(s1, ch, IntsOn);
    assert s1.refs[ch := v] == s.refs[ch := v];
  }

  lemma JoinDetachKeeps(s: State, ch: Tid)
    requires Inv(s) && Consistent(s) && s.pc[s.cpu.current] == JoinDetach(ch)
    ensures JoinStep(s).Ok? && Inv(JoinStep(s).s)
  {
    InvHere(s);
    assert ch in s.refs && s.refs[ch].refcount > 0 by {
      assert JoinerOk(s.pc, s.refs, s.cpu.current) && Joins(s.pc[s.cpu.current], ch);
      assert RefOk(s.pc, s.refs, s.work.log, ch);
    }
    JoinDetachIs(s, ch);
    var v := s.refs[ch].(joined := true, refcount := s.refs[ch].refcount - 1);
    if v.refcount == 0 {
      WakeWorker(s);
      ParentDetached(WakeOne(s, EventQ), ch, v);
    } else {
      ParentDetached(s, ch, v);
    }
  }

  // ------------------------------------------------------------------ the workqueue

  /** A thread in the queue of work has stopped for good by the time the workqueue thread runs. */
  lemma ItemIsDead(s: State, item: Tid)
    requires Flags(s.cpu, s.pc, s.iflag) && WorkOk(s.pc, s.work) && s.pc.Keys == s.iflag.Keys
    requires item in s.work.log && s.cpu.current == WORKER && !SelfReleased(s.pc[WORKER])
    ensures item in s.pc && s.pc[item] == Dead
  {
    assert FlagsOff(s.cpu.current, s.pc, s.iflag, item);
  }

  lemma WorkFollows(s: State, p: Pc)
    requires Here(s) && s.cpu.current == WORKER
    requires match s.pc[WORKER] case WorkTake => p.WorkEnable? case WorkRun(_) => p == WorkDisable case _ => false
    ensures Follows(s, p) && !HalfDone(s.pc[s.cpu.current]) && !HalfDone(p)
    ensures HeldAt(p, s.held[s.cpu.current]) && CurrentOk(p, s.mutexes, s.queues)
    ensures forall m {:trigger Attends(s.pc[s.cpu.current], m)} :: !Attends(s.pc[s.cpu.current], m)
  {
  }

  lemma WorkKeeps(s: State, p: Pc, work: Work)
    requires Inv(s) && Here(s) && s.cpu.current == WORKER
    requires match s.pc[WORKER] case WorkTake => p.WorkEnable? case WorkRun(_) => p == WorkDisable case _ => false
    requires Lives(s.pc[WORKER := p], s.sched, s.refs, work)
    ensures Inv(Goto(s.(work := work), p))
  {
    WorkFollows(s, p);
    FollowsKeeps(s, p);
    FollowsSync(s, p);
  }

  lemma WorkTakeKeeps(s: State, keyReady: bool)
    requires Inv(s) && Consistent(s) && s.pc[s.cpu.current] == WorkTake
    ensures WorkStep(s, keyReady).Ok? && Inv(WorkStep(s, keyReady).s)
  {
    InvHere(s);
    var item := s.work.items[0];
    assert item in s.work.log;
    ItemIsDead(s, item);
    LivesTake(s.pc, s.sched, s.refs, s.work);
    WorkKeeps(s, WorkEnable(item), s.work.(items := s.work.items[1..]));
  }

  lemma ItemExited(s: State, item: Tid)
    requires WorkOk(s.pc, s.work) && Places(Some(s.cpu.current), s.pc, s.sched, s.queues)
    requires item in Inflight(s.pc[WORKER])
    ensures item in s.sched && s.sched[item].state == EXITED
  {
    assert PlaceOk(Some(s.cpu.current), s.pc, s.sched, s.queues, item);
  }

  lemma WorkRunKeeps(s: State, keyReady: bool, item: Tid)
    requires Inv(s) && Consistent(s) && s.pc[s.cpu.current] == WorkRun(item)
    ensures WorkStep(s, keyReady).Ok? && Inv(WorkStep(s, keyReady).s)
  {
    InvHere(s);
    ItemExited(s, item);
    LivesFinish(s.pc, s.sched, s.refs, s.work, item);
    WorkKeeps(s, WorkDisable, s.work.(done := s.work.done + [item]));
  }
}
