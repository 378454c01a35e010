/** Steps that wake one thread of a queue. */
module KernelWake {
  import opened Common
  import opened SchedulingOrder
  import opened KernelSteps
  import opened KernelPlaces
  import opened KernelSync
  import opened KernelLives
  import opened KernelTimes
  import opened KernelInvariant

  function Woken(s: State, q: QueueId): Tid
    requires Q(s.queues, q) != []
  {
    Q(s.queues, q)[0]
  }

  /** The first thread of q becomes ready, and nothing else changes place. */
  lemma WakeEffect(s: State, q: QueueId)
    requires q != RunQ && Q(s.queues, q) != [] && Woken(s, q) in s.sched
    ensures var x, s' := Woken(s, q), WakeOne(s, q);
            && s' == s.(sched := s'.sched, queues := s'.queues)
            && s'.sched == s.sched[x := s.sched[x].(state := READY, place := In(RunQ))]
            && (forall r :: r != RunQ && r != q ==> Q(s'.queues, r) == Q(s.queues, r))
            && Q(s'.queues, q) == Q(s.queues, q)[1..]
  {
  }

  lemma WakePlaces(s: State, q: QueueId, on: Option<Tid>)
    requires Places(on, s.pc, s.sched, s.queues) && q != RunQ && Q(s.queues, q) != []
    ensures Woken(s, q) in s.sched && Woken(s, q) in s.pc && on != Some(Woken(s, q))
    ensures s.sched[Woken(s, q)].place == In(q) && WaitsAt(q, s.pc[Woken(s, q)])
    ensures Places(on, s.pc, WakeOne(s, q).sched, WakeOne(s, q).queues)
  {
    var x := Woken(s, q);
    assert QueueOk(s.pc, s.sched, s.queues, q);
    assert PlaceOk(on, s.pc, s.sched, s.queues, x);
    LeaveQueue(q, on, s.pc, s.sched, s.queues);
    var queues1 := s.queues[q := Q(s.queues, q)[1..]];
    var k := Position(s.clock.policy, s.sched, Q(queues1, RunQ), x);
    EnterQueue(x, RunQ, k, on, s.pc, s.sched, queues1, s.sched[x].(state := READY, place := In(RunQ)));
  }

  /** In a step that wakes the first thread of q, the current thread can move on to p. */
  ghost predicate WakeTo(s: State, q: QueueId, p: Pc)
    requires s.cpu.current in s.pc && s.cpu.current in s.held
    requires q != RunQ && Q(s.queues, q) != []
  {
    var c := s.cpu.current;
    var was := s.pc[c];
    && PreemptOff(p) == PreemptOff(was) && IntsOff(p) == IntsOff(was)
    && Exited(p) == Exited(was) && p != Dead && (p == was || (!HalfDone(was) && !HalfDone(p)))
    && Role(s.pc[c := p], c)
    && HeldAt(p, s.held[c]) && CurrentOk(p, s.mutexes, WakeOne(s, q).queues)
    && SelfReleased(p) == SelfReleased(was)
    && Inflight(p) == Inflight(was)
    && JoinerOk(s.pc[c := p], s.refs, c)
    && !p.ExitSwitch? && (p == WorkTake ==> s.work.items != [])
    && forall m {:trigger Attends(was, m)} :: Attends(was, m) ==> Attends(p, m) || q == MutexQ(m)
  }

  /** What a wake-up from q means to the others. */
  ghost predicate Wakes(s: State, q: QueueId, s': State) {
    && s' == s.(sched := s'.sched, queues := s'.queues)
    && Q(s.queues, q) != []
    && var c, x := s.cpu.current, Woken(s, q);
    && c in s.pc && x in s.pc && x != c && c in s.sched && c in s'.sched && s'.sched[c] == s.sched[c]
    && WaitsAt(q, s.pc[x]) && Ready(s'.sched, x)
    && StayReady(s.sched, s'.sched, c) && NoNewWaiter(s.sched, s'.sched, c)
    && Places(Some(c), s.pc, s'.sched, s'.queues)
    && forall m {:trigger Q(s'.queues, MutexQ(m))} :: Q(s'.queues, MutexQ(m)) != [] ==> Q(s.queues, MutexQ(m)) != []
  }

  lemma WakeIsWakes(s: State, q: QueueId)
    requires Places(Some(s.cpu.current), s.pc, s.sched, s.queues) && s.cpu.current in s.pc
    requires q != RunQ && Q(s.queues, q) != []
    ensures Wakes(s, q, WakeOne(s, q))
  {
    WakePlaces(s, q, Some(s.cpu.current));
    WakeEffect(s, q);
    assert PlaceOk(Some(s.cpu.current), s.pc, s.sched, s.queues, s.cpu.current);
  }

  lemma WakeSync(s: State, q: QueueId, p: Pc)
    requires Inv(s) && s.cpu.current in s.pc && s.cpu.current in s.held
    requires q != RunQ && Q(s.queues, q) != [] && WakeTo(s, q, p)
    ensures Sync(s.cpu.current, s.pc[s.cpu.current := p], s.held, s.mutexes, WakeOne(s, q).queues)
  {
    SyncMove(s.cpu.current, s.pc, s.held, s.mutexes, s.queues, p, s.cpu.current, WakeOne(s, q).queues);
  }

  /** As NoLostWakeupStep: woken from the queue of mutex m, thread x attends to m. */
  lemma WakeIsNotLost(pc: map<Tid, Pc>, sched: map<Tid, Sched>, mutexes: map<nat, Mutex>,
                      queues: map<QueueId, seq<Tid>>,
                      c: Tid, p: Pc, sched': map<Tid, Sched>, queues': map<QueueId, seq<Tid>>, q: QueueId, x: Tid)
    requires NoLostWakeup(pc, sched, mutexes, queues) && c in pc && x in pc && x != c && StayReady(sched, sched', c)
    requires Ready(sched', c) && Ready(sched', x) && WaitsAt(q, pc[x])
    requires forall m {:trigger Q(queues', MutexQ(m))} :: Q(queues', MutexQ(m)) != [] ==> Q(queues, MutexQ(m)) != []
    requires forall m {:trigger Attends(pc[c], m)} :: Attends(pc[c], m) ==> Attends(p, m) || q == MutexQ(m)
    ensures NoLostWakeup(pc[c := p], sched', mutexes, queues')
  {
    forall m | Stalled(mutexes, queues', m)
      ensures || Attends(p, m)
              || Rescuer(pc[c := p], sched', x, m)
              || (Stalled(mutexes, queues, m) && !Attends(pc[c], m))
    {
      if Attends(pc[c], m) && !Attends(p, m) {
        assert WaitsAt(MutexQ(m), pc[x]);
      }
    }
    NoLostWakeupStep(pc, sched, mutexes, queues, c, p, sched', mutexes, queues', x);
  }

  lemma WakeLives(s: State, p: Pc, sched': map<Tid, Sched>)
    requires Inv(s) && s.cpu.current in s.pc && s.cpu.current in s.sched && s.cpu.current in sched'
    requires sched'[s.cpu.current] == s.sched[s.cpu.current] && NoNewWaiter(s.sched, sched', s.cpu.current)
    requires SelfReleased(p) == SelfReleased(s.pc[s.cpu.current]) && Inflight(p) == Inflight(s.pc[s.cpu.current])
    requires p != Dead && !p.ExitSwitch? && (p == WorkTake ==> s.work.items != [])
    requires JoinerOk(s.pc[s.cpu.current := p], s.refs, s.cpu.current)
    ensures Lives(s.pc[s.cpu.current := p], sched', s.refs, s.work)
  {
    var c := s.cpu.current;
    assert PlaceOk(Some(c), s.pc, s.sched, s.queues, c);
    LivesMove(s.pc, s.sched, s.refs, s.work, c, p, sched');
  }

  lemma WakeAttends(s: State, q: QueueId, p: Pc, s': State)
    requires Inv(s) && Wakes(s, q, s')
    requires forall m {:trigger Attends(s.pc[s.cpu.current], m)} :: Attends(s.pc[s.cpu.current], m) ==>
             Attends(p, m) || q == MutexQ(m)
    ensures NoLostWakeup(s.pc[s.cpu.current := p], s'.sched, s.mutexes, s'.queues)
  {
    var c := s.cpu.current;
    assert Ready(s'.sched, c) by { assert PlaceOk(Some(c), s.pc, s.sched, s.queues, c); }
    WakeIsNotLost(s.pc, s.sched, s.mutexes, s.queues, c, p, s'.sched, s'.queues, q, Woken(s, q));
  }

  lemma WakeRest(s: State, q: QueueId, p: Pc, s': State)
    requires Inv(s) && Wakes(s, q, s') && s.cpu.current in s.held && Q(s.queues, q) != [] && q != RunQ
    requires WakeTo(s, q, p)
    requires Sync(s.cpu.current, s.pc[s.cpu.current := p], s.held, s.mutexes, s'.queues)
    ensures Inv(Goto(s', p))
  {
    FlagsLocal(s.cpu, s.pc, s.iflag, p, s.cpu);
    RolesGoto(s.pc, s.cpu.current, p);
    PlacesGoto(s.cpu.current, s.pc, s'.sched, s'.queues, p);
    WakeAttends(s, q, p, s');
    WakeLives(s, p, s'.sched);
    TimesGoto(s.cpu.current, s.pc, s.times, s.clock.ticks, p);
  }

  /** Waking the first thread of a queue keeps the invariant. */
  lemma WakeKeeps(s: State, q: QueueId, p: Pc)
    requires Inv(s) && Consistent(s)
    requires q != RunQ && Q(s.queues, q) != [] && WakeTo(s, q, p)
    ensures Inv(Goto(WakeOne(s, q), p))
  {
    WakeIsWakes(s, q);
    WakeSync(s, q, p);
    WakeRest(s, q, p, WakeOne(s, q));
  }

  // ------------------------------------------------------------ the steps that wake

  lemma UnlockWakeTo(s: State, m: nat, k: Option<nat>)
    requires Here(s) && s.pc[s.cpu.current] == UnlockWake(m, k)
    ensures Q(s.queues, MutexQ(m)) != [] && WakeTo(s, MutexQ(m), UnlockEnable(m, k))
    ensures UnlockStep(s) == Ok(Goto(WakeOne(s, MutexQ(m)), UnlockEnable(m, k)))
  {
  }

  lemma SignalWakeTo(s: State, c: nat)
    requires Here(s) && s.pc[s.cpu.current] == SignalWake(c) && Q(s.queues, CondQ(c)) != []
    ensures WakeTo(s, CondQ(c), IntsOn)
    ensures SignalStep(s) == Ok(Goto(WakeOne(s, CondQ(c)), IntsOn))
  {
  }

  lemma SignalNobody(s: State, c: nat)
    requires Here(s) && s.pc[s.cpu.current] == SignalWake(c) && Q(s.queues, CondQ(c)) == []
    ensures IsQuiet(s, SignalStep(s), IntsOn)
  {
  }

  lemma UnlockWakeKeeps(s: State, m: nat, k: Option<nat>)
    requires Inv(s) && Consistent(s) && s.pc[s.cpu.current] == UnlockWake(m, k)
    ensures UnlockStep(s).Ok? && Inv(UnlockStep(s).s)
  {
    InvHere(s);
    UnlockWakeTo(s, m, k);
    WakeKeeps(s, MutexQ(m), UnlockEnable(m, k));
  }

  lemma SignalWakeKeeps(s: State, c: nat)
    requires Inv(s) && Consistent(s) && s.pc[s.cpu.current] == SignalWake(c)
    ensures SignalStep(s).Ok? && Inv(SignalStep(s).s)
  {
    InvHere(s);
    if Q(s.queues, CondQ(c)) == [] {
      SignalNobody(s, c);
      QuietKeeps(s, SignalStep(s), IntsOn);
    } else {
      SignalWakeTo(s, c);
      WakeKeeps(s, CondQ(c), IntsOn);
    }
  }

  /** A step of the loop of thread_wakeup, or one wake-up in an interrupt: the thread stays where it is. */
  lemma WakeStays(s: State, q: QueueId)
    requires Inv(s) && Here(s) && q != RunQ && Q(s.queues, q) != []
    requires var p := s.pc[s.cpu.current]; !p.ExitSwitch? && CurrentOk(p, s.mutexes, WakeOne(s, q).queues)
    ensures Inv(WakeOne(s, q))
  {
    var c := s.cpu.current;
    assert s.pc[c := s.pc[c]] == s.pc;
    assert JoinerOk(s.pc, s.refs, c);
    WakePlaces(s, q, Some(c));
    WakeEffect(s, q);
    WakeKeeps(s, q, s.pc[c]);
    assert Goto(WakeOne(s, q), s.pc[c]) == WakeOne(s, q);
  }
}
