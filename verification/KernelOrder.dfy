/** Which thread is chosen when the scheduler orders by priority: under SJF and PRIORITY, one of the
    most urgent. */
module KernelOrder {
  import opened Common
  import opened Runs
  import opened SchedulingOrder
  import opened KernelSteps
  import opened KernelPlaces
  import opened KernelInvariant
  import opened KernelSwitch
  import opened KernelStores
  import opened KernelCreate
  import opened KernelRuns
  import opened KernelSafety

  function PriorityOf(sched: map<Tid, Sched>, t: Tid): int {
    if t in sched then sched[t].priority else 0
  }

  predicate ByPriority(policy: Policy) {
    policy == SJF || policy == PRIORITY
  }

  /** The run queue and the new queue are in order of priority. */
  ghost predicate Ordered(sched: map<Tid, Sched>, queues: map<QueueId, seq<Tid>>) {
    Sorted(Entries(sched, Q(queues, RunQ))) && Sorted(Entries(sched, Q(queues, NewQ)))
  }

  /** The current thread is at least as urgent as every ready one. */
  ghost predicate MostUrgent(s: State) {
    forall t {:trigger PriorityOf(s.sched, t)} :: t in Q(s.queues, RunQ) ==>
      PriorityOf(s.sched, s.cpu.current) <= PriorityOf(s.sched, t)
  }

  /** A step that leaves the queues in order, and switches, if it does, to a most urgent thread. */
  ghost predicate KeepsOrder(s: State, s': State) {
    && Ordered(s'.sched, s'.queues)
    && (s'.cpu.current != s.cpu.current ==> MostUrgent(s'))
  }

  lemma EntriesSame(sched: map<Tid, Sched>, sched': map<Tid, Sched>, q: seq<Tid>)
    requires forall t :: t in q ==> PriorityOf(sched', t) == PriorityOf(sched, t)
    ensures Entries(sched', q) == Entries(sched, q)
  {
    forall i | 0 <= i < |q| ensures Entries(sched', q)[i] == Entries(sched, q)[i] {
      assert PriorityOf(sched', q[i]) == PriorityOf(sched, q[i]);
    }
  }

  lemma EntriesInsertAt(sched: map<Tid, Sched>, q: seq<Tid>, k: nat, t: Tid)
    requires k <= |q|
    ensures Entries(sched, InsertAt(q, k, t)) ==
             Entries(sched, q)[..k] + [Entry(t, PriorityOf(sched, t))] + Entries(sched, q)[k..]
  {
  }

  lemma SortedTail(sched: map<Tid, Sched>, q: seq<Tid>)
    requires q != [] && Sorted(Entries(sched, q))
    ensures Sorted(Entries(sched, q[1..]))
    ensures forall t :: t in q ==> PriorityOf(sched, q[0]) <= PriorityOf(sched, t)
  {
    assert Entries(sched, q[1..]) == Entries(sched, q)[1..];
    forall t | t in q ensures PriorityOf(sched, q[0]) <= PriorityOf(sched, t) {
      var i :| 0 <= i < |q| && q[i] == t;
      assert Entries(sched, q)[0].priority <= Entries(sched, q)[i].priority;
    }
  }

  /** Only state and place of threads change. */
  lemma OrderedSame(sched: map<Tid, Sched>, queues: map<QueueId, seq<Tid>>, sched': map<Tid, Sched>)
    requires Ordered(sched, queues) && forall t :: PriorityOf(sched', t) == PriorityOf(sched, t)
    ensures Ordered(sched', queues)
  {
    EntriesSame(sched, sched', Q(queues, RunQ));
    EntriesSame(sched, sched', Q(queues, NewQ));
  }

  lemma InsertOrdered(sched: map<Tid, Sched>, q: seq<Tid>, policy: Policy, t: Tid)
    requires ByPriority(policy) && t in sched && Sorted(Entries(sched, q))
    ensures Sorted(Entries(sched, InsertAt(q, Position(policy, sched, q, t), t)))
  {
    var k := Position(policy, sched, q, t);
    EntriesInsertAt(sched, q, k, t);
    InsertIsSorted(Entries(sched, q), Entry(t, PriorityOf(sched, t)));
  }

  lemma EnqueueOrdered(s: State, q: QueueId, state: ThreadState, t: Tid)
    requires Ordered(s.sched, s.queues) && ByPriority(s.clock.policy) && t in s.sched && (q == RunQ || q == NewQ)
    ensures Ordered(KernelSteps.Enqueue(s, q, state, t).sched, KernelSteps.Enqueue(s, q, state, t).queues)
  {
    var ts := Q(s.queues, q);
    InsertOrdered(s.sched, ts, s.clock.policy, t);
    var queues' := s.queues[q := InsertAt(ts, Position(s.clock.policy, s.sched, ts, t), t)];
    assert Ordered(s.sched, queues');
    OrderedSame(s.sched, queues', s.sched[t := s.sched[t].(state := state, place := In(q))]);
  }

  lemma WakeOrdered(s: State, q: QueueId)
    requires Ordered(s.sched, s.queues) && ByPriority(s.clock.policy) && q != RunQ
    ensures Ordered(WakeOne(s, q).sched, WakeOne(s, q).queues)
    ensures WakeOne(s, q).cpu == s.cpu && WakeOne(s, q).clock == s.clock
  {
    var ts := Q(s.queues, q);
    if ts != [] && ts[0] in s.sched {
      if q == NewQ {
        SortedTail(s.sched, ts);
      }
      EnqueueOrdered(s.(queues := s.queues[q := ts[1..]]), RunQ, READY, ts[0]);
    }
  }

  lemma DispatchOrdered(s1: State, saved: bool)
    requires Ordered(s1.sched, s1.queues) && s1.cpu.current in s1.iflag && Dispatch(s1, saved).Ok?
    ensures Ordered(Dispatch(s1, saved).s.sched, Dispatch(s1, saved).s.queues) && MostUrgent(Dispatch(s1, saved).s)
  {
    var ready, s' := Q(s1.queues, RunQ), Dispatch(s1, saved).s;
    SortedTail(s1.sched, ready);
    assert Ordered(s1.sched, s'.queues);
    OrderedSame(s1.sched, s'.queues, s'.sched);
    forall t | t in Q(s'.queues, RunQ) ensures PriorityOf(s'.sched, s'.cpu.current) <= PriorityOf(s'.sched, t) {
      assert t in ready && PriorityOf(s'.sched, t) == PriorityOf(s1.sched, t);
      assert PriorityOf(s'.sched, ready[0]) == PriorityOf(s1.sched, ready[0]);
    }
  }

  lemma WaitOrdered(s: State, q: QueueId, p: Pc)
    requires Consistent(s) && Ordered(s.sched, s.queues) && q != RunQ && q != NewQ && WaitOn(Goto(s, p), q).Ok?
    ensures KeepsOrder(s, WaitOn(Goto(s, p), q).s)
  {
    var s1 := Parked(s, q, p);
    assert WaitOn(Goto(s, p), q) == Dispatch(s1, false);
    assert Ordered(s.sched, s1.queues);
    OrderedSame(s.sched, s1.queues, s1.sched);
    DispatchOrdered(s1, false);
  }

  lemma RequeueOrdered(s: State, saved: bool)
    requires Consistent(s) && Ordered(s.sched, s.queues) && ByPriority(s.clock.policy) && Requeue(s, saved).Ok?
    ensures KeepsOrder(s, Requeue(s, saved).s)
  {
    EnqueueOrdered(Relinquish(s), RunQ, READY, s.cpu.current);
    DispatchOrdered(MakeRunnable(Relinquish(s), s.cpu.current), saved);
  }

  // ------------------------------------------------------------------- step by step

  lemma LockOrdered(s: State)
    requires Consistent(s) && Ordered(s.sched, s.queues) && LockStep(s).Ok?
    ensures KeepsOrder(s, LockStep(s).s)
  {
  }

  lemma ParkOrdered(s: State)
    requires Here(s) && Ordered(s.sched, s.queues) && ParkStep(s).Ok?
    ensures KeepsOrder(s, ParkStep(s).s)
  {
    var p := s.pc[s.cpu.current];
    if p.ParkWait? {
      WaitOrdered(s, p.q, ParkResume(p.q, p.m));
    }
  }

  lemma UnlockOrdered(s: State)
    requires Consistent(s) && Ordered(s.sched, s.queues) && ByPriority(s.clock.policy) && UnlockStep(s).Ok?
    ensures KeepsOrder(s, UnlockStep(s).s)
  {
    var p := s.pc[s.cpu.current];
    if p.UnlockWake? {
      WakeOrdered(s, MutexQ(p.m));
    }
  }

  lemma YieldOrdered(s: State)
    requires Consistent(s) && Ordered(s.sched, s.queues) && ByPriority(s.clock.policy) && SignalStep(s).Ok?
    requires s.pc[s.cpu.current] == YieldSwitch
    ensures KeepsOrder(s, SignalStep(s).s)
  {
    RequeueOrdered(Goto(s, IntsOn), false);
  }

  lemma SignalOrdered(s: State)
    requires Consistent(s) && Ordered(s.sched, s.queues) && ByPriority(s.clock.policy) && SignalStep(s).Ok?
    ensures KeepsOrder(s, SignalStep(s).s)
  {
    var p := s.pc[s.cpu.current];
    if p.SignalWake? || p.BroadcastWake? {
      WakeOrdered(s, CondQ(p.c));
    } else if p.YieldSwitch? {
      YieldOrdered(s);
    }
  }

  lemma DetachOrdered(s: State, t: Tid, p: Pc)
    requires Consistent(s) && Ordered(s.sched, s.queues) && ByPriority(s.clock.policy) && t in s.refs
    requires Then(Detach(s, t), p).Ok?
    ensures KeepsOrder(s, Then(Detach(s, t), p).s)
  {
    DetachIs(s, t, p);
    WakeOrdered(s, EventQ);
  }

  lemma ExitSwitchOrdered(s: State)
    requires Here(s) && Ordered(s.sched, s.queues) && ExitStep(s).Ok? && s.pc[s.cpu.current] == ExitSwitch
    ensures KeepsOrder(s, ExitStep(s).s)
  {
    ExitSwitchIs(s);
    OrderedSame(s.sched, s.queues, Ended(s).sched);
    DispatchOrdered(Ended(s), false);
  }

  lemma ExitOrdered(s: State)
    requires Here(s) && Ordered(s.sched, s.queues) && ByPriority(s.clock.policy) && ExitStep(s).Ok?
    ensures KeepsOrder(s, ExitStep(s).s)
  {
    var p := s.pc[s.cpu.current];
    if p.ExitDetach? {
      DetachOrdered(s, s.cpu.current, ExitMark);
    } else if p.ExitMark? {
      OrderedSame(s.sched, s.queues, s.sched[s.cpu.current := s.sched[s.cpu.current].(state := EXITED)]);
    } else if p.ExitWake? {
      WakeOrdered(s, JoinQ(s.cpu.current));
    } else if p.ExitSwitch? {
      ExitSwitchOrdered(s);
    }
  }

  lemma JoinOrdered(s: State)
    requires Here(s) && Ordered(s.sched, s.queues) && ByPriority(s.clock.policy) && JoinStep(s).Ok?
    ensures KeepsOrder(s, JoinStep(s).s)
  {
    var p := s.pc[s.cpu.current];
    if p.JoinTest? {
      assert Goto(s, p) == s;
      if JoinStep(s) == WaitOn(s, JoinQ(p.child)) {
        WaitOrdered(s, JoinQ(p.child), p);
      }
    } else if p.JoinDetach? {
      var s1 := s.(refs := s.refs[p.child := s.refs[p.child].(joined := true)]);
      DetachOrdered(s1, p.child, IntsOn);
    } else if p.MergeMove? {
      WakeOrdered(s, NewQ);
    }
  }

  lemma WorkOrdered(s: State, keyReady: bool)
    requires Here(s) && Ordered(s.sched, s.queues) && WorkStep(s, keyReady).Ok?
    ensures KeepsOrder(s, WorkStep(s, keyReady).s)
  {
    var p := s.pc[s.cpu.current];
    if (p.KeyTest? && !keyReady) || (p.WorkTest? && s.work.items == []) {
      EventWaitIs(s, keyReady);
      assert Goto(s, p) == s;
      WaitOrdered(s, EventQ, p);
    }
  }

  /** A job created goes on the new queue where its burst, or its priority, says. */
  lemma CreateJobOrdered(s: State, t: Tid, attached: bool, burst: int, priority: int)
    requires Consistent(s) && Ordered(s.sched, s.queues) && ByPriority(s.clock.policy)
    requires Places(Some(s.cpu.current), s.pc, s.sched, s.queues) && t !in s.pc
    ensures var s' := CallStep(s, CreateJob(t, attached, burst, priority)).s;
            && KeepsOrder(s, s')
            && t in Q(s'.queues, NewQ) && PriorityOf(s'.sched, t) == if s.clock.policy == SJF then burst else priority
  {
    var p := JobPriority(s.clock.policy, burst, priority);
    var s1 := AddThread(s, t, attached, p, true, s.clock.ticks);
    assert QueueOk(s.pc, s.sched, s.queues, RunQ) && QueueOk(s.pc, s.sched, s.queues, NewQ);
    EntriesSame(s.sched, s1.sched, Q(s.queues, RunQ));
    EntriesSame(s.sched, s1.sched, Q(s.queues, NewQ));
    EnqueueOrdered(s1, NewQ, NEW, t);
    InsertAtMembers(Q(s.queues, NewQ), Position(s.clock.policy, s1.sched, Q(s.queues, NewQ), t), t);
  }

  /** thread_create does not always keep the order: see CreateOrderedExactly. */
  predicate Orderly(call: Call) {
    !call.Create?
  }

  lemma CallOrdered(s: State, call: Call)
    requires Consistent(s) && Ordered(s.sched, s.queues) && ByPriority(s.clock.policy) && CallStep(s, call).Ok?
    requires Orderly(call)
    requires Places(Some(s.cpu.current), s.pc, s.sched, s.queues) && (call.CreateJob? ==> call.t !in s.pc)
    ensures KeepsOrder(s, CallStep(s, call).s)
  {
    if call.CreateJob? {
      CreateJobOrdered(s, call.t, call.attached, call.burst, call.priority);
    }
  }

  /** The group of statements the current one belongs to. */
  lemma StepIs(s: State, call: Call, keyReady: bool)
    requires Consistent(s) && s.pc[s.cpu.current] != User
    ensures var o := Step(s, call, keyReady);
            || o == LockStep(s) || o == ParkStep(s) || o == UnlockStep(s) || o == ExitStep(s)
            || o == JoinStep(s) || o == WorkStep(s, keyReady) || o == SignalStep(s)
  {
  }

  lemma OutcomeOrdered(s: State, o: Outcome, keyReady: bool)
    requires Here(s) && Ordered(s.sched, s.queues) && ByPriority(s.clock.policy) && o.Ok?
    requires || o == LockStep(s) || o == ParkStep(s) || o == UnlockStep(s) || o == ExitStep(s)
             || o == JoinStep(s) || o == WorkStep(s, keyReady) || o == SignalStep(s)
    ensures KeepsOrder(s, o.s)
  {
    if o == LockStep(s) {
      LockOrdered(s);
    } else if o == ParkStep(s) {
      ParkOrdered(s);
    } else if o == UnlockStep(s) {
      UnlockOrdered(s);
    } else if o == ExitStep(s) {
      ExitOrdered(s);
    } else if o == JoinStep(s) {
      JoinOrdered(s);
    } else if o == WorkStep(s, keyReady) {
      WorkOrdered(s, keyReady);
    } else {
      SignalOrdered(s);
    }
  }

  lemma {:induction false} WakeAllOrdered(s: State, q: QueueId)
    requires Ordered(s.sched, s.queues) && ByPriority(s.clock.policy) && q != RunQ
    ensures var s' := WakeAll(s, q); Ordered(s'.sched, s'.queues) && s'.clock == s.clock && s'.cpu == s.cpu
    decreases |Q(s.queues, q)|
  {
    if Q(s.queues, q) != [] && Q(s.queues, q)[0] in s.sched {
      WakeOrdered(s, q);
      assert Q(WakeOne(s, q).queues, q) == Q(s.queues, q)[1..];
      WakeAllOrdered(WakeOne(s, q), q);
    }
  }

  lemma ReturnOrdered(s: State)
    requires Consistent(s) && Ordered(s.sched, s.queues) && ByPriority(s.clock.policy) && InterruptReturn(s).Ok?
    ensures KeepsOrder(s, InterruptReturn(s).s)
  {
    if s.cpu.preempt && s.cpu.resched {
      RequeueOrdered(s.(cpu := s.cpu.(resched := false)), true);
    }
  }

  lemma KeyOrdered(s: State, printable: bool, s': State)
    requires IsStep(s, Key(printable), s') && Ordered(s.sched, s.queues) && ByPriority(s.clock.policy)
    ensures KeepsOrder(s, s')
  {
    if printable {
      WakeAllOrdered(s, EventQ);
      var s1 := WakeAll(s, EventQ);
      ReturnOrdered(s1.(cpu := s1.cpu.(resched := true)));
    } else {
      ReturnOrdered(s);
    }
  }

  /** Threads are created from jobs only. */
  ghost predicate OrderlyEvent(s: State, e: Event)
    requires Consistent(s)
  {
    e.Run? && s.pc[s.cpu.current] == User ==> Orderly(e.call)
  }

  /** Under SJF and PRIORITY, as long as threads are created from jobs, the queues stay in order of
      priority, that is, of estimated burst or of priority number; and whenever another thread gets the
      processor, none that is ready is more urgent. */
  lemma MostUrgentNext(s: State, e: Event, s': State)
    requires Reachable(s) && IsStep(s, e, s') && Ordered(s.sched, s.queues) && ByPriority(s.clock.policy)
    requires OrderlyEvent(s, e)
    ensures KeepsOrder(s, s')
  {
    assert Here(s) && Places(Some(s.cpu.current), s.pc, s.sched, s.queues) by { ReachableInv(s); InvHere(s); }
    match e
    case Timer => ReturnOrdered(Tick(s));
    case Key(printable) => KeyOrdered(s, printable, s');
    case Run(call, keyReady) =>
      if s.pc[s.cpu.current] == User {
        CallOrdered(s, call);
      } else {
        StepIs(s, call, keyReady);
        OutcomeOrdered(s, Step(s, call, keyReady), keyReady);
      }
  }

  /** A step under SJF or PRIORITY that creates threads from jobs only, if any. */
  ghost predicate OrderlyStep(s: State, e: Event, s': State) {
    IsStep(s, e, s') && ByPriority(s.clock.policy) && OrderlyEvent(s, e)
  }

  ghost predicate ReachableInOrder(s: State) {
    Reachable(s) && Ordered(s.sched, s.queues)
  }

  /** Along any run under SJF or PRIORITY, or changing between the two, with threads created from jobs
      only: the queues stay in order, and every switch is to a most urgent thread. */
  lemma MostUrgentAlways(states: seq<State>, events: seq<Event>, i: nat)
    requires Chain(OrderlyStep, states, events) && ReachableInOrder(states[0]) && i < |events|
    ensures Ordered(states[i].sched, states[i].queues) && KeepsOrder(states[i], states[i + 1])
  {
    forall s: State, e: Event, s': State | ReachableInOrder(s) && OrderlyStep(s, e, s') ensures ReachableInOrder(s') {
      ReachableOn(s, e, s');
      MostUrgentNext(s, e, s');
    }
    ChainInvariant(OrderlyStep, states, events, ReachableInOrder, i);
    ChainAt(OrderlyStep, states, events, i);
    MostUrgentNext(states[i], events[i], states[i + 1]);
  }

  // ------------------------------------------------------------- when thread_create disorders

  /** thread_create puts the thread where priority 0 belongs, and then gives it the default priority. */
  lemma CreatedEntries(s: State, t: Tid, attached: bool)
    requires Consistent(s) && Ordered(s.sched, s.queues) && ByPriority(s.clock.policy)
    requires Places(Some(s.cpu.current), s.pc, s.sched, s.queues) && t !in s.pc
    ensures var s', q := CallStep(s, Create(t, attached)).s, Entries(s.sched, Q(s.queues, RunQ));
            && InsertPos(q, 0) <= |q|
            && Entries(s'.sched, Q(s'.queues, RunQ)) ==
                q[..InsertPos(q, 0)] + [Entry(t, DEFAULT_PRIORITY)] + q[InsertPos(q, 0)..]
            && Entries(s'.sched, Q(s'.queues, NewQ)) == Entries(s.sched, Q(s.queues, NewQ))
  {
    CreateIs(s, t, attached);
    var ts, s' := Q(s.queues, RunQ), CallStep(s, Create(t, attached)).s;
    assert QueueOk(s.pc, s.sched, s.queues, RunQ) && QueueOk(s.pc, s.sched, s.queues, NewQ);
    EntriesSame(s.sched, s.sched[t := Sched(NEW, Gone, 0)], ts);
    EntriesSame(s.sched, s'.sched, ts);
    EntriesSame(s.sched, s'.sched, Q(s.queues, NewQ));
    EntriesInsertAt(s'.sched, ts, CreateAt(s, t), t);
  }

  /** An entry of priority p put into a sorted queue at k, where all before k are at most 0 and all from
      k on are above 0: the result is sorted exactly if those from k on are at least p. */
  lemma SortedWith<T>(q: seq<Entry<T>>, k: nat, x: Entry<T>)
    requires k <= |q| && Sorted(q) && x.priority >= 0
    requires forall i :: 0 <= i < k ==> q[i].priority <= 0
    ensures Sorted(q[..k] + [x] + q[k..]) <==> forall i :: k <= i < |q| ==> x.priority <= q[i].priority
  {
    var r := q[..k] + [x] + q[k..];
    if Sorted(r) {
      forall i | k <= i < |q| ensures x.priority <= q[i].priority {
        assert r[k] == x && r[i + 1] == q[i];
      }
    }
  }

  /** After thread_create the queues are in order exactly if no ready thread has a priority between the 0
      with which the new thread is queued and the default priority it then gets. */
  lemma CreateOrderedExactly(s: State, t: Tid, attached: bool)
    requires Consistent(s) && Ordered(s.sched, s.queues) && ByPriority(s.clock.policy)
    requires Places(Some(s.cpu.current), s.pc, s.sched, s.queues) && t !in s.pc
    ensures var s' := CallStep(s, Create(t, attached)).s;
            Ordered(s'.sched, s'.queues) <==>
              forall u :: u in Q(s.queues, RunQ) ==>
                  PriorityOf(s.sched, u) <= 0 || DEFAULT_PRIORITY <= PriorityOf(s.sched, u)
  {
    var ts := Q(s.queues, RunQ);
    var q := Entries(s.sched, ts);
    var k := InsertPos(q, 0);
    CreatedEntries(s, t, attached);
    InsertPosSplits(q, 0);
    SortedWith(q, k, Entry(t, DEFAULT_PRIORITY));
    assert forall i :: 0 <= i < |ts| ==> q[i].priority == PriorityOf(s.sched, ts[i]) && ts[i] in ts;
    if forall u :: u in ts ==> PriorityOf(s.sched, u) <= 0 || DEFAULT_PRIORITY <= PriorityOf(s.sched, u) {
      forall i | k <= i < |q| ensures DEFAULT_PRIORITY <= q[i].priority {
        assert PriorityOf(s.sched, ts[i]) <= 0 || DEFAULT_PRIORITY <= PriorityOf(s.sched, ts[i]);
      }
    }
  }

  /** The order holds to begin with. */
  lemma InitiallyOrdered(s: State)
    requires Initial(s)
    ensures Ordered(s.sched, s.queues)
  {
  }
}
