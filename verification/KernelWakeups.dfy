/** What the loops that wake a whole queue amount to: thread_wakeup, the merge of new jobs, and a key
    (src/60-330/kernel/thread.c, src/x86/kernel/x86_keyb.c). */
module KernelWakeups {
  import opened Common
  import opened Runs
  import opened SchedulingOrder
  import opened KernelSteps
  import opened KernelPlaces
  import opened KernelInvariant
  import opened KernelSafety
  import opened KernelOrder

  /** The run queue with the priorities that order it. */
  function ReadyQueue(s: State): seq<Entry<Tid>> {
    Entries(s.sched, Q(s.queues, RunQ))
  }

  function EntryOf(s: State, t: Tid): Entry<Tid> {
    Entry(t, PriorityOf(s.sched, t))
  }

  /** Thread t is ready on the run queue, with the priority it had. */
  predicate MadeReady(s: State, s': State, t: Tid) {
    t in s.sched && t in s'.sched && s'.sched[t] == s.sched[t].(state := READY, place := In(RunQ))
  }

  /** thread_make_runnable queues a thread as the scheduler in force does. */
  lemma MakeRunnableMeans(s: State, t: Tid)
    requires t in s.sched
    ensures ReadyQueue(MakeRunnable(s, t)) == SchedulingOrder.Enqueue(s.clock.policy, ReadyQueue(s), EntryOf(s, t))
    ensures MadeReady(s, MakeRunnable(s, t), t)
    ensures forall u :: u != t && u in s.sched ==>
              u in MakeRunnable(s, t).sched && MakeRunnable(s, t).sched[u] == s.sched[u]
  {
    var ts, s' := Q(s.queues, RunQ), MakeRunnable(s, t);
    var k := Position(s.clock.policy, s.sched, ts, t);
    EntriesInsertAt(s.sched, ts, k, t);
    EntriesSame(s.sched, s'.sched, Q(s'.queues, RunQ));
  }

  /** Everybody on queue q has been made ready, queued one by one as the scheduler in force does, in waiting
      order; and nobody else is touched. */
  ghost predicate AllWoken(s: State, s': State, q: QueueId) {
    && Q(s'.queues, q) == []
    && ReadyQueue(s') == EnqueueAll(s.clock.policy, ReadyQueue(s), Entries(s.sched, Q(s.queues, q)))
    && (forall t {:trigger MadeReady(s, s', t)} :: t in Q(s.queues, q) ==> MadeReady(s, s', t))
    && (forall t :: t in s.sched && t !in Q(s.queues, q) ==> t in s'.sched && s'.sched[t] == s.sched[t])
    && (forall r :: r != q && r != RunQ ==> Q(s'.queues, r) == Q(s.queues, r))
  }

  lemma WakeOneMeans(s: State, q: QueueId)
    requires q != RunQ && Q(s.queues, q) != [] && Q(s.queues, q)[0] in s.sched
    ensures var x, s' := Q(s.queues, q)[0], WakeOne(s, q);
            && s' == s.(sched := s'.sched, queues := s'.queues) && Q(s'.queues, q) == Q(s.queues, q)[1..]
            && ReadyQueue(s') == SchedulingOrder.Enqueue(s.clock.policy, ReadyQueue(s), EntryOf(s, x))
            && MadeReady(s, s', x)
            && (forall t :: t in s.sched && t != x ==> t in s'.sched && s'.sched[t] == s.sched[t])
            && (forall r :: r != q && r != RunQ ==> Q(s'.queues, r) == Q(s.queues, r))
  {
    var x := Q(s.queues, q)[0];
    MakeRunnableMeans(s.(queues := s.queues[q := Q(s.queues, q)[1..]]), x);
  }

  lemma EntriesTail(sched: map<Tid, Sched>, q: seq<Tid>)
    requires q != []
    ensures Entries(sched, q)[1..] == Entries(sched, q[1..])
    ensures Entries(sched, q)[0] == Entry(q[0], PriorityOf(sched, q[0]))
  {
  }

  /** After the first thread, the rest. */
  lemma AllWokenOn(s: State, s1: State, s': State, q: QueueId)
    requires q != RunQ && Q(s.queues, q) != [] && Q(s.queues, q)[0] in s.sched && s1 == WakeOne(s, q)
    requires AllWoken(s1, s', q)
    requires forall i, j :: 0 <= i < j < |Q(s.queues, q)| ==> Q(s.queues, q)[i] != Q(s.queues, q)[j]
    requires forall t :: t in Q(s.queues, q) ==> t in s.sched
    ensures AllWoken(s, s', q)
  {
    var ts := Q(s.queues, q);
    WakeOneMeans(s, q);
    EntriesTail(s.sched, ts);
    forall t | t in ts[1..] ensures PriorityOf(s1.sched, t) == PriorityOf(s.sched, t) {
      assert t in ts && t != ts[0];
    }
    EntriesSame(s.sched, s1.sched, ts[1..]);
    forall t | t in ts ensures MadeReady(s, s', t) {
      assert t == ts[0] || t in ts[1..];
      assert t == ts[0] ==> t !in Q(s1.queues, q) && t in s1.sched;
      assert t != ts[0] ==> MadeReady(s1, s', t) && t in s.sched;
    }
    forall t | t in s.sched && t !in ts ensures t in s'.sched && s'.sched[t] == s.sched[t] {
      assert t !in ts[1..] && t != ts[0];
    }
  }

  /** thread_wakeup wakes everybody on the queue. */
  lemma {:induction false} WakeAllMeans(s: State, q: QueueId)
    requires q != RunQ
    requires forall i, j :: 0 <= i < j < |Q(s.queues, q)| ==> Q(s.queues, q)[i] != Q(s.queues, q)[j]
    requires forall t :: t in Q(s.queues, q) ==> t in s.sched
    ensures AllWoken(s, WakeAll(s, q), q)
    ensures WakeAll(s, q) == s.(sched := WakeAll(s, q).sched, queues := WakeAll(s, q).queues)
    decreases |Q(s.queues, q)|
  {
    var ts := Q(s.queues, q);
    if ts != [] {
      assert ts[0] in ts;
      WakeOneMeans(s, q);
      var s1 := WakeOne(s, q);
      assert forall t :: t in ts[1..] ==> t in ts && t in s1.sched;
      WakeAllMeans(s1, q);
      AllWokenOn(s, s1, WakeAll(s, q), q);
    }
  }

  /** Under FCFS and RR those woken follow those who were ready, in the order in which they waited. */
  lemma WokenInOrder(s: State, s': State, q: QueueId)
    requires AllWoken(s, s', q) && (s.clock.policy == FCFS || s.clock.policy == RR)
    ensures Q(s'.queues, RunQ) == Q(s.queues, RunQ) + Q(s.queues, q)
  {
    var ready, ts, ready' := Q(s.queues, RunQ), Q(s.queues, q), Q(s'.queues, RunQ);
    EnqueueAllAppends(s.clock.policy, ReadyQueue(s), Entries(s.sched, ts));
    assert ReadyQueue(s') == Entries(s.sched, ready) + Entries(s.sched, ts);
    assert |ready'| == |ReadyQueue(s')| == |ready| + |ts|;
    forall i | 0 <= i < |ready'| ensures ready'[i] == (ready + ts)[i] {
      assert ReadyQueue(s')[i].id == ready'[i];
    }
  }

  /** Under SJF and PRIORITY they are sorted in, behind those of equal priority. */
  lemma WokenByPriority(s: State, s': State, q: QueueId)
    requires AllWoken(s, s', q) && ByPriority(s.clock.policy) && Ordered(s.sched, s.queues)
    ensures IsStableSortOf(ReadyQueue(s'), ReadyQueue(s) + Entries(s.sched, Q(s.queues, q)))
  {
    EnqueueAllIsStable(s.clock.policy, ReadyQueue(s), Entries(s.sched, Q(s.queues, q)));
  }

  // ------------------------------------------------------------------------- switches

  /** The current thread has been queued as the scheduler in force does, and whoever is then first has the
      processor. */
  ghost predicate Requeued(s: State, s': State) {
    var ready := SchedulingOrder.Enqueue(s.clock.policy, ReadyQueue(s), EntryOf(s, s.cpu.current));
    && s'.cpu.current == ready[0].id && ReadyQueue(s') == ready[1..]
    && (forall q :: q != RunQ ==> Q(s'.queues, q) == Q(s.queues, q))
    && (forall t :: t in s.sched && t != s.cpu.current && t != s'.cpu.current ==>
          t in s'.sched && s'.sched[t] == s.sched[t])
  }

  lemma DispatchMeans(s1: State, saved: bool)
    requires s1.cpu.current in s1.iflag && Dispatch(s1, saved).Ok?
    ensures var s' := Dispatch(s1, saved).s;
            && s'.cpu.current == ReadyQueue(s1)[0].id && ReadyQueue(s') == ReadyQueue(s1)[1..]
            && (forall q :: q != RunQ ==> Q(s'.queues, q) == Q(s1.queues, q))
            && (forall t :: t in s1.sched && t != s'.cpu.current ==> t in s'.sched && s'.sched[t] == s1.sched[t])
            && s'.cpu.resched == s1.cpu.resched && s'.cpu.preempt == s1.cpu.preempt
  {
    var ready, s' := Q(s1.queues, RunQ), Dispatch(s1, saved).s;
    EntriesTail(s1.sched, ready);
    EntriesSame(s1.sched, s'.sched, ready[1..]);
  }

  lemma RequeueMeans(s: State, saved: bool)
    requires Consistent(s) && Requeue(s, saved).Ok?
    ensures Requeued(s, Requeue(s, saved).s) && Requeue(s, saved).s.cpu.resched == s.cpu.resched
  {
    MakeRunnableMeans(Relinquish(s), s.cpu.current);
    DispatchMeans(MakeRunnable(Relinquish(s), s.cpu.current), saved);
  }

  /** thread_yield lets the scheduler decide anew. */
  lemma YieldRequeues(s: State, e: Event, s': State)
    requires IsStep(s, e, s') && e.Run? && s.pc[s.cpu.current] == YieldSwitch
    ensures Requeued(s, s')
  {
    RequeueMeans(Goto(s, IntsOn), false);
  }

  lemma ReturnMeans(s: State)
    requires Consistent(s) && InterruptReturn(s).Ok?
    ensures s.cpu.preempt && s.cpu.resched ==> Requeued(s, InterruptReturn(s).s) && !InterruptReturn(s).s.cpu.resched
    ensures !(s.cpu.preempt && s.cpu.resched) ==> InterruptReturn(s).s == s
  {
    if s.cpu.preempt && s.cpu.resched {
      RequeueMeans(s.(cpu := s.cpu.(resched := false)), true);
    }
  }

  /** A tick takes the processor from a thread if and only if preemption is enabled and a switch has been
      asked for, or, under RR alone, the ticks since the last switch exceed the quantum; otherwise it changes
      nothing but clocks, and asks for the switch if it could not be made. */
  lemma TimerExactly(s: State, s': State)
    requires IsStep(s, Timer, s')
    ensures var asked := s.cpu.resched ||
                (s.clock.policy == RR && s.times[s.cpu.current].numTicks >= s.clock.quantum);
            if s.cpu.preempt && asked
            then Requeued(s, s') && !s'.cpu.resched
            else s'.cpu == s.cpu.(resched := asked) && s'.queues == s.queues && s'.sched == s.sched
  {
    ReturnMeans(Tick(s));
  }

  /** Nobody is on a queue twice, and all who are on it are known. */
  lemma QueueMembers(s: State, q: QueueId)
    requires Reachable(s)
    ensures forall i, j :: 0 <= i < j < |Q(s.queues, q)| ==> Q(s.queues, q)[i] != Q(s.queues, q)[j]
    ensures forall t :: t in Q(s.queues, q) ==> t in s.sched
  {
    ReachableInv(s);
    assert QueueOk(s.pc, s.sched, s.queues, q);
  }

  /** A printable key wakes everybody who waits for events, and then lets the scheduler decide anew, or asks
      for that if preemption is disabled. A key that is not printable does so only if it has been asked for. */
  lemma KeyExactly(s: State, printable: bool, s': State) returns (s1: State)
    requires Reachable(s) && IsStep(s, Key(printable), s')
    ensures if printable then AllWoken(s, s1, EventQ) && s1 == s.(sched := s1.sched, queues := s1.queues) else s1 == s
    ensures if s.cpu.preempt && (printable || s.cpu.resched)
            then Requeued(s1, s') && !s'.cpu.resched
            else s' == s1.(cpu := s.cpu.(resched := printable || s.cpu.resched))
  {
    if printable {
      QueueMembers(s, EventQ);
      WakeAllMeans(s, EventQ);
      s1 := WakeAll(s, EventQ);
      ReturnMeans(s1.(cpu := s1.cpu.(resched := true)));
    } else {
      s1 := s;
      ReturnMeans(s);
    }
  }

  /** So nobody waits for events after a printable key: everybody who did is ready, or has the processor. */
  lemma KeyWakesEverybody(s: State, s': State, t: Tid)
    requires Reachable(s) && IsStep(s, Key(true), s')
    ensures Q(s'.queues, EventQ) == []
    ensures t in Q(s.queues, EventQ) ==>
              t == s'.cpu.current || (t in s'.sched && s'.sched[t].state == READY && t in Q(s'.queues, RunQ))
  {
    var s1 := KeyExactly(s, true, s');
    ReachableOn(s, Key(true), s');
    if t in Q(s.queues, EventQ) {
      assert MadeReady(s, s1, t);
      assert t != s.cpu.current && Places(Some(s'.cpu.current), s'.pc, s'.sched, s'.queues) by {
        ReachableInv(s);
        ReachableInv(s');
        PlaceIsQueue(s, t);
      }
      assert t == s'.cpu.current || s'.sched[t] == s1.sched[t];
      assert PlaceOk(Some(s'.cpu.current), s'.pc, s'.sched, s'.queues, t);
    }
  }

  // -------------------------------------------------------------------------- loops

  /** The current thread is in a loop that wakes the first thread of q as long as there is one, and then goes
      on at next. */
  predicate Loops(s: State, q: QueueId, next: Pc) {
    Consistent(s) &&
    match s.pc[s.cpu.current]
    case BroadcastWake(c) => q == CondQ(c) && next == IntsOn
    case ExitWake => q == JoinQ(s.cpu.current) && next == ExitSwitch
    case MergeMove => q == NewQ && next == IntsOn
    case _ => false
  }

  lemma LoopStep(s: State, e: Event, s': State, q: QueueId, next: Pc)
    requires Reachable(s) && IsStep(s, e, s') && Loops(s, q, next)
    ensures Reachable(s') && Consistent(s') && s'.cpu == s.cpu
    ensures if Q(s.queues, q) == [] then s' == Goto(s, next) else s' == WakeOne(s, q) && Loops(s', q, next)
  {
    ReachableOn(s, e, s');
    assert Consistent(s') by { ReachableInv(s'); InvConsistent(s'); }
    assert !s.cpu.ints by { ReachableInv(s); InvHere(s); }
  }

  lemma LoopEnds(s: State, q: QueueId, next: Pc)
    requires Consistent(s) && Q(s.queues, q) == []
    ensures AllWoken(s, Goto(s, next), q)
  {
    assert Entries(s.sched, []) == [];
  }

  /** Such a loop is not interrupted, and when it is over everybody on the queue has been woken. */
  lemma {:induction false} LoopWakesAll(states: seq<State>, events: seq<Event>, q: QueueId, next: Pc, i: nat)
    requires Follow(states, events) && Reachable(states[0]) && Loops(states[0], q, next) && i < |states|
    ensures var s, n := states[0], |Q(states[0].queues, q)|;
            && (i <= n ==> Loops(states[i], q, next) && states[i].cpu == s.cpu)
            && (i == n + 1 ==> AllWoken(s, states[i], q) && states[i].cpu == s.cpu && Consistent(states[i])
                               && states[i].pc[s.cpu.current] == next)
    decreases i
  {
    if i > 0 {
      var s := states[0];
      ChainRest(IsStep, states, events);
      LoopStep(s, events[0], states[1], q, next);
      QueueMembers(s, q);
      if Q(s.queues, q) == [] {
        LoopEnds(s, q, next);
      } else {
        assert Q(s.queues, q)[0] in Q(s.queues, q) && Loops(states[1..][0], q, next);
        WakeOneMeans(s, q);
        LoopWakesAll(states[1..], events[1..], q, next, i - 1);
        if i == |Q(s.queues, q)| + 1 {
          AllWokenOn(s, states[1], states[i], q);
        }
      }
    }
  }

  /** The same of a loop that begins in states[k]. */
  lemma LoopFrom(states: seq<State>, events: seq<Event>, q: QueueId, next: Pc, k: nat, i: nat)
    requires Follow(states, events) && k <= i < |states| && Reachable(states[k]) && Loops(states[k], q, next)
    ensures var s, n := states[k], |Q(states[k].queues, q)|;
            && (i <= k + n ==> Loops(states[i], q, next) && states[i].cpu == s.cpu)
            && (i == k + n + 1 ==> AllWoken(s, states[i], q) && states[i].cpu == s.cpu)
  {
    ChainFrom(IsStep, states, events, k);
    LoopWakesAll(states[k..], events[k..], q, next, i - k);
  }

  /** A thread leaves such a loop only when nobody is left on the queue. */
  lemma LoopLeaves(s: State, e: Event, s': State, q: QueueId, next: Pc)
    requires Reachable(s) && IsStep(s, e, s') && Loops(s, q, next)
    requires s.cpu.current in s'.pc && s'.pc[s.cpu.current] != s.pc[s.cpu.current]
    ensures Q(s.queues, q) == Q(s'.queues, q) == []
  {
    LoopStep(s, e, s', q, next);
    WakeKeepsPc(s, q);
  }

  lemma WakeKeepsPc(s: State, q: QueueId)
    ensures WakeOne(s, q).pc == s.pc
  {
  }
}
