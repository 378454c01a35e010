/** Whose turn it is: under round-robin scheduling, how long a ready thread waits. */
module KernelTurns {
  import opened Common
  import opened Runs
  import opened SchedulingOrder
  import opened KernelSteps
  import opened KernelPlaces
  import opened KernelTimes
  import opened KernelInvariant
  import opened KernelSwitch
  import opened KernelStores
  import opened KernelCreate
  import opened KernelRuns
  import opened KernelSafety

  function RunQueue(s: State): seq<Tid> {
    Q(s.queues, RunQ)
  }

  /** The scheduler in force serves in order of arrival. */
  predicate InOrder(s: State) {
    s.clock.policy == RR || s.clock.policy == FCFS
  }

  /** The current thread goes on, its slice as before; threads may have joined the end of the run queue. */
  ghost predicate Stays(s: State, s': State) {
    && Consistent(s) && Consistent(s') && s'.cpu.current == s.cpu.current
    && RunQueue(s) <= RunQueue(s')
    && s'.times[s'.cpu.current].numTicks == s.times[s.cpu.current].numTicks
  }

  /** The first thread of the run queue, to whose end the current thread may have gone, is next. */
  ghost predicate Turns(s: State, s': State) {
    && Consistent(s) && Consistent(s')
    && (TurnsFrom(s, s', RunQueue(s)) || TurnsFrom(s, s', RunQueue(s) + [s.cpu.current]))
    && (forall t {:trigger s'.times[t]} :: t != s.cpu.current && t in s.times ==>
        t in s'.times && s'.times[t] == s.times[t])
    && (s'.cpu.current == s.cpu.current ==> s'.times[s'.cpu.current].numTicks == 0)
  }

  predicate TurnsFrom(s: State, s': State, ready: seq<Tid>) {
    ready != [] && s'.cpu.current == ready[0] && RunQueue(s') == ready[1..]
  }

  lemma WakeAppends(s: State, q: QueueId)
    requires Consistent(s) && InOrder(s) && q != RunQ
    ensures Stays(s, WakeOne(s, q)) && InOrder(WakeOne(s, q))
  {
  }

  lemma LockStays(s: State)
    requires Consistent(s) && LockStep(s).Ok? && Consistent(LockStep(s).s)
    ensures Stays(s, LockStep(s).s)
  {
  }

  lemma UnlockStays(s: State)
    requires Consistent(s) && InOrder(s) && UnlockStep(s).Ok?
    ensures Stays(s, UnlockStep(s).s)
  {
    var p := s.pc[s.cpu.current];
    if p.UnlockWake? {
      WakeAppends(s, MutexQ(p.m));
    }
  }

  lemma DispatchTurns(s1: State, saved: bool)
    requires s1.cpu.current in s1.iflag && Dispatch(s1, saved).Ok?
    ensures TurnsFrom(s1, Dispatch(s1, saved).s, RunQueue(s1))
    ensures Dispatch(s1, saved).s.times == s1.times
  {
  }

  lemma WaitTurns(s: State, q: QueueId, p: Pc)
    requires Consistent(s) && q != RunQ && WaitOn(Goto(s, p), q).Ok?
    requires Consistent(WaitOn(Goto(s, p), q).s)
    ensures Turns(s, WaitOn(Goto(s, p), q).s)
  {
    assert WaitOn(Goto(s, p), q) == Dispatch(Parked(s, q, p), false);
    DispatchTurns(Parked(s, q, p), false);
  }

  lemma RequeueTurns(s: State, saved: bool)
    requires Consistent(s) && InOrder(s) && Requeue(s, saved).Ok? && Consistent(Requeue(s, saved).s)
    ensures Turns(s, Requeue(s, saved).s)
  {
    DispatchTurns(MakeRunnable(Relinquish(s), s.cpu.current), saved);
  }

  lemma ParkSlides(s: State)
    requires Here(s) && ParkStep(s).Ok? && Consistent(ParkStep(s).s)
    ensures Stays(s, ParkStep(s).s) || Turns(s, ParkStep(s).s)
  {
    var p := s.pc[s.cpu.current];
    if p.ParkWait? {
      WaitTurns(s, p.q, ParkResume(p.q, p.m));
    }
  }

  lemma YieldTurns(s: State)
    requires Consistent(s) && InOrder(s) && SignalStep(s).Ok? && Consistent(SignalStep(s).s)
    requires s.pc[s.cpu.current] == YieldSwitch
    ensures Turns(s, SignalStep(s).s)
  {
    RequeueTurns(Goto(s, IntsOn), false);
  }

  lemma SignalSlides(s: State)
    requires Consistent(s) && InOrder(s) && SignalStep(s).Ok? && Consistent(SignalStep(s).s)
    ensures Stays(s, SignalStep(s).s) || Turns(s, SignalStep(s).s)
  {
    var p := s.pc[s.cpu.current];
    if p.SignalWake? || p.BroadcastWake? {
      WakeAppends(s, CondQ(p.c));
    } else if p.YieldSwitch? {
      YieldTurns(s);
    }
  }

  lemma DetachStays(s: State, t: Tid, p: Pc)
    requires Consistent(s) && InOrder(s) && t in s.refs && Then(Detach(s, t), p).Ok?
    ensures Stays(s, Then(Detach(s, t), p).s)
  {
    DetachIs(s, t, p);
    WakeAppends(s, EventQ);
  }

  lemma ExitTurns(s: State)
    requires Here(s) && s.pc[s.cpu.current] == ExitSwitch && ExitStep(s).Ok? && Consistent(ExitStep(s).s)
    requires s.cpu.current !in RunQueue(s)
    ensures Turns(s, ExitStep(s).s)
  {
    ExitSwitchIs(s);
    DispatchTurns(Ended(s), false);
  }

  lemma ExitSlides(s: State)
    requires Here(s) && InOrder(s) && ExitStep(s).Ok? && Consistent(ExitStep(s).s) && s.cpu.current !in RunQueue(s)
    ensures Stays(s, ExitStep(s).s) || Turns(s, ExitStep(s).s)
  {
    var p := s.pc[s.cpu.current];
    if p.ExitDetach? {
      DetachStays(s, s.cpu.current, ExitMark);
    } else if p.ExitWake? {
      WakeAppends(s, JoinQ(s.cpu.current));
    } else if p.ExitSwitch? {
      ExitTurns(s);
    }
  }

  lemma JoinSlides(s: State)
    requires Here(s) && InOrder(s) && JoinStep(s).Ok? && Consistent(JoinStep(s).s)
    ensures Stays(s, JoinStep(s).s) || Turns(s, JoinStep(s).s)
  {
    var p := s.pc[s.cpu.current];
    if p.JoinTest? {
      assert Goto(s, p) == s;
      if JoinStep(s) == WaitOn(s, JoinQ(p.child)) {
        WaitTurns(s, JoinQ(p.child), p);
      }
    } else if p.JoinDetach? {
      var s1 := s.(refs := s.refs[p.child := s.refs[p.child].(joined := true)]);
      DetachStays(s1, p.child, IntsOn);
    } else if p.MergeMove? {
      WakeAppends(s, NewQ);
    }
  }

  lemma WorkSlides(s: State, keyReady: bool)
    requires Here(s) && WorkStep(s, keyReady).Ok? && Consistent(WorkStep(s, keyReady).s)
    ensures Stays(s, WorkStep(s, keyReady).s) || Turns(s, WorkStep(s, keyReady).s)
  {
    var p := s.pc[s.cpu.current];
    if (p.KeyTest? && !keyReady) || (p.WorkTest? && s.work.items == []) {
      EventWaitIs(s, keyReady);
      assert Goto(s, p) == s;
      WaitTurns(s, EventQ, p);
    }
  }

  lemma CreateStays(s: State, t: Tid, attached: bool)
    requires Consistent(s) && InOrder(s) && t !in s.pc
    ensures Stays(s, CallStep(s, Create(t, attached)).s)
  {
    CreateIs(s, t, attached);
  }

  lemma CallStays(s: State, call: Call)
    requires Consistent(s) && InOrder(s) && CallStep(s, call).Ok?
    requires (call.Create? || call.CreateJob? ==> call.t !in s.pc)
    ensures Stays(s, CallStep(s, call).s)
  {
    match call
    case Create(t, attached) => CreateStays(s, t, attached);
    case CreateJob(t, attached, burst, priority) => CreateJobIs(s, t, attached, burst, priority);
    case _ =>
  }

  lemma StepSlides(s: State, call: Call, keyReady: bool)
    requires Inv(s) && Here(s) && InOrder(s) && Allowed(s, Run(call, keyReady))
    requires Step(s, call, keyReady).Ok? && Consistent(Step(s, call, keyReady).s)
    ensures Stays(s, Step(s, call, keyReady).s) || Turns(s, Step(s, call, keyReady).s)
  {
    PlaceIsQueue(s, s.cpu.current);
    var p := s.pc[s.cpu.current];
    if p.User? {
      CallStays(s, call);
    } else if p.LockEnter? || p.LockTest? || p.LockTake? || p.LockOwn? || p.PreemptOn? {
      LockStays(s);
    } else if p.ParkDisable? || p.ParkPreempt? || p.ParkWait? || p.ParkResume? || p.ParkEnable? {
      ParkSlides(s);
    } else if p.UnlockEnter? || p.UnlockState? || p.UnlockOwner? || p.UnlockTest? || p.UnlockDisable?
        || p.UnlockWake? || p.UnlockEnable? {
      UnlockStays(s);
    } else if p.ExitDisable? || p.ExitDetach? || p.ExitMark? || p.ExitWake? || p.ExitSwitch? {
      ExitSlides(s);
    } else if p.JoinDisable? || p.JoinTest? || p.JoinDetach? || p.MergeDisable? || p.MergeMove? {
      JoinSlides(s);
    } else if p.KeyDisable? || p.KeyTest? || p.WorkDisable? || p.WorkTest? || p.WorkTake? || p.WorkEnable?
        || p.WorkRun? {
      WorkSlides(s, keyReady);
    } else {
      SignalSlides(s);
    }
  }

  lemma {:induction false} WakeAllStays(s: State, q: QueueId)
    requires Consistent(s) && InOrder(s) && q != RunQ
    ensures Stays(s, WakeAll(s, q)) && InOrder(WakeAll(s, q)) && WakeAll(s, q).clock == s.clock
    ensures WakeAll(s, q).cpu == s.cpu
    decreases |Q(s.queues, q)|
  {
    if Q(s.queues, q) != [] && Q(s.queues, q)[0] in s.sched {
      WakeAppends(s, q);
      assert Q(WakeOne(s, q).queues, q) == Q(s.queues, q)[1..];
      WakeAllStays(WakeOne(s, q), q);
    }
  }

  lemma ReturnSlides(s: State)
    requires Consistent(s) && InOrder(s) && InterruptReturn(s).Ok? && Consistent(InterruptReturn(s).s)
    ensures s.cpu.preempt && s.cpu.resched ==> Turns(s, InterruptReturn(s).s)
    ensures !(s.cpu.preempt && s.cpu.resched) ==> InterruptReturn(s).s == s
  {
    if s.cpu.preempt && s.cpu.resched {
      RequeueTurns(s.(cpu := s.cpu.(resched := false)), true);
    }
  }

  // --------------------------------------------------------------------------- waiting

  /** Thread t is at position k of the run queue. */
  predicate Queued(s: State, t: Tid, k: nat) {
    k < |RunQueue(s)| && RunQueue(s)[k] == t
  }

  /** Round-robin with quantum q. */
  predicate RoundRobin(s: State, q: nat) {
    s.clock.policy == RR && s.clock.quantum == q
  }

  /** The ticks after which the current thread's slice is over. */
  function Remaining(s: State, q: nat): (r: nat)
    requires Consistent(s)
    ensures 1 <= r <= q + 1
  {
    var n := s.times[s.cpu.current].numTicks;
    if n >= q then 1 else q + 1 - n
  }

  /** The ticks after which the thread at position k runs at the latest. */
  function Delay(s: State, q: nat, k: nat): (d: nat)
    requires Consistent(s)
    ensures 1 <= d <= (k + 1) * (q + 1)
  {
    k * (q + 1) + Remaining(s, q)
  }

  /** Thread t runs in s', or it waits on the run queue and will run sooner by at least d ticks. */
  ghost predicate Sooner(s: State, s': State, q: nat, t: Tid, k: nat, d: nat)
    requires Consistent(s)
  {
    Consistent(s') &&
    (s'.cpu.current == t || exists k': nat :: Queued(s', t, k') && k' <= k && Delay(s', q, k') + d <= Delay(s, q, k))
  }

  lemma StaysSooner(s: State, s': State, q: nat, t: Tid, k: nat)
    requires Stays(s, s') && Queued(s, t, k)
    ensures Sooner(s, s', q, t, k, 0)
  {
    assert Queued(s', t, k);
  }

  /** A switch: whoever is next starts a fresh slice. */
  lemma TurnsSooner(s: State, s': State, q: nat, t: Tid, k: nat)
    requires Places(Some(s.cpu.current), s.pc, s.sched, s.queues)
    requires TimesOk(s.cpu.current, s.pc, s.times, s.clock.ticks)
    requires Turns(s, s') && Queued(s, t, k)
    ensures Sooner(s, s', q, t, k, 1)
  {
    if k > 0 {
      var next := RunQueue(s)[0];
      assert QueueOk(s.pc, s.sched, s.queues, RunQ);
      assert PlaceOk(Some(s.cpu.current), s.pc, s.sched, s.queues, next);
      assert TimeOk(s.cpu.current, s.pc, s.times, s.clock.ticks, next);
      assert Queued(s', t, k - 1);
      assert k * (q + 1) == (k - 1) * (q + 1) + (q + 1);
    }
  }

  lemma SoonerOn(s: State, s1: State, s': State, q: nat, t: Tid, k: nat, k1: nat, d: nat)
    requires Consistent(s) && Consistent(s1) && Queued(s1, t, k1) && k1 <= k && Delay(s1, q, k1) <= Delay(s, q, k)
    requires Sooner(s1, s', q, t, k1, d)
    ensures Sooner(s, s', q, t, k, d)
  {
  }

  /** One tick with preemption enabled brings every ready thread nearer to its turn. */
  lemma TickSooner(s: State, s': State, q: nat, t: Tid, k: nat)
    requires Inv(s) && IsStep(s, Timer, s') && RoundRobin(s, q) && Queued(s, t, k)
    ensures Sooner(s, s', q, t, k, if s.cpu.preempt then 1 else 0)
  {
    var s1 := Tick(s);
    TickKeeps(s);
    TimerKeeps(s);
    InvConsistent(s');
    ReturnSlides(s1);
    assert Queued(s1, t, k);
    if s1.cpu.preempt && s1.cpu.resched {
      TurnsSooner(s1, s', q, t, k);
      SoonerOn(s, s1, s', q, t, k, k, 1);
    } else {
      assert Queued(s', t, k);
    }
  }

  /** A key: first threads are woken, in s1, then there may be a switch. */
  lemma KeySlides(s: State, s': State, printable: bool) returns (s1: State)
    requires Inv(s) && IsStep(s, Key(printable), s') && InOrder(s)
    ensures Places(Some(s1.cpu.current), s1.pc, s1.sched, s1.queues)
    ensures TimesOk(s1.cpu.current, s1.pc, s1.times, s1.clock.ticks)
    ensures Stays(s, s1) && (s' == s1 || Turns(s1, s')) && s1.pc == s.pc
  {
    KeyKeeps(s, printable);
    InvConsistent(s');
    if printable {
      WakeAllKeeps(s);
      WakeAllStays(s, EventQ);
      ReschedKeeps(WakeAll(s, EventQ), true);
      s1 := WakeAll(s, EventQ).(cpu := s.cpu.(resched := true));
    } else {
      s1 := s;
    }
    ReturnSlides(s1);
  }

  lemma KeySooner(s: State, s': State, printable: bool, q: nat, t: Tid, k: nat)
    requires Inv(s) && IsStep(s, Key(printable), s') && RoundRobin(s, q) && Queued(s, t, k)
    ensures Sooner(s, s', q, t, k, 0)
  {
    var s1 := KeySlides(s, s', printable);
    if s' == s1 {
      StaysSooner(s, s1, q, t, k);
    } else {
      assert Queued(s1, t, k) && Delay(s1, q, k) == Delay(s, q, k);
      TurnsSooner(s1, s', q, t, k);
      SoonerOn(s, s1, s', q, t, k, k, 1);
    }
  }

  lemma RunSooner(s: State, s': State, call: Call, keyReady: bool, q: nat, t: Tid, k: nat)
    requires Inv(s) && IsStep(s, Run(call, keyReady), s') && RoundRobin(s, q) && Queued(s, t, k)
    ensures Sooner(s, s', q, t, k, 0)
  {
    InvHere(s);
    StepKeeps(s, Run(call, keyReady), s');
    InvConsistent(s');
    StepSlides(s, call, keyReady);
    if Stays(s, s') {
      StaysSooner(s, s', q, t, k);
    } else {
      TurnsSooner(s, s', q, t, k);
    }
  }

  /** The ticks that come while preemption is enabled. */
  ghost function PreemptibleTicks(states: seq<State>, events: seq<Event>): nat
    requires |states| == |events| + 1
  {
    if events == [] then 0
    else (if events[0] == Timer && states[0].cpu.preempt then 1 else 0) + PreemptibleTicks(states[1..], events[1..])
  }

  ghost predicate UnderRoundRobin(states: seq<State>, q: nat) {
    forall i {:trigger states[i]} :: 0 <= i < |states| ==> RoundRobin(states[i], q)
  }

  lemma StepSooner(s: State, e: Event, s': State, q: nat, t: Tid, k: nat)
    requires Inv(s) && IsStep(s, e, s') && RoundRobin(s, q) && Queued(s, t, k)
    ensures Sooner(s, s', q, t, k, if e == Timer && s.cpu.preempt then 1 else 0)
  {
    match e
    case Timer => TickSooner(s, s', q, t, k);
    case Key(printable) => KeySooner(s, s', printable, q, t, k);
    case Run(call, keyReady) => RunSooner(s, s', call, keyReady, q, t, k);
  }

  lemma ChainTail(states: seq<State>, events: seq<Event>)
    requires Follow(states, events) && events != []
    ensures Follow(states[1..], events[1..]) && IsStep(states[0], events[0], states[1])
  {
    ChainRest(IsStep, states, events);
  }

  /** The first step of a run: t runs, or is nearer to its turn, at position k'. */
  lemma FirstStep(states: seq<State>, events: seq<Event>, q: nat, t: Tid, k: nat) returns (k': nat)
    requires Follow(states, events) && events != [] && Reachable(states[0]) && UnderRoundRobin(states, q)
    requires Consistent(states[0]) && Queued(states[0], t, k)
    requires PreemptibleTicks(states, events) >= Delay(states[0], q, k)
    ensures Follow(states[1..], events[1..]) && Reachable(states[1]) && Consistent(states[1])
    ensures UnderRoundRobin(states[1..], q)
    ensures states[1].cpu.current != t ==>
              && Queued(states[1], t, k')
              && PreemptibleTicks(states[1..], events[1..]) >= Delay(states[1], q, k')
  {
    ChainTail(states, events);
    ReachableInv(states[0]);
    StepSooner(states[0], events[0], states[1], q, t, k);
    ReachableOn(states[0], events[0], states[1]);
    StepKeeps(states[0], events[0], states[1]);
    InvConsistent(states[1]);
    var rest := states[1..];
    forall i | 0 <= i < |rest| ensures RoundRobin(rest[i], q) {
      assert RoundRobin(states[i + 1], q);
    }
    k' := 0;
    if states[1].cpu.current != t {
      var d := if events[0] == Timer && states[0].cpu.preempt then 1 else 0;
      k' :| Queued(states[1], t, k') && k' <= k && Delay(states[1], q, k') + d <= Delay(states[0], q, k);
    }
  }

  /** Within as many preemptible ticks as its delay, the thread at position k has run. */
  lemma {:induction false} ServedInTime(states: seq<State>, events: seq<Event>, q: nat, t: Tid, k: nat)
    requires Follow(states, events) && Reachable(states[0]) && UnderRoundRobin(states, q)
    requires Consistent(states[0]) && Queued(states[0], t, k)
    requires PreemptibleTicks(states, events) >= Delay(states[0], q, k)
    ensures exists i :: 0 <= i < |states| && states[i].cpu.current == t
    decreases |events|
  {
    var k' := FirstStep(states, events, q, t, k);
    var rest := states[1..];
    assert rest[0] == states[1];
    if states[1].cpu.current != t {
      ServedInTime(rest, events[1..], q, t, k');
      var i :| 0 <= i < |rest| && rest[i].cpu.current == t;
      assert states[i + 1].cpu.current == t;
    }
  }

  /** Under round-robin with quantum q, a ready thread at position k of the run queue becomes current
      within (k + 1)(q + 1) ticks that find preemption enabled. */
  lemma RoundRobinServes(states: seq<State>, events: seq<Event>, q: nat, t: Tid, k: nat)
    requires Follow(states, events) && Reachable(states[0]) && UnderRoundRobin(states, q) && Queued(states[0], t, k)
    requires PreemptibleTicks(states, events) >= (k + 1) * (q + 1)
    ensures exists i :: 0 <= i < |states| && states[i].cpu.current == t
  {
    assert Consistent(states[0]) by { ReachableInv(states[0]); InvConsistent(states[0]); }
    ServedInTime(states, events, q, t, k);
  }

  // ------------------------------------------------------------------------- slices

  /** The ticks the current thread has run since it was last switched to. */
  function Slice(s: State): nat
    requires Consistent(s)
  {
    s.times[s.cpu.current].numTicks
  }

  lemma TurnsFresh(s: State, s': State)
    requires Places(Some(s.cpu.current), s.pc, s.sched, s.queues)
    requires TimesOk(s.cpu.current, s.pc, s.times, s.clock.ticks)
    requires Turns(s, s')
    ensures Slice(s') == 0
  {
    var next := s'.cpu.current;
    if next != s.cpu.current {
      assert QueueOk(s.pc, s.sched, s.queues, RunQ);
      assert PlaceOk(Some(s.cpu.current), s.pc, s.sched, s.queues, next);
      assert TimeOk(s.cpu.current, s.pc, s.times, s.clock.ticks, next);
    }
  }

  /** A switch is to another thread, the first that is ready, unless nobody is; and then it is idle that
      runs. */
  lemma TurnsAway(s: State, s': State)
    requires Places(Some(s.cpu.current), s.pc, s.sched, s.queues) && IDLE in s.pc
    requires Turns(s, s')
    ensures RunQueue(s) == [] ==> s'.cpu.current == s.cpu.current == IDLE
    ensures RunQueue(s) != [] ==> s'.cpu.current == RunQueue(s)[0] != s.cpu.current
  {
    assert PlaceOk(Some(s.cpu.current), s.pc, s.sched, s.queues, IDLE);
    assert PlaceOk(Some(s.cpu.current), s.pc, s.sched, s.queues, s.cpu.current);
    assert QueueOk(s.pc, s.sched, s.queues, RunQ);
    if RunQueue(s) != [] {
      assert RunQueue(s)[0] in RunQueue(s);
    }
  }

  /** A preemptible tick either counts, or ends the slice; and then, unless it was idle that ran, the first
      ready thread gets the processor. */
  lemma TickSlice(s: State, s': State, q: nat)
    requires Inv(s) && IsStep(s, Timer, s') && RoundRobin(s, q) && s.cpu.preempt
    ensures Consistent(s') && Slice(s') <= (if Slice(s) >= q then 0 else Slice(s) + 1)
    ensures Slice(s) >= q && s.cpu.current != IDLE ==>
              RunQueue(s) != [] && s'.cpu.current == RunQueue(s)[0] != s.cpu.current
    ensures s.cpu.current != IDLE && s'.cpu.current == s.cpu.current ==> Slice(s) < q && Slice(s') == Slice(s) + 1
  {
    var s1 := Tick(s);
    TickKeeps(s);
    assert Consistent(s') by {
      TimerKeeps(s);
      InvConsistent(s');
    }
    ReturnSlides(s1);
    if s1.cpu.resched {
      TurnsFresh(s1, s');
      if s.cpu.current != IDLE {
        TurnsAway(s1, s');
      }
    }
  }

  /** A preemptible tick that ends a slice leaves the same thread running if and only if nobody else is
      ready; and that is only so when idle runs. */
  lemma ExpiredTickExactly(s: State, s': State, q: nat)
    requires Reachable(s) && IsStep(s, Timer, s') && RoundRobin(s, q) && s.cpu.preempt && Slice(s) >= q
    ensures s'.cpu.current == s.cpu.current <==> RunQueue(s) == []
    ensures RunQueue(s) == [] ==> s.cpu.current == IDLE
    ensures RunQueue(s) != [] ==> s'.cpu.current == RunQueue(s)[0]
  {
    var s1 := Tick(s);
    assert Inv(s) && Inv(s1) by {
      ReachableInv(s);
      TickKeeps(s);
    }
    assert Consistent(s') by {
      TimerKeeps(s);
      InvConsistent(s');
    }
    ReturnSlides(s1);
    TurnsAway(s1, s');
  }

  /** No slice is cut short: below the quantum, and unless a switch has been asked for, a tick leaves the
      current thread running. */
  lemma SliceNotCutShort(s: State, s': State, q: nat)
    requires IsStep(s, Timer, s') && RoundRobin(s, q) && Slice(s) < q && !s.cpu.resched
    ensures s'.cpu.current == s.cpu.current && Consistent(s') && Slice(s') == Slice(s) + 1
  {
  }

  lemma OtherSlice(s: State, e: Event, s': State)
    requires Inv(s) && IsStep(s, e, s') && InOrder(s) && e != Timer
    ensures Consistent(s') && Slice(s') <= Slice(s)
  {
    match e
    case Run(call, keyReady) =>
      InvHere(s);
      StepKeeps(s, e, s');
      InvConsistent(s');
      StepSlides(s, call, keyReady);
      if !Stays(s, s') {
        TurnsFresh(s, s');
      }
    case Key(printable) =>
      var s1 := KeySlides(s, s', printable);
      if s' != s1 {
        TurnsFresh(s1, s');
      }
  }

  ghost predicate SliceWithin(s: State, q: nat) {
    Inv(s) && Consistent(s) && Slice(s) <= q
  }

  ghost predicate TicksPreempt(states: seq<State>, events: seq<Event>) {
    |states| == |events| + 1
    && forall j {:trigger events[j]} :: 0 <= j < |events| && events[j] == Timer ==> states[j].cpu.preempt
  }

  lemma SliceStep(s: State, e: Event, s': State, q: nat)
    requires SliceWithin(s, q) && IsStep(s, e, s') && RoundRobin(s, q) && (e == Timer ==> s.cpu.preempt)
    ensures SliceWithin(s', q)
  {
    StepKeeps(s, e, s');
    if e == Timer {
      TickSlice(s, s', q);
    } else {
      OtherSlice(s, e, s');
    }
  }

  ghost function PreemptingStep(q: nat): (State, Event, State) -> bool {
    (s: State, e: Event, s': State) => IsStep(s, e, s') && RoundRobin(s, q) && (e == Timer ==> s.cpu.preempt)
  }

  ghost function Within(q: nat): State -> bool {
    s => SliceWithin(s, q)
  }

  lemma WithinKept(q: nat)
    ensures forall s, e, s' :: Within(q)(s) && PreemptingStep(q)(s, e, s') ==> Within(q)(s')
  {
    forall s, e, s' | Within(q)(s) && PreemptingStep(q)(s, e, s') ensures Within(q)(s') {
      SliceStep(s, e, s', q);
    }
  }

  lemma PreemptingChain(states: seq<State>, events: seq<Event>, q: nat)
    requires Follow(states, events) && UnderRoundRobin(states, q) && TicksPreempt(states, events)
    ensures Chain(PreemptingStep(q), states, events)
  {
    forall i | 0 <= i < |events| ensures PreemptingStep(q)(states[i], events[i], states[i + 1]) {
      assert RoundRobin(states[i], q);
    }
  }

  /** Under round-robin with quantum q, if every tick finds preemption enabled, the ticks counted since
      the last switch, be it to the same thread, never exceed q. */
  lemma SlicesBounded(states: seq<State>, events: seq<Event>, q: nat, i: nat)
    requires Follow(states, events) && UnderRoundRobin(states, q) && TicksPreempt(states, events) && i < |states|
    requires SliceWithin(states[0], q)
    ensures SliceWithin(states[i], q)
  {
    PreemptingChain(states, events, q);
    WithinKept(q);
    ChainInvariant(PreemptingStep(q), states, events, Within(q), i);
  }

  /** As long as a thread other than idle stays current, its slice counts the ticks. */
  lemma SliceCounts(s: State, e: Event, s': State, q: nat)
    requires Reachable(s) && IsStep(s, e, s') && RoundRobin(s, q) && (e == Timer ==> s.cpu.preempt)
    requires s'.cpu.current == s.cpu.current != IDLE
    ensures Consistent(s') && Slice(s') == Slice(s) + (if e == Timer then 1 else 0) && (e == Timer ==> Slice(s) < q)
  {
    assert Inv(s) by { ReachableInv(s); }
    match e
    case Timer => TickSlice(s, s', q);
    case Key(printable) =>
      var s1 := KeySlides(s, s', printable);
      if s' != s1 {
        TurnsAway(s1, s');
      }
    case Run(call, keyReady) => RunCounts(s, call, keyReady, s');
  }

  lemma RunCounts(s: State, call: Call, keyReady: bool, s': State)
    requires Inv(s) && IsStep(s, Run(call, keyReady), s') && InOrder(s)
    requires s'.cpu.current == s.cpu.current != IDLE
    ensures Consistent(s') && Slice(s') == Slice(s)
  {
    assert Here(s) by { InvHere(s); }
    assert Consistent(s') by {
      StepKeeps(s, Run(call, keyReady), s');
      InvConsistent(s');
    }
    StepSlides(s, call, keyReady);
    if !Stays(s, s') {
      TurnsAway(s, s');
    }
  }

  function Ticks(events: seq<Event>): nat {
    if events == [] then 0 else (if events[0] == Timer then 1 else 0) + Ticks(events[1..])
  }

  /** Thread t is current in every state of the run. */
  ghost predicate RunsOn(states: seq<State>, t: Tid) {
    forall i {:trigger states[i]} :: 0 <= i < |states| ==> states[i].cpu.current == t
  }

  ghost predicate AlwaysRoundRobin(states: seq<State>, events: seq<Event>, q: nat) {
    UnderRoundRobin(states, q) && TicksPreempt(states, events)
  }

  lemma FirstCounts(states: seq<State>, events: seq<Event>, q: nat, t: Tid)
    requires Follow(states, events) && Reachable(states[0]) && AlwaysRoundRobin(states, events, q) && RunsOn(states, t)
    requires t != IDLE && events != []
    ensures Follow(states[1..], events[1..]) && Reachable(states[1])
    ensures AlwaysRoundRobin(states[1..], events[1..], q) && RunsOn(states[1..], t)
    ensures Consistent(states[0]) && Consistent(states[1])
    ensures Slice(states[1]) == Slice(states[0]) + (if events[0] == Timer then 1 else 0)
    ensures events[0] == Timer ==> Slice(states[0]) < q
  {
    ChainTail(states, events);
    ReachableOn(states[0], events[0], states[1]);
    assert RoundRobin(states[0], q) && states[0].cpu.current == states[1].cpu.current == t;
    SliceCounts(states[0], events[0], states[1], q);
    var rest, later := states[1..], events[1..];
    forall i | 0 <= i < |rest| ensures RoundRobin(rest[i], q) && rest[i].cpu.current == t {
      assert rest[i] == states[i + 1];
    }
    forall i | 0 <= i < |later| && later[i] == Timer ensures rest[i].cpu.preempt {
      assert later[i] == events[i + 1];
    }
  }

  /** Under round-robin with quantum q, while a thread other than idle stays current, and as long as ticks
      find preemption enabled, at most q ticks come, less those already counted in its slice: the tick
      after them gives the processor to another thread (TickSlice). So nobody but idle runs for more than
      q + 1 ticks in a row. */
  lemma {:induction false} ConsecutiveTicks(states: seq<State>, events: seq<Event>, q: nat, t: Tid)
    requires Follow(states, events) && Reachable(states[0]) && AlwaysRoundRobin(states, events, q) && RunsOn(states, t)
    requires t != IDLE && Consistent(states[0])
    ensures Ticks(events) == 0 || Slice(states[0]) + Ticks(events) <= q
    decreases |events|
  {
    if events != [] {
      FirstCounts(states, events, q, t);
      ConsecutiveTicks(states[1..], events[1..], q, t);
    }
  }

  /** The exception: when nobody else is ready, the tick that ends idle's slice leaves it running. */
  lemma IdleRunsOn(s: State, s': State)
    requires Inv(s) && IsStep(s, Timer, s') && s.cpu.current == IDLE && RunQueue(s) == []
    ensures s'.cpu.current == IDLE
  {
    var s1 := Tick(s);
    TickKeeps(s);
    assert InterruptReturn(s1).Ok?;
  }

  // ------------------------------------------------------ switches and the flag protocol

  /** While g_preemption is clear nobody else gets the processor, whatever happens. */
  lemma NoSwitchInside(s: State, e: Event, s': State)
    requires Reachable(s) && IsStep(s, e, s') && !s.cpu.preempt
    ensures s'.cpu.current == s.cpu.current
  {
    ReachableInv(s);
    InvHere(s);
    match e
    case Timer =>
    case Key(printable) =>
      if printable {
        WakeAllKeeps(s);
      }
    case Run(call, keyReady) =>
      var p := s.pc[s.cpu.current];
      assert PreemptOff(p);
      InsideStays(s, call, keyReady);
  }

  lemma InsideStays(s: State, call: Call, keyReady: bool)
    requires Consistent(s) && PreemptOff(s.pc[s.cpu.current])
    ensures Step(s, call, keyReady).Ok? ==> Step(s, call, keyReady).s.cpu.current == s.cpu.current
  {
  }
}
