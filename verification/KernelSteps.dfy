/** The kernel as a machine that executes one statement of one thread at a time, with interrupts
    arriving between statements (thread.c, synch.c, timer.c, workqueue.c, x86_int_asm.S).
    Statements that run back to back with interrupts off and touch nothing another thread could
    see in between are one step. A failed KASSERT is the outcome Panic. */
module KernelSteps {
  import opened Common
  import opened SchedulingOrder

  type Tid = nat

  const MAIN: Tid := 0
  const IDLE: Tid := 1
  const WORKER: Tid := 2

  /** EventQ is s_waitqueue, shared by the workqueue thread and by readers of the keyboard. */
  datatype QueueId = RunQ | NewQ | MutexQ(m: nat) | CondQ(c: nat) | JoinQ(child: Tid) | EventQ

  /** Where a thread is in the kernel's code: the statement it executes next. In park, q is the queue
      waited on and m the mutex to be locked afterwards; in unlock, k is the condition to wait on
      afterwards, if the caller is cond_wait. */
  datatype Pc =
    | Start
    | User
    | LockEnter(m: nat) | LockTest(m: nat) | LockTake(m: nat) | LockOwn(m: nat) | PreemptOn
    | ParkDisable(q: QueueId, m: nat) | ParkPreempt(q: QueueId, m: nat) | ParkWait(q: QueueId, m: nat)
    | ParkResume(q: QueueId, m: nat) | ParkEnable(m: nat)
    | UnlockEnter(m: nat, k: Option<nat>) | UnlockState(m: nat, k: Option<nat>) | UnlockOwner(m: nat, k: Option<nat>)
    | UnlockTest(m: nat, k: Option<nat>) | UnlockDisable(m: nat, k: Option<nat>)
    | UnlockWake(m: nat, k: Option<nat>) | UnlockEnable(m: nat, k: Option<nat>)
    | SignalDisable(c: nat) | SignalWake(c: nat) | BroadcastDisable(c: nat) | BroadcastWake(c: nat)
    | YieldDisable | YieldSwitch
    | IntsOn
    | ExitDisable | ExitDetach | ExitMark | ExitWake | ExitSwitch | Dead
    | JoinDisable(child: Tid) | JoinTest(child: Tid) | JoinDetach(child: Tid)
    | MergeDisable | MergeMove
    | KeyDisable | KeyTest
    | WorkDisable | WorkTest | WorkTake | WorkEnable(item: Tid) | WorkRun(item: Tid)

  /** What a thread outside the kernel may ask for next. */
  datatype Call =
    | Compute
    | Lock(m: nat) | Unlock(m: nat) | CondWait(c: nat, m: nat) | Signal(c: nat) | Broadcast(c: nat)
    | Yield | Exit | Join(child: Tid) | ReadKey
    | Create(t: Tid, attached: bool) | CreateJob(t: Tid, attached: bool, burst: int, priority: int) | Merge
    | FirstResponse | SetPolicy(policy: Policy, quantum: int)

  datatype Event = Run(call: Call, keyReady: bool) | Timer | Key(printable: bool)

  /** Which place a thread is in, kept only for the proofs: In(q) records the queue it was put on. */
  datatype Place = OnCpu | In(q: QueueId) | Gone

  datatype Sched = Sched(state: ThreadState, place: Place, priority: int)

  /** parent is set for an attached thread; joined records, for the proofs, that the parent let go. */
  datatype Refs = Refs(refcount: int, parent: Option<Tid>, joined: bool)

  /** waited counts, for the proofs, the ticks a thread was alive but not current. */
  datatype Times = Times(numTicks: nat, job: bool, arrival: nat, running: nat, waited: nat,
                         response: Option<nat>, termination: nat)

  datatype Mutex = Mutex(locked: bool, owner: Option<Tid>)

  datatype Cpu = Cpu(current: Tid, preempt: bool, ints: bool, resched: bool)

  datatype Clock = Clock(policy: Policy, quantum: int, ticks: nat)

  /** Work items are threads to destroy; log and done list, for the proofs, all items ever
      scheduled and all items finished. */
  datatype Work = Work(items: seq<Tid>, log: seq<Tid>, done: seq<Tid>)

  datatype State = State(
    cpu: Cpu,
    clock: Clock,
    pc: map<Tid, Pc>,
    iflag: map<Tid, bool>,        // interrupt flag saved while a thread is not running
    sched: map<Tid, Sched>,
    queues: map<QueueId, seq<Tid>>,
    mutexes: map<nat, Mutex>,
    held: map<Tid, set<nat>>,     // for the proofs: mutexes each thread is between lock and unlock of
    refs: map<Tid, Refs>,
    times: map<Tid, Times>,
    work: Work)

  /** The current thread is one the kernel knows. */
  predicate Consistent(s: State) {
    var c := s.cpu.current;
    c in s.pc && c in s.iflag && c in s.sched && c in s.held && c in s.refs && c in s.times
  }

  function Q(queues: map<QueueId, seq<Tid>>, q: QueueId): seq<Tid> {
    if q in queues then queues[q] else []
  }

  function MutexOf(mutexes: map<nat, Mutex>, m: nat): Mutex {
    if m in mutexes then mutexes[m] else Mutex(false, None)
  }

  datatype Outcome = Ok(s: State) | Panic

  // ------------------------------------------------------------ scheduling primitives

  function Entries(sched: map<Tid, Sched>, q: seq<Tid>): (r: seq<Entry<Tid>>)
    ensures |r| == |q|
  {
    seq(|q|, i requires 0 <= i < |q| => Entry(q[i], if q[i] in sched then sched[q[i]].priority else 0))
  }

  /** Where the scheduler in force puts thread t on a queue. */
  function Position(policy: Policy, sched: map<Tid, Sched>, q: seq<Tid>, t: Tid): (k: nat)
    ensures k <= |q|
  {
    if (policy == SJF || policy == PRIORITY) && t in sched
    then InsertPos(Entries(sched, q), sched[t].priority)
    else |q|
  }

  function InsertAt(q: seq<Tid>, k: nat, t: Tid): seq<Tid>
    requires k <= |q|
  {
    q[..k] + [t] + q[k..]
  }

  /** Puts thread t on the run queue or the new queue, as the scheduler in force says. */
  function Enqueue(s: State, q: QueueId, state: ThreadState, t: Tid): State
    requires t in s.sched
  {
    s.(sched := s.sched[t := s.sched[t].(state := state, place := In(q))],
       queues := s.queues[q := InsertAt(Q(s.queues, q), Position(s.clock.policy, s.sched, Q(s.queues, q), t), t)])
  }

  /** thread_make_runnable */
  function MakeRunnable(s: State, t: Tid): State
    requires t in s.sched
  {
    Enqueue(s, RunQ, READY, t)
  }

  /** thread_wakeup_one: nothing happens if nobody waits. KernelAsserts is about the kernel in which the
      assertion of list.h halts it instead. */
  function WakeOne(s: State, q: QueueId): State {
    var ts := Q(s.queues, q);
    if ts == [] || ts[0] !in s.sched then s else MakeRunnable(s.(queues := s.queues[q := ts[1..]]), ts[0])
  }

  /** thread_next_runnable and the switch to it; the flags of the thread left behind are saved. */
  function Dispatch(s: State, saved: bool): Outcome
    requires s.cpu.current in s.iflag
  {
    var ready := Q(s.queues, RunQ);
    if ready == [] || ready[0] !in s.sched || ready[0] !in s.iflag then
      Panic
    else
      var next := ready[0];
      var iflag := s.iflag[s.cpu.current := saved];
      Ok(s.(queues := s.queues[RunQ := ready[1..]],
            sched := s.sched[next := s.sched[next].(state := RUNNING, place := OnCpu)],
            iflag := iflag,
            cpu := s.cpu.(current := next, ints := iflag[next])))
  }

  /** thread_relinquish_cpu */
  function Relinquish(s: State): State
    requires s.cpu.current in s.times
  {
    s.(times := s.times[s.cpu.current := s.times[s.cpu.current].(numTicks := 0)])
  }

  /** thread_wait */
  function WaitOn(s: State, q: QueueId): Outcome
    requires Consistent(s)
  {
    var t := s.cpu.current;
    if s.cpu.ints || s.sched[t].state != RUNNING then
      Panic
    else
      var s1 := Relinquish(s);
      Dispatch(s1.(sched := s1.sched[t := s1.sched[t].(place := In(q))],
                   queues := s1.queues[q := Q(s1.queues, q) + [t]]), false)
  }

  /** The current thread goes back on the run queue and another, or the same, is dispatched. */
  function Requeue(s: State, saved: bool): Outcome
    requires Consistent(s)
  {
    if s.sched[s.cpu.current].state != RUNNING then
      Panic
    else
      Dispatch(MakeRunnable(Relinquish(s), s.cpu.current), saved)
  }

  // ------------------------------------------------------------------ interrupts

  /** The end of every interrupt: switch only if preemption is on and a switch was asked for. */
  function InterruptReturn(s: State): Outcome
    requires Consistent(s)
  {
    if !s.cpu.preempt || !s.cpu.resched then
      Ok(s)
    else
      Requeue(s.(cpu := s.cpu.(resched := false)), true)
  }

  function TickTimes(s: State, t: Tid): Times
    requires t in s.times
  {
    var m := s.times[t];
    if t == s.cpu.current then m.(numTicks := m.numTicks + 1, running := m.running + 1)
    else if t in s.sched && s.sched[t].state != EXITED then m.(waited := m.waited + 1)
    else m
  }

  /** timer_process_tick */
  function Tick(s: State): State
    requires Consistent(s)
  {
    var times := map t | t in s.times :: TickTimes(s, t);
    var expired := s.clock.policy == RR && times[s.cpu.current].numTicks > s.clock.quantum;
    s.(clock := s.clock.(ticks := s.clock.ticks + 1),
       times := times,
       cpu := s.cpu.(resched := s.cpu.resched || expired))
  }

  /** thread_wakeup */
  function WakeAll(s: State, q: QueueId): State
    requires q != RunQ
    decreases |Q(s.queues, q)|
  {
    if Q(s.queues, q) == [] || Q(s.queues, q)[0] !in s.sched then s
    else
      var s' := WakeOne(s, q);
      assert Q(s'.queues, q) == Q(s.queues, q)[1..];
      WakeAll(s', q)
  }

  // ------------------------------------------------------------------- threads

  /** thread_detach: the last reference schedules the thread's destruction. */
  function Detach(s: State, t: Tid): Outcome
    requires t in s.refs
  {
    if s.cpu.ints || s.refs[t].refcount <= 0 then
      Panic
    else
      var s1 := s.(refs := s.refs[t := s.refs[t].(refcount := s.refs[t].refcount - 1)]);
      if s1.refs[t].refcount == 0 then
        Ok(WakeOne(s1.(work := s1.work.(items := s1.work.items + [t], log := s1.work.log + [t])), EventQ))
      else
        Ok(s1)
  }

  const DEFAULT_PRIORITY: int := 100

  /** thread_create_from_job looks at the policy in force when the job is created. */
  function JobPriority(policy: Policy, burst: int, priority: int): int {
    if policy == SJF then burst else if policy == PRIORITY then priority else DEFAULT_PRIORITY
  }

  function AddThread(s: State, t: Tid, attached: bool, priority: int, job: bool, arrival: nat): State {
    s.(pc := s.pc[t := Start],
       iflag := s.iflag[t := false],
       sched := s.sched[t := Sched(NEW, Gone, priority)],
       held := s.held[t := {}],
       refs := s.refs[t := Refs(if attached then 2 else 1, if attached then Some(s.cpu.current) else None, false)],
       times := s.times[t := Times(0, job, arrival, 0, 0, None, 0)])
  }

  // --------------------------------------------------------------------- steps

  /** Moves the current thread on to another statement. */
  function Goto(s: State, p: Pc): State {
    s.(pc := s.pc[s.cpu.current := p])
  }

  function Ints(s: State, on: bool): Outcome {
    if s.cpu.ints == on then Panic else Ok(s.(cpu := s.cpu.(ints := on)))
  }

  function Then(o: Outcome, p: Pc): Outcome {
    if o.Panic? then Panic else Ok(Goto(o.s, p))
  }

  function Preempt(s: State, on: bool): State {
    s.(cpu := s.cpu.(preempt := on))
  }

  function SetMutex(s: State, m: nat, mutex: Mutex): State {
    s.(mutexes := s.mutexes[m := mutex])
  }

  /** After the unlock part: mutex_unlock returns, cond_wait parks on its condition. */
  function AfterUnlock(m: nat, k: Option<nat>): Pc {
    match k
    case None => PreemptOn
    case Some(c) => ParkDisable(CondQ(c), m)
  }

  predicate IsHeld(s: State, m: nat) {
    MutexOf(s.mutexes, m).locked && MutexOf(s.mutexes, m).owner == Some(s.cpu.current)
  }

  function LockStep(s: State): Outcome
    requires Consistent(s)
  {
    var t := s.cpu.current;
    match s.pc[t]
    case LockEnter(m) =>
      if !s.cpu.ints || IsHeld(s, m) then Panic else Ok(Goto(Preempt(s, false), LockTest(m)))
    case LockTest(m) =>
      Ok(Goto(s, if MutexOf(s.mutexes, m).locked then ParkDisable(MutexQ(m), m) else LockTake(m)))
    case LockTake(m) =>
      Ok(Goto(SetMutex(s, m, MutexOf(s.mutexes, m).(locked := true)), LockOwn(m)))
    case LockOwn(m) =>
      Ok(Goto(SetMutex(s, m, MutexOf(s.mutexes, m).(owner := Some(t))).(held := s.held[t := s.held[t] + {m}]),
          PreemptOn))
    case PreemptOn =>
      Ok(Goto(Preempt(s, true), User))
    case _ => Panic
  }

  function ParkStep(s: State): Outcome
    requires Consistent(s)
  {
    match s.pc[s.cpu.current]
    case ParkDisable(q, m) =>
      if s.cpu.preempt then Panic else Then(Ints(s, false), ParkPreempt(q, m))
    case ParkPreempt(q, m) =>
      Ok(Goto(Preempt(s, true), ParkWait(q, m)))
    case ParkWait(q, m) =>
      WaitOn(Goto(s, ParkResume(q, m)), q)
    case ParkResume(q, m) =>
      Ok(Goto(Preempt(s, false), ParkEnable(m)))
    case ParkEnable(m) =>
      // mutex_lock_imp begins again, if the caller is cond_wait
      if s.cpu.preempt || IsHeld(s, m) then Panic else Then(Ints(s, true), LockTest(m))
    case _ => Panic
  }

  function UnlockStep(s: State): Outcome
    requires Consistent(s)
  {
    var t := s.cpu.current;
    match s.pc[t]
    case UnlockEnter(m, k) =>
      if !s.cpu.ints then Panic else Ok(Goto(Preempt(s, false), UnlockState(m, k)))
    case UnlockState(m, k) =>
      if s.cpu.preempt || !IsHeld(s, m) then Panic
      else Ok(Goto(SetMutex(s, m, MutexOf(s.mutexes, m).(locked := false)).(held := s.held[t := s.held[t] - {m}]),
          UnlockOwner(m, k)))
    case UnlockOwner(m, k) =>
      Ok(Goto(SetMutex(s, m, MutexOf(s.mutexes, m).(owner := None)), UnlockTest(m, k)))
    case UnlockTest(m, k) =>
      Ok(Goto(s, if Q(s.queues, MutexQ(m)) == [] then AfterUnlock(m, k) else UnlockDisable(m, k)))
    case UnlockDisable(m, k) =>
      Then(Ints(s, false), UnlockWake(m, k))
    case UnlockWake(m, k) =>
      if s.cpu.ints || Q(s.queues, MutexQ(m)) == [] then Panic
      else Ok(Goto(WakeOne(s, MutexQ(m)), UnlockEnable(m, k)))
    case UnlockEnable(m, k) =>
      Then(Ints(s, true), AfterUnlock(m, k))
    case _ => Panic
  }

  function SignalStep(s: State): Outcome
    requires Consistent(s)
  {
    match s.pc[s.cpu.current]
    case SignalDisable(c) => Then(Ints(s, false), SignalWake(c))
    case SignalWake(c) => if s.cpu.ints then Panic else Ok(Goto(WakeOne(s, CondQ(c)), IntsOn))
    case BroadcastDisable(c) => Then(Ints(s, false), BroadcastWake(c))
    case BroadcastWake(c) =>
      if Q(s.queues, CondQ(c)) == [] then Ok(Goto(s, IntsOn))
      else if s.cpu.ints then Panic
      else Ok(WakeOne(s, CondQ(c)))
    case YieldDisable => Then(Ints(s, false), YieldSwitch)
    case YieldSwitch => if s.cpu.ints then Panic else Requeue(Goto(s, IntsOn), false)
    case IntsOn => Then(Ints(s, true), User)
    case Start => Then(Ints(s, true), if s.cpu.current == WORKER then WorkDisable else User)
    case _ => Panic
  }

  function ExitStep(s: State): Outcome
    requires Consistent(s)
  {
    var t := s.cpu.current;
    match s.pc[t]
    case ExitDisable => Then(Ints(s, false), ExitDetach)
    case ExitDetach => Then(Detach(s, t), ExitMark)
    case ExitMark =>
      Ok(Goto(s.(sched := s.sched[t := s.sched[t].(state := EXITED)],
                 times := s.times[t := s.times[t].(termination := s.clock.ticks)]),
              if s.refs[t].refcount > 0 then ExitWake else ExitSwitch))
    case ExitWake =>
      if Q(s.queues, JoinQ(t)) == [] then Ok(Goto(s, ExitSwitch))
      else if s.cpu.ints then Panic
      else Ok(WakeOne(s, JoinQ(t)))
    case ExitSwitch =>
      if s.cpu.ints then Panic
      else Dispatch(Goto(s.(sched := s.sched[t := s.sched[t].(place := Gone)]), Dead), false)
    case _ => Panic
  }

  function JoinStep(s: State): Outcome
    requires Consistent(s)
  {
    match s.pc[s.cpu.current]
    case JoinDisable(ch) => Then(Ints(s, false), JoinTest(ch))
    case JoinTest(ch) =>
      if s.cpu.ints || ch !in s.refs || ch !in s.sched || s.refs[ch].refcount <= 0
          || s.refs[ch].parent != Some(s.cpu.current) then Panic
      else if s.sched[ch].state == EXITED then Ok(Goto(s, JoinDetach(ch)))
      else WaitOn(s, JoinQ(ch))
    case JoinDetach(ch) =>
      if ch !in s.refs then Panic
      else Then(Detach(s.(refs := s.refs[ch := s.refs[ch].(joined := true)]), ch), IntsOn)
    case MergeDisable => Then(Ints(s, false), MergeMove)
    case MergeMove =>
      if Q(s.queues, NewQ) == [] then Ok(Goto(s, IntsOn)) else Ok(WakeOne(s, NewQ))
    case _ => Panic
  }

  function WorkStep(s: State, keyReady: bool): Outcome
    requires Consistent(s)
  {
    match s.pc[s.cpu.current]
    case KeyDisable => Then(Ints(s, false), KeyTest)
    case KeyTest => if keyReady then Ok(Goto(s, IntsOn)) else WaitOn(s, EventQ)
    case WorkDisable => Then(Ints(s, false), WorkTest)
    case WorkTest => if s.work.items == [] then WaitOn(s, EventQ) else Ok(Goto(s, WorkTake))
    case WorkTake =>
      if s.work.items == [] then Panic
      else Ok(Goto(s.(work := s.work.(items := s.work.items[1..])), WorkEnable(s.work.items[0])))
    case WorkEnable(item) => Then(Ints(s, true), WorkRun(item))
    case WorkRun(item) =>
      if item !in s.sched || s.sched[item].state != EXITED then Panic
      else Ok(Goto(s.(work := s.work.(done := s.work.done + [item])), WorkDisable))
    case _ => Panic
  }

  /** A thread outside the kernel: it computes, or enters one of the kernel's functions. */
  function CallStep(s: State, call: Call): Outcome
    requires Consistent(s)
  {
    var c := s.cpu.current;
    match call
    case Compute => Ok(s)
    case Lock(m) => Ok(Goto(s, LockEnter(m)))
    case Unlock(m) => Ok(Goto(s, UnlockEnter(m, None)))
    case CondWait(c, m) => if IsHeld(s, m) then Ok(Goto(s, UnlockEnter(m, Some(c)))) else Panic
    case Signal(c) => Ok(Goto(s, SignalDisable(c)))
    case Broadcast(c) => Ok(Goto(s, BroadcastDisable(c)))
    case Yield => Ok(Goto(s, YieldDisable))
    case Exit => Ok(Goto(s, ExitDisable))
    case Join(ch) =>
      if ch in s.refs && s.refs[ch].parent == Some(c) then Ok(Goto(s, JoinDisable(ch))) else Panic
    case ReadKey => Ok(Goto(s, KeyDisable))
    case Merge => Ok(Goto(s, MergeDisable))
    case Create(t, attached) =>
      // thread_create queues the thread before it sets the priority
      var arrival := if s.clock.ticks > 0 then s.clock.ticks else 1;
      var s' := MakeRunnable(AddThread(s, t, attached, 0, false, arrival), t);
      Ok(s'.(sched := s'.sched[t := s'.sched[t].(priority := DEFAULT_PRIORITY)]))
    case CreateJob(t, attached, burst, priority) =>
      Ok(Enqueue(AddThread(s, t, attached, JobPriority(s.clock.policy, burst, priority), true, s.clock.ticks), NewQ,
          NEW, t))
    case FirstResponse =>
      Ok(s.(times := s.times[c := s.times[c].(response := Some(s.clock.ticks))]))
    case SetPolicy(policy, quantum) =>
      Ok(s.(clock := s.clock.(policy := policy, quantum := quantum)))
  }

  /** The next statement of the current thread. */
  function Step(s: State, call: Call, keyReady: bool): Outcome
    requires Consistent(s)
  {
    var p := s.pc[s.cpu.current];
    if p.User? then CallStep(s, call)
    else if p.LockEnter? || p.LockTest? || p.LockTake? || p.LockOwn? || p.PreemptOn? then LockStep(s)
    else if p.ParkDisable? || p.ParkPreempt? || p.ParkWait? || p.ParkResume? || p.ParkEnable? then ParkStep(s)
    else if p.UnlockEnter? || p.UnlockState? || p.UnlockOwner? || p.UnlockTest? || p.UnlockDisable? || p.UnlockWake?
        || p.UnlockEnable? then UnlockStep(s)
    else if p.ExitDisable? || p.ExitDetach? || p.ExitMark? || p.ExitWake? || p.ExitSwitch? then ExitStep(s)
    else if p.JoinDisable? || p.JoinTest? || p.JoinDetach? || p.MergeDisable? || p.MergeMove? then JoinStep(s)
    else if p.KeyDisable? || p.KeyTest? || p.WorkDisable? || p.WorkTest? || p.WorkTake? || p.WorkEnable?
        || p.WorkRun? then WorkStep(s, keyReady)
    else SignalStep(s)
  }

  /** One event: a statement of the current thread, or an interrupt. */
  function Next(s: State, e: Event): Outcome
    requires Consistent(s)
  {
    match e
    case Run(call, keyReady) => Step(s, call, keyReady)
    case Timer => InterruptReturn(Tick(s))
    case Key(printable) =>
      if printable then
        var s' := WakeAll(s, EventQ);
        if Consistent(s') then InterruptReturn(s'.(cpu := s'.cpu.(resched := true))) else Panic
      else
        InterruptReturn(s)
  }

  /** What may happen next: interrupts come only when enabled, and callers keep to the rules of the
      functions they call. The idle thread only yields. */
  predicate Allowed(s: State, e: Event)
    requires Consistent(s)
  {
    var c := s.cpu.current;
    match e
    case Timer => s.cpu.ints
    case Key(_) => s.cpu.ints
    case Run(call, _) =>
      s.pc[c] == User ==>
        && (c == IDLE ==> call == Yield)
        && match call
           case Lock(m) => m !in s.held[c]
           case Unlock(m) => m in s.held[c]
           case CondWait(_, m) => m in s.held[c]
           case Join(ch) => ch in s.refs && s.refs[ch].parent == Some(c) && !s.refs[ch].joined
           case Create(t, _) => t !in s.pc
           case CreateJob(t, _, _, _) => t !in s.pc
           case _ => true
  }

  /** The kernel once preemption has been turned on: main runs, idle and the workqueue thread have
      been created. */
  predicate Initial(s: State) {
    && s.cpu == Cpu(MAIN, true, true, false)
    && s.pc == map[MAIN := User, IDLE := Start, WORKER := Start]
    && s.iflag == map[MAIN := true, IDLE := false, WORKER := false]
    && s.sched == map[MAIN := Sched(RUNNING, OnCpu, DEFAULT_PRIORITY),
                      IDLE := Sched(READY, In(RunQ), DEFAULT_PRIORITY),
                      WORKER := Sched(READY, In(RunQ), DEFAULT_PRIORITY)]
    && s.queues == map[RunQ := [IDLE, WORKER]]
    && s.mutexes == map[]
    && s.held == map[MAIN := {}, IDLE := {}, WORKER := {}]
    && s.refs == map[MAIN := Refs(1, None, false), IDLE := Refs(1, None, false), WORKER := Refs(1, None, false)]
    && s.clock == Clock(FCFS, s.clock.quantum, 0)
    && s.times == map[MAIN := Times(0, false, 1, 0, 0, None, 0),
                      IDLE := Times(0, false, 1, 0, 0, None, 0),
                      WORKER := Times(0, false, 1, 0, 0, None, 0)]
    && s.work == Work([], [], [])
  }
}
