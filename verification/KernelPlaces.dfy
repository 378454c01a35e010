/** Where threads are: which flags go with which statement, and which queue with which thread. */
module KernelPlaces {
  import opened Common
  import opened SchedulingOrder
  import opened KernelSteps

  // -------------------------------------------------------------------- flags

  /** Statements executed with g_preemption clear. */
  predicate PreemptOff(p: Pc) {
    || p.LockTest? || p.LockTake? || p.LockOwn? || p.PreemptOn?
    || p.ParkDisable? || p.ParkPreempt? || p.ParkEnable?
    || p.UnlockState? || p.UnlockOwner? || p.UnlockTest? || p.UnlockDisable? || p.UnlockWake? || p.UnlockEnable?
  }

  /** Statements executed with interrupts disabled. */
  predicate IntsOff(p: Pc) {
    || p.Start? || p.ParkPreempt? || p.ParkWait? || p.ParkResume? || p.ParkEnable?
    || p.UnlockWake? || p.UnlockEnable? || p.SignalWake? || p.BroadcastWake? || p.YieldSwitch? || p.IntsOn?
    || p.ExitDetach? || p.ExitMark? || p.ExitWake? || p.ExitSwitch? || p.Dead?
    || p.JoinTest? || p.JoinDetach? || p.MergeMove? || p.KeyTest?
    || p.WorkTest? || p.WorkTake? || p.WorkEnable?
  }

  /** Statements at which a switch made with interrupts disabled resumes. */
  predicate Resumes(p: Pc) {
    p.Start? || p.ParkResume? || p.IntsOn? || p.JoinTest? || p.KeyTest? || p.WorkTest?
  }

  /** Where a thread that is not running can be. */
  predicate OffCpu(p: Pc) {
    !PreemptOff(p) && (!IntsOff(p) || Resumes(p) || p.Dead?)
  }

  ghost predicate FlagsOff(current: Tid, pc: map<Tid, Pc>, iflag: map<Tid, bool>, t: Tid) {
    t in pc && t in iflag && t != current ==> OffCpu(pc[t]) && (pc[t] != Dead ==> iflag[t] == !IntsOff(pc[t]))
  }

  /** g_preemption and the interrupt flag are what the current statement needs them to be, and
      nobody else is inside a region that relies on either. */
  ghost predicate Flags(cpu: Cpu, pc: map<Tid, Pc>, iflag: map<Tid, bool>) {
    && cpu.current in pc && cpu.current in iflag
    && cpu.preempt == !PreemptOff(pc[cpu.current])
    && cpu.ints == !IntsOff(pc[cpu.current])
    && pc[cpu.current] != Dead
    && forall t {:trigger FlagsOff(cpu.current, pc, iflag, t)} :: FlagsOff(cpu.current, pc, iflag, t)
  }

  lemma FlagsLocal(cpu: Cpu, pc: map<Tid, Pc>, iflag: map<Tid, bool>, p: Pc, cpu': Cpu)
    requires Flags(cpu, pc, iflag) && cpu'.current == cpu.current
    requires p != Dead && cpu'.preempt == !PreemptOff(p) && cpu'.ints == !IntsOff(p)
    ensures Flags(cpu', pc[cpu.current := p], iflag)
  {
    var pc' := pc[cpu.current := p];
    forall t ensures FlagsOff(cpu'.current, pc', iflag, t) {
      assert FlagsOff(cpu.current, pc, iflag, t);
    }
  }

  /** A switch to next, when the thread left behind has moved on to p and its flags are saved. */
  lemma FlagsSwitch(cpu: Cpu, pc: map<Tid, Pc>, iflag: map<Tid, bool>, p: Pc, saved: bool, next: Tid)
    requires Flags(cpu, pc, iflag) && next in pc && next in iflag
    requires OffCpu(p) && (p != Dead ==> saved == !IntsOff(p)) && cpu.preempt
    requires pc[cpu.current := p][next] != Dead
    ensures var iflag' := iflag[cpu.current := saved];
            forall resched :: Flags(Cpu(next, true, iflag'[next], resched), pc[cpu.current := p], iflag')
  {
    var pc', iflag' := pc[cpu.current := p], iflag[cpu.current := saved];
    assert FlagsOff(cpu.current, pc, iflag, next);
    forall t ensures FlagsOff(next, pc', iflag', t) {
      assert FlagsOff(cpu.current, pc, iflag, t);
    }
  }

  lemma FlagsNewThread(cpu: Cpu, pc: map<Tid, Pc>, iflag: map<Tid, bool>, t: Tid)
    requires Flags(cpu, pc, iflag) && t !in pc
    ensures Flags(cpu, pc[t := Start], iflag[t := false])
  {
    var pc', iflag' := pc[t := Start], iflag[t := false];
    forall u ensures FlagsOff(cpu.current, pc', iflag', u) {
      assert FlagsOff(cpu.current, pc, iflag, u);
    }
  }

  // -------------------------------------------------------------------- roles

  predicate InWorkqueueThread(p: Pc) {
    p.WorkDisable? || p.WorkTest? || p.WorkTake? || p.WorkEnable? || p.WorkRun?
  }

  /** The idle thread only yields; the loop of the workqueue thread is executed by that thread only. */
  ghost predicate Role(pc: map<Tid, Pc>, t: Tid) {
    t in pc ==>
      && (t == WORKER ==> pc[t].Start? || InWorkqueueThread(pc[t]))
      && (t != WORKER ==> !InWorkqueueThread(pc[t]))
      && (t == IDLE ==> pc[t].Start? || pc[t].User? || pc[t].YieldDisable? || pc[t].YieldSwitch? || pc[t].IntsOn?)
  }

  ghost predicate Roles(pc: map<Tid, Pc>) {
    && IDLE in pc && WORKER in pc
    && forall t {:trigger Role(pc, t)} :: Role(pc, t)
  }

  lemma RolesGoto(pc: map<Tid, Pc>, t: Tid, p: Pc)
    requires Roles(pc) && Role(pc[t := p], t)
    ensures Roles(pc[t := p])
  {
    var pc' := pc[t := p];
    forall u ensures Role(pc', u) {
      assert Role(pc, u);
    }
  }

  // ------------------------------------------------------------------- places

  /** Statements executed by a thread whose state is THREAD_EXITED. */
  predicate Exited(p: Pc) {
    p.ExitWake? || p.ExitSwitch? || p.Dead?
  }

  /** The statement at which a thread waiting on queue q will resume. */
  predicate WaitsAt(q: QueueId, p: Pc) {
    match q
    case RunQ => !Exited(p)
    case NewQ => p == Start
    case MutexQ(m) => p == ParkResume(q, m)
    case CondQ(_) => p.ParkResume? && p.q == q
    case JoinQ(ch) => p == JoinTest(ch)
    case EventQ => p == KeyTest || p == WorkTest
  }

  /** READY exactly on the run queue, NEW exactly on the new queue, EXITED from the end of
      thread_exit on, and RUNNING otherwise: also while blocked. */
  function StateFor(place: Place, p: Pc): ThreadState {
    if place == In(RunQ) then READY
    else if place == In(NewQ) then NEW
    else if Exited(p) then EXITED
    else RUNNING
  }

  ghost predicate PlaceOk(on: Option<Tid>, pc: map<Tid, Pc>, sched: map<Tid, Sched>, queues: map<QueueId, seq<Tid>>,
                          t: Tid) {
    t in pc && t in sched ==>
      var place := sched[t].place;
      && (place == OnCpu <==> on == Some(t))
      && (place == Gone <==> pc[t] == Dead)
      && (place.In? ==> t in Q(queues, place.q) && WaitsAt(place.q, pc[t]))
      && sched[t].state == StateFor(place, pc[t])
      && (t == IDLE ==> place == OnCpu || place == In(RunQ))
  }

  ghost predicate QueueOk(pc: map<Tid, Pc>, sched: map<Tid, Sched>, queues: map<QueueId, seq<Tid>>, q: QueueId) {
    var ts := Q(queues, q);
    && (forall i, j :: 0 <= i < j < |ts| ==> ts[i] != ts[j])
    && (forall t :: t in ts ==> t in pc && t in sched && sched[t].place == In(q))
  }

  /** on is the thread whose place is the processor, if any. */
  ghost predicate Places(on: Option<Tid>, pc: map<Tid, Pc>, sched: map<Tid, Sched>, queues: map<QueueId, seq<Tid>>) {
    && pc.Keys == sched.Keys
    && (forall t {:trigger PlaceOk(on, pc, sched, queues, t)} :: PlaceOk(on, pc, sched, queues, t))
    && (forall q {:trigger QueueOk(pc, sched, queues, q)} :: QueueOk(pc, sched, queues, q))
  }

  /** As Places, for every thread but x, which is on no queue. */
  ghost predicate PlacesBut(x: Tid, on: Option<Tid>, pc: map<Tid, Pc>, sched: map<Tid, Sched>,
                            queues: map<QueueId, seq<Tid>>) {
    && x in pc && pc.Keys == sched.Keys
    && (forall t {:trigger PlaceOk(on, pc, sched, queues, t)} :: t != x ==> PlaceOk(on, pc, sched, queues, t))
    && (forall q {:trigger QueueOk(pc, sched, queues, q)} :: QueueOk(pc, sched, queues, q) && x !in Q(queues, q))
  }

  /** The thread on the processor leaves it, to go on at p. */
  lemma LeaveCpu(x: Tid, pc: map<Tid, Pc>, sched: map<Tid, Sched>, queues: map<QueueId, seq<Tid>>, p: Pc)
    requires Places(Some(x), pc, sched, queues) && x in pc
    ensures PlacesBut(x, None, pc[x := p], sched, queues)
  {
    var pc' := pc[x := p];
    assert PlaceOk(Some(x), pc, sched, queues, x);
    forall t ensures t != x ==> PlaceOk(None, pc', sched, queues, t) {
      assert PlaceOk(Some(x), pc, sched, queues, t);
    }
    forall q ensures QueueOk(pc', sched, queues, q) && x !in Q(queues, q) {
      assert QueueOk(pc, sched, queues, q);
    }
  }

  /** The first thread of queue q leaves it. */
  lemma LeaveQueue(q: QueueId, on: Option<Tid>, pc: map<Tid, Pc>, sched: map<Tid, Sched>,
                   queues: map<QueueId, seq<Tid>>)
    requires Places(on, pc, sched, queues) && Q(queues, q) != []
    ensures PlacesBut(Q(queues, q)[0], on, pc, sched, queues[q := Q(queues, q)[1..]])
  {
    var x, queues' := Q(queues, q)[0], queues[q := Q(queues, q)[1..]];
    assert QueueOk(pc, sched, queues, q);
    forall t ensures t != x ==> PlaceOk(on, pc, sched, queues', t) {
      assert PlaceOk(on, pc, sched, queues, t);
    }
    forall r ensures QueueOk(pc, sched, queues', r) && x !in Q(queues', r) {
      assert QueueOk(pc, sched, queues, r);
    }
  }

  lemma InsertAtMembers(q: seq<Tid>, k: nat, t: Tid)
    requires k <= |q|
    ensures forall u :: u in InsertAt(q, k, t) <==> u in q || u == t
  {
    assert q == q[..k] + q[k..];
  }

  lemma InsertAtDistinct(q: seq<Tid>, k: nat, t: Tid)
    requires k <= |q| && t !in q && forall i, j :: 0 <= i < j < |q| ==> q[i] != q[j]
    ensures forall i, j :: 0 <= i < j < |q| + 1 ==> InsertAt(q, k, t)[i] != InsertAt(q, k, t)[j]
  {
    var r := InsertAt(q, k, t);
    assert forall i :: 0 <= i < |r| ==> r[i] == if i < k then q[i] else if i == k then t else q[i - 1];
  }

  /** Thread x, in no place, goes on queue q. */
  lemma EnterQueue(x: Tid, q: QueueId, k: nat, on: Option<Tid>, pc: map<Tid, Pc>, sched: map<Tid, Sched>,
                   queues: map<QueueId, seq<Tid>>, v: Sched)
    requires PlacesBut(x, on, pc, sched, queues) && on != Some(x) && k <= |Q(queues, q)|
    requires v.place == In(q) && v.state == StateFor(In(q), pc[x])
    requires WaitsAt(q, pc[x]) && (x == IDLE ==> q == RunQ)
    ensures Places(on, pc, sched[x := v], queues[q := InsertAt(Q(queues, q), k, x)])
  {
    var sched', queues' := sched[x := v], queues[q := InsertAt(Q(queues, q), k, x)];
    assert QueueOk(pc, sched, queues, q);
    InsertAtMembers(Q(queues, q), k, x);
    InsertAtDistinct(Q(queues, q), k, x);
    forall t ensures PlaceOk(on, pc, sched', queues', t) {
      assert t != x ==> PlaceOk(on, pc, sched, queues, t);
    }
    forall r ensures QueueOk(pc, sched', queues', r) {
      assert QueueOk(pc, sched, queues, r);
    }
  }

  /** Thread x, in no place, gets the processor. */
  lemma EnterCpu(x: Tid, pc: map<Tid, Pc>, sched: map<Tid, Sched>, queues: map<QueueId, seq<Tid>>, v: Sched)
    requires PlacesBut(x, None, pc, sched, queues) && !Exited(pc[x])
    requires v.place == OnCpu && v.state == RUNNING
    ensures Places(Some(x), pc, sched[x := v], queues)
  {
    var sched' := sched[x := v];
    forall t ensures PlaceOk(Some(x), pc, sched', queues, t) {
      assert t != x ==> PlaceOk(None, pc, sched, queues, t);
    }
    forall r ensures QueueOk(pc, sched', queues, r) {
      assert QueueOk(pc, sched, queues, r);
    }
  }

  /** Thread x, in no place, is gone for good. */
  lemma GoneForGood(x: Tid, pc: map<Tid, Pc>, sched: map<Tid, Sched>, queues: map<QueueId, seq<Tid>>, v: Sched)
    requires PlacesBut(x, None, pc, sched, queues) && x != IDLE && pc[x] == Dead
    requires v.place == Gone && v.state == EXITED
    ensures Places(None, pc, sched[x := v], queues)
  {
    var sched' := sched[x := v];
    forall t ensures PlaceOk(None, pc, sched', queues, t) {
      assert t != x ==> PlaceOk(None, pc, sched, queues, t);
    }
    forall r ensures QueueOk(pc, sched', queues, r) {
      assert QueueOk(pc, sched, queues, r);
    }
  }

  /** The thread on the processor moves on, and its state with it. */
  lemma PlacesLocal(x: Tid, pc: map<Tid, Pc>, sched: map<Tid, Sched>, queues: map<QueueId, seq<Tid>>, p: Pc, v: Sched)
    requires Places(Some(x), pc, sched, queues) && x in pc && p != Dead
    requires v.place == OnCpu && v.state == StateFor(OnCpu, p)
    ensures Places(Some(x), pc[x := p], sched[x := v], queues)
  {
    var pc', sched' := pc[x := p], sched[x := v];
    assert PlaceOk(Some(x), pc, sched, queues, x);
    forall t ensures PlaceOk(Some(x), pc', sched', queues, t) {
      assert PlaceOk(Some(x), pc, sched, queues, t);
    }
    forall r ensures QueueOk(pc', sched', queues, r) {
      assert QueueOk(pc, sched, queues, r);
    }
  }

  lemma PlacesGoto(x: Tid, pc: map<Tid, Pc>, sched: map<Tid, Sched>, queues: map<QueueId, seq<Tid>>, p: Pc)
    requires Places(Some(x), pc, sched, queues) && x in pc && Exited(p) == Exited(pc[x]) && p != Dead
    ensures Places(Some(x), pc[x := p], sched, queues)
  {
    assert PlaceOk(Some(x), pc, sched, queues, x);
    PlacesLocal(x, pc, sched, queues, p, sched[x]);
    assert sched[x := sched[x]] == sched;
  }

  /** A new thread is in no place yet. */
  lemma PlacesNewThread(x: Tid, on: Option<Tid>, pc: map<Tid, Pc>, sched: map<Tid, Sched>,
                        queues: map<QueueId, seq<Tid>>, v: Sched)
    requires Places(on, pc, sched, queues) && x !in pc && (on.Some? ==> on.value in pc)
    ensures PlacesBut(x, on, pc[x := Start], sched[x := v], queues)
  {
    var pc', sched' := pc[x := Start], sched[x := v];
    forall t ensures t != x ==> PlaceOk(on, pc', sched', queues, t) {
      assert PlaceOk(on, pc, sched, queues, t);
    }
    forall q ensures QueueOk(pc', sched', queues, q) && x !in Q(queues, q) {
      assert QueueOk(pc, sched, queues, q);
    }
  }
}
