/** Steps that create a thread, set the scheduler, or let time pass. */
module KernelCreate {
  import opened Common
  import opened SchedulingOrder
  import opened KernelSteps
  import opened KernelPlaces
  import opened KernelSync
  import opened KernelLives
  import opened KernelTimes
  import opened KernelInvariant

  /** s with a new thread t, put on queue q at position k. */
  function WithThread(s: State, t: Tid, q: QueueId, k: nat, v: Sched, r: Refs, m: Times): State
    requires k <= |Q(s.queues, q)|
  {
    s.(pc := s.pc[t := Start], iflag := s.iflag[t := false], sched := s.sched[t := v], held := s.held[t := {}],
       refs := s.refs[t := r], times := s.times[t := m],
       queues := s.queues[q := InsertAt(Q(s.queues, q), k, t)])
  }

  lemma NewThreadPlaces(s: State, t: Tid, q: QueueId, k: nat, v: Sched)
    requires Places(Some(s.cpu.current), s.pc, s.sched, s.queues) && s.cpu.current in s.pc && t !in s.pc && t != IDLE
    requires (q == RunQ && v.state == READY) || (q == NewQ && v.state == NEW)
    requires k <= |Q(s.queues, q)| && v.place == In(q)
    ensures Places(Some(s.cpu.current), s.pc[t := Start], s.sched[t := v],
             s.queues[q := InsertAt(Q(s.queues, q), k, t)])
  {
    PlacesNewThread(t, Some(s.cpu.current), s.pc, s.sched, s.queues, v);
    EnterQueue(t, q, k, Some(s.cpu.current), s.pc[t := Start], s.sched[t := v], s.queues, v);
    assert s.sched[t := v][t := v] == s.sched[t := v];
  }

  lemma NewThreadRoles(pc: map<Tid, Pc>, t: Tid)
    requires Roles(pc) && t !in pc
    ensures Roles(pc[t := Start])
  {
    var pc' := pc[t := Start];
    forall u ensures Role(pc', u) {
      assert Role(pc, u);
    }
  }

  lemma NewThreadIsNotLost(s: State, t: Tid, q: QueueId, ts: seq<Tid>, v: Sched)
    requires NoLostWakeup(s.pc, s.sched, s.mutexes, s.queues) && t !in s.pc && (q == RunQ || q == NewQ)
    ensures NoLostWakeup(s.pc[t := Start], s.sched[t := v], s.mutexes, s.queues[q := ts])
  {
    var pc', sched', queues' := s.pc[t := Start], s.sched[t := v], s.queues[q := ts];
    forall m ensures Attended(pc', sched', s.mutexes, queues', m) {
      assert Attended(s.pc, s.sched, s.mutexes, s.queues, m);
      if Stalled(s.mutexes, queues', m) {
        var u :| Rescuer(s.pc, s.sched, u, m);
        assert Rescuer(pc', sched', u, m);
      }
    }
  }

  lemma NewThreadHere(s: State, t: Tid, q: QueueId, k: nat, v: Sched)
    requires Inv(s) && t !in s.pc && k <= |Q(s.queues, q)| && v.place == In(q)
    requires (q == RunQ && v.state == READY) || (q == NewQ && v.state == NEW)
    ensures var pc' := s.pc[t := Start];
            && Flags(s.cpu, pc', s.iflag[t := false]) && Roles(pc')
            && Places(Some(s.cpu.current), pc', s.sched[t := v], s.queues[q := InsertAt(Q(s.queues, q), k, t)])
  {
    FlagsNewThread(s.cpu, s.pc, s.iflag, t);
    NewThreadRoles(s.pc, t);
    NewThreadPlaces(s, t, q, k, v);
  }

  lemma NewThreadLives(s: State, t: Tid, v: Sched, r: Refs)
    requires Lives(s.pc, s.sched, s.refs, s.work) && t !in s.pc && (v.place == In(RunQ) || v.place == In(NewQ))
    requires !r.joined && r.refcount == if r.parent.Some? then 2 else 1
    ensures Lives(s.pc[t := Start], s.sched[t := v], s.refs[t := r], s.work)
  {
    OnlyMoved(s.sched, t, v);
    LivesNewThread(s.pc, s.sched, s.refs, s.work, t, s.sched[t := v], r);
  }

  lemma NewThreadRest(s: State, t: Tid, q: QueueId, ts: seq<Tid>, v: Sched, m: Times)
    requires Inv(s) && Consistent(s) && s.pc[s.cpu.current] == User && t !in s.pc && (q == RunQ || q == NewQ)
    requires m == Times(0, m.job, m.arrival, 0, 0, None, 0) && (m.job ==> m.arrival == s.clock.ticks)
    ensures Sync(s.cpu.current, s.pc[t := Start], s.held[t := {}], s.mutexes, s.queues[q := ts])
    ensures NoLostWakeup(s.pc[t := Start], s.sched[t := v], s.mutexes, s.queues[q := ts])
    ensures TimesOk(s.cpu.current, s.pc[t := Start], s.times[t := m], s.clock.ticks)
  {
    SyncNewThread(s.cpu.current, s.pc, s.held, s.mutexes, s.queues, t, s.queues[q := ts]);
    NewThreadIsNotLost(s, t, q, ts, v);
    TimesNewThread(s.cpu.current, s.pc, s.times, s.clock.ticks, t, m);
  }

  lemma NewThreadKeeps(s: State, t: Tid, q: QueueId, k: nat, v: Sched, r: Refs, m: Times)
    requires Inv(s) && Consistent(s) && s.pc[s.cpu.current] == User && t !in s.pc && k <= |Q(s.queues, q)|
    requires v.place == In(q)
    requires (q == RunQ && v.state == READY) || (q == NewQ && v.state == NEW)
    requires !r.joined && r.refcount == if r.parent.Some? then 2 else 1
    requires m == Times(0, m.job, m.arrival, 0, 0, None, 0) && (m.job ==> m.arrival == s.clock.ticks)
    ensures Inv(WithThread(s, t, q, k, v, r, m))
  {
    assert s.pc[t := Start].Keys == s.iflag[t := false].Keys;
    NewThreadHere(s, t, q, k, v);
    NewThreadLives(s, t, v, r);
    NewThreadRest(s, t, q, InsertAt(Q(s.queues, q), k, t), v, m);
  }

  function NewRefs(s: State, attached: bool): Refs {
    Refs(if attached then 2 else 1, if attached then Some(s.cpu.current) else None, false)
  }

  function CreateAt(s: State, t: Tid): (k: nat)
    ensures k <= |Q(s.queues, RunQ)|
  {
    Position(s.clock.policy, s.sched[t := Sched(NEW, Gone, 0)], Q(s.queues, RunQ), t)
  }

  lemma CreateIs(s: State, t: Tid, attached: bool)
    requires Consistent(s) && t !in s.pc
    ensures var arrival := if s.clock.ticks > 0 then s.clock.ticks else 1;
            CallStep(s, Create(t, attached)) ==
            Ok(WithThread(s, t, RunQ, CreateAt(s, t), Sched(READY, In(RunQ), DEFAULT_PRIORITY), NewRefs(s, attached),
                          Times(0, false, arrival, 0, 0, None, 0)))
  {
    var v := Sched(READY, In(RunQ), DEFAULT_PRIORITY);
    assert s.sched[t := Sched(NEW, Gone, 0)][t := Sched(READY, In(RunQ), 0)][t := v] == s.sched[t := v];
  }

  lemma CreateKeeps(s: State, t: Tid, attached: bool)
    requires Inv(s) && Consistent(s) && s.pc[s.cpu.current] == User && t !in s.pc
    ensures CallStep(s, Create(t, attached)).Ok? && Inv(CallStep(s, Create(t, attached)).s)
  {
    CreateIs(s, t, attached);
    var arrival := if s.clock.ticks > 0 then s.clock.ticks else 1;
    NewThreadKeeps(s, t, RunQ, CreateAt(s, t), Sched(READY, In(RunQ), DEFAULT_PRIORITY), NewRefs(s, attached),
                   Times(0, false, arrival, 0, 0, None, 0));
  }

  function CreateJobAt(s: State, t: Tid, priority: int): (k: nat)
    ensures k <= |Q(s.queues, NewQ)|
  {
    Position(s.clock.policy, s.sched[t := Sched(NEW, Gone, priority)], Q(s.queues, NewQ), t)
  }

  lemma CreateJobIs(s: State, t: Tid, attached: bool, burst: int, priority: int)
    requires Consistent(s) && t !in s.pc
    ensures var p := JobPriority(s.clock.policy, burst, priority);
            CallStep(s, CreateJob(t, attached, burst, priority)) ==
            Ok(WithThread(s, t, NewQ, CreateJobAt(s, t, p), Sched(NEW, In(NewQ), p), NewRefs(s, attached),
                          Times(0, true, s.clock.ticks, 0, 0, None, 0)))
  {
    var p := JobPriority(s.clock.policy, burst, priority);
    assert s.sched[t := Sched(NEW, Gone, p)][t := Sched(NEW, In(NewQ), p)] == s.sched[t := Sched(NEW, In(NewQ), p)];
  }

  lemma CreateJobKeeps(s: State, t: Tid, attached: bool, burst: int, priority: int)
    requires Inv(s) && Consistent(s) && s.pc[s.cpu.current] == User && t !in s.pc
    ensures var o := CallStep(s, CreateJob(t, attached, burst, priority)); o.Ok? && Inv(o.s)
  {
    CreateJobIs(s, t, attached, burst, priority);
    var p := JobPriority(s.clock.policy, burst, priority);
    NewThreadKeeps(s, t, NewQ, CreateJobAt(s, t, p), Sched(NEW, In(NewQ), p), NewRefs(s, attached),
                   Times(0, true, s.clock.ticks, 0, 0, None, 0));
  }

  lemma FirstResponseIs(s: State)
    requires Consistent(s)
    ensures CallStep(s, FirstResponse) ==
            Ok(s.(times := s.times[s.cpu.current := s.times[s.cpu.current].(response := Some(s.clock.ticks))]))
  {
  }

  lemma FirstResponseKeeps(s: State)
    requires Inv(s) && Consistent(s) && s.pc[s.cpu.current] == User
    ensures CallStep(s, FirstResponse).Ok? && Inv(CallStep(s, FirstResponse).s)
  {
    FirstResponseIs(s);
    TimesResponse(s.cpu.current, s.pc, s.times, s.clock.ticks);
  }

  lemma SetPolicyIs(s: State, policy: Policy, quantum: int)
    requires Consistent(s)
    ensures CallStep(s, SetPolicy(policy, quantum)) == Ok(s.(clock := s.clock.(policy := policy, quantum := quantum)))
  {
  }

  lemma SetPolicyKeeps(s: State, policy: Policy, quantum: int)
    requires Inv(s) && Consistent(s)
    ensures var o := CallStep(s, SetPolicy(policy, quantum)); o.Ok? && Inv(o.s)
  {
    SetPolicyIs(s, policy, quantum);
  }

  lemma TickKeeps(s: State)
    requires Inv(s) && Consistent(s) && s.cpu.ints
    ensures Inv(Tick(s)) && Tick(s).cpu.ints && Consistent(Tick(s))
  {
    assert !Exited(s.pc[s.cpu.current]);
    TimesTick(s);
    var s' := Tick(s);
    FlagsLocal(s.cpu, s.pc, s.iflag, s.pc[s.cpu.current], s'.cpu);
    assert s.pc[s.cpu.current := s.pc[s.cpu.current]] == s.pc;
  }
}
