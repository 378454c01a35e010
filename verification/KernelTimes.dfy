/** Tick accounting: who the ticks of the timer are charged to (timer.c, stat.c). */
module KernelTimes {
  import opened Common
  import opened KernelSteps
  import opened KernelPlaces

  /** A thread that is not current has no ticks in its slice; and for a job, arrival, ticks run and
      ticks waited add up to now, or to its end once it has exited. */
  ghost predicate TimeOk(current: Tid, pc: map<Tid, Pc>, times: map<Tid, Times>, ticks: nat, t: Tid) {
    t in pc && t in times ==>
      var m := times[t];
      var until := if Exited(pc[t]) then m.termination else ticks;
      && (t != current && !Exited(pc[t]) ==> m.numTicks == 0)
      && until <= ticks
      && (m.job ==> m.arrival + m.running + m.waited == until)
      && (m.job && m.response.Some? ==> m.arrival <= m.response.value <= until)
  }

  /** Ticks charged to the threads below n. */
  function SumRunning(times: map<Tid, Times>, n: nat): nat {
    if n == 0 then 0 else SumRunning(times, n - 1) + if n - 1 in times then times[n - 1].running else 0
  }

  ghost predicate Bounds(times: map<Tid, Times>, n: nat) {
    forall t :: t in times ==> t < n
  }

  /** The ticks charged to all threads ever created, the destroyed ones included, are all the ticks. */
  ghost predicate Conserved(times: map<Tid, Times>, ticks: nat) {
    forall n {:trigger SumRunning(times, n)} :: Bounds(times, n) ==> SumRunning(times, n) == ticks
  }

  ghost predicate TimesOk(current: Tid, pc: map<Tid, Pc>, times: map<Tid, Times>, ticks: nat) {
    && pc.Keys == times.Keys
    && (forall t {:trigger TimeOk(current, pc, times, ticks, t)} :: TimeOk(current, pc, times, ticks, t))
    && Conserved(times, ticks)
  }

  lemma {:induction false} SumUpdate(times: map<Tid, Times>, times': map<Tid, Times>, n: nat, x: Tid, d: nat)
    requires forall t :: t != x ==>
             (t in times' <==> t in times) && (t in times ==> times'[t].running == times[t].running)
    requires x in times' && times'[x].running == d + if x in times then times[x].running else 0
    ensures SumRunning(times', n) == SumRunning(times, n) + if x < n then d else 0
  {
    if n != 0 {
      SumUpdate(times, times', n - 1, x, d);
    }
  }

  /** Thread x moves on to p and current' runs next; of x's times, everything but the slice stays,
      and unless x goes on running the slice is cleared. */
  lemma TimesMove(current: Tid, pc: map<Tid, Pc>, times: map<Tid, Times>, ticks: nat, p: Pc, current': Tid, v: Times)
    requires TimesOk(current, pc, times, ticks) && current in pc
    requires Exited(p) == Exited(pc[current])
    requires v == times[current] || v == times[current].(numTicks := 0)
    requires current' != current ==> v.numTicks == 0 || Exited(p)
    ensures TimesOk(current', pc[current := p], times[current := v], ticks)
  {
    var pc', times' := pc[current := p], times[current := v];
    forall t ensures TimeOk(current', pc', times', ticks, t) {
      assert TimeOk(current, pc, times, ticks, t);
    }
    forall n | Bounds(times', n) ensures SumRunning(times', n) == ticks {
      SumUpdate(times, times', n, current, 0);
      assert Bounds(times, n);
    }
  }

  lemma TimesGoto(current: Tid, pc: map<Tid, Pc>, times: map<Tid, Times>, ticks: nat, p: Pc)
    requires TimesOk(current, pc, times, ticks) && current in pc && Exited(p) == Exited(pc[current])
    ensures TimesOk(current, pc[current := p], times, ticks)
  {
    TimesMove(current, pc, times, ticks, p, current, times[current]);
    assert times[current := times[current]] == times;
  }

  /** thread_exit notes the time. */
  lemma TimesExit(current: Tid, pc: map<Tid, Pc>, times: map<Tid, Times>, ticks: nat, p: Pc)
    requires TimesOk(current, pc, times, ticks) && current in pc && !Exited(pc[current]) && Exited(p)
    ensures TimesOk(current, pc[current := p], times[current := times[current].(termination := ticks)], ticks)
  {
    var pc', times' := pc[current := p], times[current := times[current].(termination := ticks)];
    forall t ensures TimeOk(current, pc', times', ticks, t) {
      assert TimeOk(current, pc, times, ticks, t);
    }
    forall n | Bounds(times', n) ensures SumRunning(times', n) == ticks {
      SumUpdate(times, times', n, current, 0);
      assert Bounds(times, n);
    }
  }

  lemma TimesResponse(current: Tid, pc: map<Tid, Pc>, times: map<Tid, Times>, ticks: nat)
    requires TimesOk(current, pc, times, ticks) && current in pc && !Exited(pc[current])
    ensures TimesOk(current, pc, times[current := times[current].(response := Some(ticks))], ticks)
  {
    var times' := times[current := times[current].(response := Some(ticks))];
    forall t ensures TimeOk(current, pc, times', ticks, t) {
      assert TimeOk(current, pc, times, ticks, t);
    }
    forall n | Bounds(times', n) ensures SumRunning(times', n) == ticks {
      SumUpdate(times, times', n, current, 0);
      assert Bounds(times, n);
    }
  }

  lemma TimesNewThread(current: Tid, pc: map<Tid, Pc>, times: map<Tid, Times>, ticks: nat, x: Tid, v: Times)
    requires TimesOk(current, pc, times, ticks) && x !in pc && current in pc
    requires v == Times(0, v.job, v.arrival, 0, 0, None, 0) && (v.job ==> v.arrival == ticks)
    ensures TimesOk(current, pc[x := Start], times[x := v], ticks)
  {
    var pc', times' := pc[x := Start], times[x := v];
    forall t ensures TimeOk(current, pc', times', ticks, t) {
      assert TimeOk(current, pc, times, ticks, t);
    }
    forall n | Bounds(times', n) ensures SumRunning(times', n) == ticks {
      SumUpdate(times, times', n, x, 0);
      assert Bounds(times, n);
    }
  }

  lemma TickTimeOk(s: State, t: Tid)
    requires Consistent(s) && PlaceOk(Some(s.cpu.current), s.pc, s.sched, s.queues, t) && !Exited(s.pc[s.cpu.current])
    requires t in s.pc ==> t in s.sched
    requires TimeOk(s.cpu.current, s.pc, s.times, s.clock.ticks, t)
    ensures TimeOk(s.cpu.current, s.pc, Tick(s).times, s.clock.ticks + 1, t)
  {
  }

  /** One tick. */
  lemma TimesTick(s: State)
    requires Consistent(s) && Places(Some(s.cpu.current), s.pc, s.sched, s.queues) && !Exited(s.pc[s.cpu.current])
    requires TimesOk(s.cpu.current, s.pc, s.times, s.clock.ticks)
    ensures TimesOk(s.cpu.current, s.pc, Tick(s).times, s.clock.ticks + 1)
  {
    var c, times', ticks' := s.cpu.current, Tick(s).times, s.clock.ticks + 1;
    forall t ensures TimeOk(c, s.pc, times', ticks', t) {
      assert TimeOk(c, s.pc, s.times, s.clock.ticks, t);
      assert PlaceOk(Some(c), s.pc, s.sched, s.queues, t);
      TickTimeOk(s, t);
    }
    forall n | Bounds(times', n) ensures SumRunning(times', n) == ticks' {
      SumUpdate(s.times, times', n, c, 1);
      assert Bounds(s.times, n);
    }
  }

  // ---------------------------------------------------------------------- statistics

  /** A difference as calculated in 32-bit unsigned arithmetic. */
  function Minus32(a: int, b: int): int {
    (a % U32 - b % U32) % U32
  }

  lemma Minus32Exact(a: int, b: int)
    requires 0 <= a - b < U32
    ensures Minus32(a, b) == a - b
    ensures Minus32(a - b, 0) == a - b
  {
  }

  /** calculate_wait_time, calculate_turnaround_time and calculate_response_time of stat.c; nothing
      comes of them if their KASSERT fails. */
  function WaitTime(m: Times): Option<int> {
    if m.termination % U32 != 0 && m.arrival % U32 != 0 && m.running % U32 != 0
    then Some(Minus32(Minus32(m.termination, m.arrival), m.running)) else None
  }

  function TurnaroundTime(m: Times): Option<int> {
    if m.termination % U32 != 0 && m.arrival % U32 != 0 then Some(Minus32(m.termination, m.arrival)) else None
  }

  function ResponseTime(m: Times): Option<int> {
    if m.response.Some? && m.response.value % U32 != 0 && m.arrival % U32 != 0
    then Some(Minus32(m.response.value, m.arrival)) else None
  }

  /** The statistics of a job that has exited: its wait is the time it was alive but not running, and
      no subtraction underflows, although the clock itself may have wrapped around. */
  lemma StatisticsMean(current: Tid, pc: map<Tid, Pc>, times: map<Tid, Times>, ticks: nat, t: Tid)
    requires TimesOk(current, pc, times, ticks) && t in pc && Exited(pc[t]) && times[t].job
    requires times[t].termination - times[t].arrival < U32
    ensures WaitTime(times[t]).Some? ==> WaitTime(times[t]).value == times[t].waited
    ensures TurnaroundTime(times[t]).Some? ==> TurnaroundTime(times[t]).value == times[t].running + times[t].waited
    ensures ResponseTime(times[t]).Some? ==> ResponseTime(times[t]).value == times[t].response.value - times[t].arrival
    ensures ResponseTime(times[t]).Some? && TurnaroundTime(times[t]).Some? ==>
              ResponseTime(times[t]).value <= TurnaroundTime(times[t]).value
  {
    assert TimeOk(current, pc, times, ticks, t);
    var m := times[t];
    Minus32Exact(m.termination, m.arrival);
    Minus32Exact(m.termination - m.arrival, m.running);
    if m.response.Some? {
      Minus32Exact(m.response.value, m.arrival);
    }
  }

  /** When the KASSERTs of stat.c hold for a job that has exited, while its times fit in 32 bits: it was
      created after the first tick, and for the wait, it was charged a tick; for the response, it noted
      one. */
  lemma StatisticsExist(current: Tid, pc: map<Tid, Pc>, times: map<Tid, Times>, ticks: nat, t: Tid)
    requires TimesOk(current, pc, times, ticks) && t in pc && Exited(pc[t]) && times[t].job
    requires times[t].termination < U32
    ensures WaitTime(times[t]).Some? <==> times[t].arrival > 0 && times[t].running > 0
    ensures TurnaroundTime(times[t]).Some? <==> times[t].arrival > 0
    ensures ResponseTime(times[t]).Some? <==> times[t].arrival > 0 && times[t].response.Some?
  {
    assert TimeOk(current, pc, times, ticks, t);
  }

  /** Two jobs without statistics, at whose join the kernel halts: one created before the first tick, and
      one created at tick 5 that exits at tick 7 without having been charged one. */
  lemma NoStatistics()
    ensures var early := Times(0, true, 0, 3, 4, Some(0), 7);
            WaitTime(early) == None && TurnaroundTime(early) == None && ResponseTime(early) == None
    ensures var brief := Times(0, true, 5, 0, 2, Some(6), 7);
            WaitTime(brief) == None && TurnaroundTime(brief) == Some(2) && ResponseTime(brief) == Some(1)
  {
  }
}
