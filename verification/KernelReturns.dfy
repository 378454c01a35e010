/** What the other calls of a thread have done when they return, over any run (synch.c, thread.c,
    keyboard.c). */
module KernelReturns {
  import opened Common
  import opened Runs
  import opened SchedulingOrder
  import opened KernelSteps
  import opened KernelPlaces
  import opened KernelInvariant
  import opened KernelStores
  import opened KernelCreate
  import opened KernelRuns
  import opened KernelSafety
  import opened KernelWaits
  import opened KernelWakeups
  import opened KernelTicks
  import opened KernelCalls

  // --------------------------------------------------------------------- mutex_unlock

  /** In mutex_unlock, with the mutex. */
  predicate Unlocking(s: State, t: Tid, m: nat) {
    Knows(s, t) && (s.pc[t] == UnlockEnter(m, None) || s.pc[t] == UnlockState(m, None))
  }

  /** In mutex_unlock, or about to return from it, without the mutex. */
  predicate Unlocked(s: State, t: Tid, m: nat) {
    Knows(s, t) && m !in s.held[t] &&
    var p := s.pc[t];
    || p == UnlockOwner(m, None) || p == UnlockTest(m, None) || p == UnlockDisable(m, None)
    || p == UnlockWake(m, None) || p == UnlockEnable(m, None) || p == PreemptOn || p == User
  }

  lemma UnlockGoesOn(s: State, e: Event, s': State, t: Tid, m: nat)
    requires Reachable(s) && IsStep(s, e, s') && Unlocking(s, t, m)
    ensures Reachable(s') && (Unlocking(s', t, m) || (m in s.held[t] && Unlocked(s', t, m)))
  {
    ReachableOn(s, e, s');
    if Own(s, e, t) {
      assert Here(s) by { ReachableInv(s); InvHere(s); }
      assert Step(s, e.call, e.keyReady) == UnlockStep(s);
    } else {
      StaysStill(s, e, s', t);
    }
  }

  lemma UnlockedStep(s: State, m: nat)
    requires Consistent(s) && Unlocked(s, s.cpu.current, m) && UnlockStep(s).Ok?
    ensures Unlocked(UnlockStep(s).s, s.cpu.current, m)
  {
    if s.pc[s.cpu.current].UnlockWake? {
      WakeOnePc(s, MutexQ(m));
    }
  }

  lemma UnlockedGoesOn(s: State, e: Event, s': State, t: Tid, m: nat)
    requires Reachable(s) && IsStep(s, e, s') && Unlocked(s, t, m) && !AtUser(s, t)
    ensures Reachable(s') && Unlocked(s', t, m)
  {
    ReachableOn(s, e, s');
    if Own(s, e, t) {
      if s.pc[t] == PreemptOn {
        assert Step(s, e.call, e.keyReady) == LockStep(s);
      } else {
        assert Step(s, e.call, e.keyReady) == UnlockStep(s);
        UnlockedStep(s, m);
      }
    } else {
      StaysStill(s, e, s', t);
    }
  }

  ghost function UnlockBefore(t: Tid, m: nat): State -> bool {
    s => Reachable(s) && Unlocking(s, t, m)
  }

  ghost function UnlockMark(t: Tid, m: nat): (State, Event, State) -> bool {
    (s: State, e: Event, s': State) => Knows(s, t) && m in s.held[t]
  }

  ghost function UnlockAfter(t: Tid, m: nat): State -> bool {
    s => Reachable(s) && Unlocked(s, t, m)
  }

  lemma UnlockStages(t: Tid, m: nat)
    ensures Stages(IsStep, UnlockBefore(t, m), UnlockMark(t, m), UnlockAfter(t, m), Out(t))
  {
    forall s, e, s' | Reachable(s) && Unlocking(s, t, m) && IsStep(s, e, s')
      ensures Reachable(s') && (Unlocking(s', t, m) || (UnlockMark(t, m)(s, e, s') && Unlocked(s', t, m)))
    {
      UnlockGoesOn(s, e, s', t, m);
    }
    forall s, e, s' | Reachable(s) && Unlocked(s, t, m) && !AtUser(s, t) && IsStep(s, e, s')
      ensures Reachable(s') && Unlocked(s', t, m)
    {
      UnlockedGoesOn(s, e, s', t, m);
    }
  }

  /** mutex_unlock returns without the mutex, which it had. */
  lemma UnlockReturns(states: seq<State>, events: seq<Event>, t: Tid, m: nat, i: nat) returns (k: nat)
    requires Returns(states, events, t, Unlock(m), i)
    ensures Knows(states[i], t) && m !in states[i].held[t]
    ensures 1 <= k < i && Knows(states[k], t) && m in states[k].held[t]
  {
    CallBegins(states, events, t, Unlock(m), i);
    UnlockStages(t, m);
    k := ChainComesOut(IsStep, states, events, UnlockBefore(t, m), UnlockMark(t, m), UnlockAfter(t, m), Out(t), i);
  }

  // ------------------------------------------------------------------------ cond_wait

  /** In cond_wait, and not yet on the condition's queue. */
  predicate Entering(s: State, t: Tid, c: nat, m: nat) {
    Knows(s, t) &&
    (s.pc[t] == UnlockEnter(m, Some(c)) || s.pc[t] == UnlockState(m, Some(c)) || Releasing(s.pc[t], c, m))
  }

  /** In cond_wait, having been put on the queue, or about to return from it. */
  predicate Waiting(s: State, t: Tid, c: nat, m: nat) {
    Knows(s, t) && (s.pc[t] == ParkResume(CondQ(c), m) || Locking(s.pc[t], m) || ReturnsHolding(s, t, m))
  }

  /** Thread t waits on condition c and does not have mutex m. */
  predicate OnCondition(s: State, t: Tid, c: nat, m: nat) {
    t in Q(s.queues, CondQ(c)) && t in s.held && m !in s.held[t]
  }

  /** The statements of cond_wait from which it goes on to unlock the mutex. */
  predicate EarlyIn(p: Pc, c: nat, m: nat) {
    p == UnlockEnter(m, Some(c)) || p == UnlockState(m, Some(c)) || p == UnlockOwner(m, Some(c))
  }

  predicate LateIn(p: Pc, c: nat, m: nat) {
    || p == UnlockTest(m, Some(c)) || p == UnlockDisable(m, Some(c)) || p == UnlockWake(m, Some(c))
    || p == UnlockEnable(m, Some(c))
  }

  lemma EnterUnlocks(s: State, c: nat, m: nat)
    requires Here(s) && EarlyIn(s.pc[s.cpu.current], c, m) && UnlockStep(s).Ok?
    ensures Entering(UnlockStep(s).s, s.cpu.current, c, m)
  {
  }

  lemma EnterLeaves(s: State, c: nat, m: nat)
    requires Here(s) && LateIn(s.pc[s.cpu.current], c, m) && UnlockStep(s).Ok?
    ensures Entering(UnlockStep(s).s, s.cpu.current, c, m)
  {
    if s.pc[s.cpu.current].UnlockWake? {
      WakeOnePc(s, MutexQ(m));
    }
  }

  lemma EnterParks(s: State, c: nat, m: nat)
    requires Here(s) && Entering(s, s.cpu.current, c, m) && ParkStep(s).Ok? && Consistent(ParkStep(s).s)
    requires s.pc[s.cpu.current].ParkDisable? || s.pc[s.cpu.current].ParkPreempt? || s.pc[s.cpu.current].ParkWait?
    ensures var t, s' := s.cpu.current, ParkStep(s).s;
            Entering(s', t, c, m) || (OnCondition(s', t, c, m) && Waiting(s', t, c, m))
  {
    ParkReleases(s, c, m);
  }

  lemma EnterGoesOn(s: State, e: Event, s': State, t: Tid, c: nat, m: nat)
    requires Reachable(s) && IsStep(s, e, s') && Entering(s, t, c, m)
    ensures Reachable(s') && (Entering(s', t, c, m) || (OnCondition(s', t, c, m) && Waiting(s', t, c, m)))
  {
    ReachableOn(s, e, s');
    if Own(s, e, t) {
      assert Here(s) by { ReachableInv(s); InvHere(s); }
      assert Consistent(s') by { ReachableInv(s'); InvConsistent(s'); }
      var p := s.pc[t];
      if p.ParkDisable? || p.ParkPreempt? || p.ParkWait? {
        assert Step(s, e.call, e.keyReady) == ParkStep(s);
        EnterParks(s, c, m);
      } else {
        assert Step(s, e.call, e.keyReady) == UnlockStep(s);
        if EarlyIn(p, c, m) {
          EnterUnlocks(s, c, m);
        } else {
          EnterLeaves(s, c, m);
        }
      }
    } else {
      StaysStill(s, e, s', t);
    }
  }

  lemma WaitGoesOn(s: State, e: Event, s': State, t: Tid, c: nat, m: nat)
    requires Reachable(s) && IsStep(s, e, s') && Waiting(s, t, c, m) && !AtUser(s, t)
    ensures Reachable(s') && Waiting(s', t, c, m)
  {
    if Locking(s.pc[t], m) {
      LockGoesOn(s, e, s', t, m);
    } else if ReturnsHolding(s, t, m) {
      HoldingGoesOn(s, e, s', t, m);
    } else {
      ReachableOn(s, e, s');
      if Own(s, e, t) {
        assert Step(s, e.call, e.keyReady) == ParkStep(s);
      } else {
        StaysStill(s, e, s', t);
      }
    }
  }

  ghost function CondWaitBefore(t: Tid, c: nat, m: nat): State -> bool {
    s => Reachable(s) && Entering(s, t, c, m)
  }

  ghost function CondWaitMark(t: Tid, c: nat, m: nat): (State, Event, State) -> bool {
    (s: State, e: Event, s': State) => OnCondition(s', t, c, m)
  }

  ghost function CondWaitAfter(t: Tid, c: nat, m: nat): State -> bool {
    s => Reachable(s) && Waiting(s, t, c, m)
  }

  lemma CondWaitStages(t: Tid, c: nat, m: nat)
    ensures Stages(IsStep, CondWaitBefore(t, c, m), CondWaitMark(t, c, m), CondWaitAfter(t, c, m), Out(t))
  {
    forall s, e, s' | Reachable(s) && Entering(s, t, c, m) && IsStep(s, e, s')
      ensures Reachable(s') && (Entering(s', t, c, m) || (CondWaitMark(t, c, m)(s, e, s') && Waiting(s', t, c, m)))
    {
      EnterGoesOn(s, e, s', t, c, m);
    }
    forall s, e, s' | Reachable(s) && Waiting(s, t, c, m) && !AtUser(s, t) && IsStep(s, e, s')
      ensures Reachable(s') && Waiting(s', t, c, m)
    {
      WaitGoesOn(s, e, s', t, c, m);
    }
  }

  /** cond_wait returns with the mutex, having waited on the condition without it. */
  lemma CondWaitReturns(states: seq<State>, events: seq<Event>, t: Tid, c: nat, m: nat, i: nat) returns (k: nat)
    requires Returns(states, events, t, CondWait(c, m), i)
    ensures Knows(states[i], t) && m in states[i].held[t] && MutexOf(states[i].mutexes, m) == Mutex(true, Some(t))
    ensures 1 <= k < i && OnCondition(states[k + 1], t, c, m)
  {
    CallBegins(states, events, t, CondWait(c, m), i);
    CondWaitStages(t, c, m);
    k := ChainComesOut(IsStep, states, events, CondWaitBefore(t, c, m), CondWaitMark(t, c, m),
                       CondWaitAfter(t, c, m), Out(t), i);
    OwnerKnown(states[i], t, m);
  }

  // ------------------------------------------- calls that end by enabling interrupts again

  predicate Leaving(s: State, t: Tid) {
    Knows(s, t) && (s.pc[t] == IntsOn || s.pc[t] == User)
  }

  lemma LeavingGoesOn(s: State, e: Event, s': State, t: Tid)
    requires Reachable(s) && IsStep(s, e, s') && Leaving(s, t) && !AtUser(s, t)
    ensures Reachable(s') && Leaving(s', t)
  {
    ReachableOn(s, e, s');
    if Own(s, e, t) {
      assert Step(s, e.call, e.keyReady) == SignalStep(s);
    } else {
      StaysStill(s, e, s', t);
    }
  }

  predicate Signalling(s: State, t: Tid, c: nat) {
    Knows(s, t) && (s.pc[t] == SignalDisable(c) || s.pc[t] == SignalWake(c))
  }

  /** The thread that runs wakes the first waiter of condition c, unless there is none. */
  predicate Signals(s: State, s': State, t: Tid, c: nat) {
    s.cpu.current == t && (Q(s.queues, CondQ(c)) == [] || FirstWoken(s, s', CondQ(c)))
  }

  lemma SignalGoesOn(s: State, e: Event, s': State, t: Tid, c: nat)
    requires Reachable(s) && IsStep(s, e, s') && Signalling(s, t, c)
    ensures Reachable(s') && (Signalling(s', t, c) || (Signals(s, s', t, c) && Leaving(s', t)))
  {
    ReachableOn(s, e, s');
    if Own(s, e, t) {
      assert Step(s, e.call, e.keyReady) == SignalStep(s);
      if s.pc[t].SignalWake? {
        WakeOnePc(s, CondQ(c));
        if Q(s.queues, CondQ(c)) != [] {
          FirstIsWoken(s, e, s', CondQ(c));
        }
      }
    } else {
      StaysStill(s, e, s', t);
    }
  }

  ghost function SignalBefore(t: Tid, c: nat): State -> bool {
    s => Reachable(s) && Signalling(s, t, c)
  }

  ghost function SignalMark(t: Tid, c: nat): (State, Event, State) -> bool {
    (s: State, e: Event, s': State) => Signals(s, s', t, c)
  }

  ghost function SignalAfter(t: Tid, c: nat): State -> bool {
    s => Reachable(s) && Leaving(s, t)
  }

  lemma SignalStages(t: Tid, c: nat)
    ensures Stages(IsStep, SignalBefore(t, c), SignalMark(t, c), SignalAfter(t, c), Out(t))
  {
    forall s, e, s' | Reachable(s) && Signalling(s, t, c) && IsStep(s, e, s')
      ensures Reachable(s') && (Signalling(s', t, c) || (SignalMark(t, c)(s, e, s') && Leaving(s', t)))
    {
      SignalGoesOn(s, e, s', t, c);
    }
    forall s, e, s' | Reachable(s) && Leaving(s, t) && !AtUser(s, t) && IsStep(s, e, s')
      ensures Reachable(s') && Leaving(s', t)
    {
      LeavingGoesOn(s, e, s', t);
    }
  }

  /** cond_signal returns having woken the first waiter, if there was one. */
  lemma SignalReturns(states: seq<State>, events: seq<Event>, t: Tid, c: nat, i: nat) returns (k: nat)
    requires Returns(states, events, t, Signal(c), i)
    ensures 1 <= k < i && Signals(states[k], states[k + 1], t, c)
  {
    CallBegins(states, events, t, Signal(c), i);
    SignalStages(t, c);
    k := ChainComesOut(IsStep, states, events, SignalBefore(t, c), SignalMark(t, c), SignalAfter(t, c), Out(t), i);
  }

  predicate Yielding(s: State, t: Tid) {
    Knows(s, t) && (s.pc[t] == YieldDisable || s.pc[t] == YieldSwitch)
  }

  lemma YieldStarts(s: State)
    requires Consistent(s) && s.cpu.current in s.held && s.pc[s.cpu.current] == YieldDisable && SignalStep(s).Ok?
    ensures Yielding(SignalStep(s).s, s.cpu.current)
  {
  }

  lemma YieldLeaves(s: State)
    requires Consistent(s) && s.cpu.current in s.held && s.pc[s.cpu.current] == YieldSwitch && SignalStep(s).Ok?
    ensures Leaving(SignalStep(s).s, s.cpu.current)
  {
    RequeuePc(Goto(s, IntsOn), false);
  }

  lemma YieldGoesOn(s: State, e: Event, s': State, t: Tid)
    requires Reachable(s) && IsStep(s, e, s') && Yielding(s, t)
    ensures Reachable(s') && (Yielding(s', t) || (s.cpu.current == t && Requeued(s, s') && Leaving(s', t)))
  {
    ReachableOn(s, e, s');
    if Own(s, e, t) {
      assert Step(s, e.call, e.keyReady) == SignalStep(s);
      if s.pc[t] == YieldSwitch {
        YieldRequeues(s, e, s');
        YieldLeaves(s);
      } else {
        YieldStarts(s);
      }
    } else {
      StaysStill(s, e, s', t);
    }
  }

  ghost function YieldBefore(t: Tid): State -> bool {
    s => Reachable(s) && Yielding(s, t)
  }

  ghost function YieldMark(t: Tid): (State, Event, State) -> bool {
    (s: State, e: Event, s': State) => s.cpu.current == t && Requeued(s, s')
  }

  ghost function YieldAfter(t: Tid): State -> bool {
    s => Reachable(s) && Leaving(s, t)
  }

  lemma YieldStages(t: Tid)
    ensures Stages(IsStep, YieldBefore(t), YieldMark(t), YieldAfter(t), Out(t))
  {
    forall s, e, s' | Reachable(s) && Yielding(s, t) && IsStep(s, e, s')
      ensures Reachable(s') && (Yielding(s', t) || (YieldMark(t)(s, e, s') && Leaving(s', t)))
    {
      YieldGoesOn(s, e, s', t);
    }
    forall s, e, s' | Reachable(s) && Leaving(s, t) && !AtUser(s, t) && IsStep(s, e, s')
      ensures Reachable(s') && Leaving(s', t)
    {
      LeavingGoesOn(s, e, s', t);
    }
  }

  /** thread_yield returns having let the scheduler decide anew. */
  lemma YieldReturns(states: seq<State>, events: seq<Event>, t: Tid, i: nat) returns (k: nat)
    requires Returns(states, events, t, Yield, i)
    ensures 1 <= k < i && states[k].cpu.current == t && Requeued(states[k], states[k + 1])
  {
    CallBegins(states, events, t, Yield, i);
    YieldStages(t);
    k := ChainComesOut(IsStep, states, events, YieldBefore(t), YieldMark(t), YieldAfter(t), Out(t), i);
  }

  predicate ReadingKey(s: State, t: Tid) {
    Knows(s, t) && (s.pc[t] == KeyDisable || s.pc[t] == KeyTest)
  }

  lemma KeyGoesOn(s: State, e: Event, s': State, t: Tid)
    requires Reachable(s) && IsStep(s, e, s') && ReadingKey(s, t)
    ensures Reachable(s') &&
            (ReadingKey(s', t) || (s.cpu.current == t && e.Run? && e.keyReady && Leaving(s', t)))
  {
    ReachableOn(s, e, s');
    if Own(s, e, t) {
      assert Step(s, e.call, e.keyReady) == WorkStep(s, e.keyReady);
      if s.pc[t] == KeyTest && !e.keyReady {
        EventWaitIs(s, e.keyReady);
        WaitPc(s, EventQ);
      }
    } else {
      StaysStill(s, e, s', t);
    }
  }

  ghost function ReadKeyBefore(t: Tid): State -> bool {
    s => Reachable(s) && ReadingKey(s, t)
  }

  ghost function ReadKeyMark(t: Tid): (State, Event, State) -> bool {
    (s: State, e: Event, s': State) => s.cpu.current == t && e.Run? && e.keyReady
  }

  ghost function ReadKeyAfter(t: Tid): State -> bool {
    s => Reachable(s) && Leaving(s, t)
  }

  lemma ReadKeyStages(t: Tid)
    ensures Stages(IsStep, ReadKeyBefore(t), ReadKeyMark(t), ReadKeyAfter(t), Out(t))
  {
    forall s, e, s' | Reachable(s) && ReadingKey(s, t) && IsStep(s, e, s')
      ensures Reachable(s') && (ReadingKey(s', t) || (ReadKeyMark(t)(s, e, s') && Leaving(s', t)))
    {
      KeyGoesOn(s, e, s', t);
    }
    forall s, e, s' | Reachable(s) && Leaving(s, t) && !AtUser(s, t) && IsStep(s, e, s')
      ensures Reachable(s') && Leaving(s', t)
    {
      LeavingGoesOn(s, e, s', t);
    }
  }

  /** wait_for_key returns having found a key. */
  lemma ReadKeyReturns(states: seq<State>, events: seq<Event>, t: Tid, i: nat) returns (k: nat)
    requires Returns(states, events, t, ReadKey, i)
    ensures 1 <= k < i && states[k].cpu.current == t && events[k].Run? && events[k].keyReady
  {
    CallBegins(states, events, t, ReadKey, i);
    ReadKeyStages(t);
    k := ChainComesOut(IsStep, states, events, ReadKeyBefore(t), ReadKeyMark(t), ReadKeyAfter(t), Out(t), i);
  }

  predicate Joining(s: State, t: Tid, ch: Tid) {
    Knows(s, t) && (s.pc[t] == JoinDisable(ch) || s.pc[t] == JoinTest(ch) || s.pc[t] == JoinDetach(ch))
  }

  /** Thread ch has ended, and a reference to it is given up on behalf of its parent. */
  predicate LetsGo(s: State, s': State, ch: Tid) {
    && ch in s.pc && s.pc[ch] == Dead && ch in s.refs && ch in s'.refs
    && s'.refs[ch] == s.refs[ch].(refcount := s.refs[ch].refcount - 1, joined := true)
  }

  lemma DetachLetsGo(s: State, ch: Tid)
    requires Here(s) && s.pc[s.cpu.current] == JoinDetach(ch) && ch in s.pc && s.pc[ch] == Dead && JoinStep(s).Ok?
    ensures LetsGo(s, JoinStep(s).s, ch) && Leaving(JoinStep(s).s, s.cpu.current)
  {
    var s1 := s.(refs := s.refs[ch := s.refs[ch].(joined := true)]);
    DetachIs(s1, ch, IntsOn);
    WakeOnePc(s1, EventQ);
  }

  lemma JoinWaits(s: State, ch: Tid)
    requires Here(s) && JoinStep(s).Ok?
    requires s.pc[s.cpu.current] == JoinDisable(ch) || s.pc[s.cpu.current] == JoinTest(ch)
    ensures Joining(JoinStep(s).s, s.cpu.current, ch)
  {
    if JoinStep(s) == WaitOn(s, JoinQ(ch)) {
      WaitPc(s, JoinQ(ch));
    }
  }

  lemma JoinGoesOn(s: State, e: Event, s': State, t: Tid, ch: Tid)
    requires Reachable(s) && IsStep(s, e, s') && Joining(s, t, ch)
    ensures Reachable(s') && (Joining(s', t, ch) || (LetsGo(s, s', ch) && Leaving(s', t)))
  {
    ReachableOn(s, e, s');
    if Own(s, e, t) {
      assert Here(s) by { ReachableInv(s); InvHere(s); }
      assert Step(s, e.call, e.keyReady) == JoinStep(s);
      if s.pc[t].JoinDetach? {
        JoinNeverMisses(s, t, ch);
        DetachLetsGo(s, ch);
      } else {
        JoinWaits(s, ch);
      }
    } else {
      StaysStill(s, e, s', t);
    }
  }

  ghost function JoinBefore(t: Tid, ch: Tid): State -> bool {
    s => Reachable(s) && Joining(s, t, ch)
  }

  ghost function JoinMark(t: Tid, ch: Tid): (State, Event, State) -> bool {
    (s: State, e: Event, s': State) => LetsGo(s, s', ch)
  }

  ghost function JoinAfter(t: Tid): State -> bool {
    s => Reachable(s) && Leaving(s, t)
  }

  lemma JoinStages(t: Tid, ch: Tid)
    ensures Stages(IsStep, JoinBefore(t, ch), JoinMark(t, ch), JoinAfter(t), Out(t))
  {
    forall s, e, s' | Reachable(s) && Joining(s, t, ch) && IsStep(s, e, s')
      ensures Reachable(s') && (Joining(s', t, ch) || (JoinMark(t, ch)(s, e, s') && Leaving(s', t)))
    {
      JoinGoesOn(s, e, s', t, ch);
    }
    forall s, e, s' | Reachable(s) && Leaving(s, t) && !AtUser(s, t) && IsStep(s, e, s')
      ensures Reachable(s') && Leaving(s', t)
    {
      LeavingGoesOn(s, e, s', t);
    }
  }

  /** thread_join returns when the child has ended, having given up the reference to it. */
  lemma JoinReturns(states: seq<State>, events: seq<Event>, t: Tid, ch: Tid, i: nat) returns (k: nat)
    requires Returns(states, events, t, Join(ch), i)
    ensures 1 <= k < i && LetsGo(states[k], states[k + 1], ch)
  {
    CallBegins(states, events, t, Join(ch), i);
    JoinStages(t, ch);
    k := ChainComesOut(IsStep, states, events, JoinBefore(t, ch), JoinMark(t, ch), JoinAfter(t), Out(t), i);
  }

  // -------------------------------------------------------- calls that wake a whole queue

  /** The statement at which a call begins that wakes the whole of queue q. */
  predicate WakesQueue(p: Pc, q: QueueId) {
    match p
    case BroadcastDisable(c) => q == CondQ(c)
    case MergeDisable => q == NewQ
    case _ => false
  }

  predicate At(s: State, t: Tid, p: Pc) {
    Knows(s, t) && s.pc[t] == p
  }

  predicate InLoop(s: State, t: Tid, q: QueueId) {
    s.cpu.current == t && Loops(s, q, IntsOn)
  }

  lemma StartGoesOn(s: State, e: Event, s': State, t: Tid, p: Pc, q: QueueId)
    requires Reachable(s) && IsStep(s, e, s') && WakesQueue(p, q) && At(s, t, p)
    ensures Reachable(s') && (At(s', t, p) || InLoop(s', t, q))
  {
    ReachableOn(s, e, s');
    if Own(s, e, t) {
      assert Consistent(s') by { ReachableInv(s'); InvConsistent(s'); }
      if p.MergeDisable? {
        assert Step(s, e.call, e.keyReady) == JoinStep(s);
      } else {
        assert Step(s, e.call, e.keyReady) == SignalStep(s);
      }
    } else {
      StaysStill(s, e, s', t);
    }
  }

  ghost function LoopBefore(t: Tid, p: Pc): State -> bool {
    s => Reachable(s) && At(s, t, p)
  }

  ghost function LoopMark(t: Tid, q: QueueId): (State, Event, State) -> bool {
    (s: State, e: Event, s': State) => InLoop(s', t, q)
  }

  ghost function LoopAfter(): State -> bool {
    s => Reachable(s)
  }

  lemma LoopStages(t: Tid, p: Pc, q: QueueId)
    requires WakesQueue(p, q)
    ensures Stages(IsStep, LoopBefore(t, p), LoopMark(t, q), LoopAfter(), Out(t))
  {
    forall s, e, s' | Reachable(s) && At(s, t, p) && IsStep(s, e, s')
      ensures Reachable(s') && (At(s', t, p) || LoopMark(t, q)(s, e, s'))
    {
      StartGoesOn(s, e, s', t, p, q);
    }
    forall s, e, s' | Reachable(s) && IsStep(s, e, s') ensures Reachable(s') {
      ReachableOn(s, e, s');
    }
  }

  lemma {:induction false} RunReachable(states: seq<State>, events: seq<Event>, i: nat)
    requires Follow(states, events) && Reachable(states[0]) && i < |states|
    ensures Reachable(states[i])
  {
    if i > 0 {
      RunReachable(states, events, i - 1);
      ChainAt(IsStep, states, events, i - 1);
      ReachableOn(states[i - 1], events[i - 1], states[i]);
    }
  }

  /** A call that wakes a whole queue gets to its loop. */
  lemma LoopReached(states: seq<State>, events: seq<Event>, t: Tid, call: Call, i: nat, q: QueueId) returns (k: nat)
    requires Returns(states, events, t, call, i) && WakesQueue(First(call), q)
    requires LoopBefore(t, First(call))(states[1])
    ensures 1 <= k < i && InLoop(states[k + 1], t, q)
  {
    LoopStages(t, First(call), q);
    k := ChainComesOut(IsStep, states, events, LoopBefore(t, First(call)), LoopMark(t, q), LoopAfter(), Out(t), i);
  }

  lemma LoopIsInside(s: State, q: QueueId)
    requires Loops(s, q, IntsOn)
    ensures !AtUser(s, s.cpu.current)
  {
  }

  /** From the beginning of the loop to its end. */
  lemma LoopReturns(states: seq<State>, events: seq<Event>, t: Tid, q: QueueId, k: nat, i: nat) returns (l: nat)
    requires Follow(states, events) && k <= i < |states| && Reachable(states[k])
    requires InLoop(states[k], t, q) && AtUser(states[i], t)
    ensures k < l <= i && AllWoken(states[k], states[l], q)
    ensures forall j :: k <= j <= l ==> states[j].cpu.current == t
  {
    var n := |Q(states[k].queues, q)|;
    if i <= k + n {
      LoopFrom(states, events, q, IntsOn, k, i);
      LoopIsInside(states[i], q);
    }
    l := k + n + 1;
    forall j | k <= j <= l ensures states[j].cpu.current == t {
      LoopFrom(states, events, q, IntsOn, k, j);
    }
    LoopFrom(states, events, q, IntsOn, k, l);
  }

  /** cond_broadcast returns having woken everybody who waited on the condition, in one go: from states[k]
      to states[l] only this thread runs. */
  lemma BroadcastReturns(states: seq<State>, events: seq<Event>, t: Tid, c: nat, i: nat) returns (k: nat, l: nat)
    requires Returns(states, events, t, Broadcast(c), i)
    ensures 1 <= k < l <= i && AllWoken(states[k], states[l], CondQ(c))
    ensures forall j :: k <= j <= l ==> states[j].cpu.current == t
  {
    CallBegins(states, events, t, Broadcast(c), i);
    k := LoopReached(states, events, t, Broadcast(c), i, CondQ(c));
    k := k + 1;
    RunReachable(states, events, k);
    l := LoopReturns(states, events, t, CondQ(c), k, i);
  }

  /** And so does the merge of the new jobs with the ready threads. */
  lemma MergeReturns(states: seq<State>, events: seq<Event>, t: Tid, i: nat) returns (k: nat, l: nat)
    requires Returns(states, events, t, Merge, i)
    ensures 1 <= k < l <= i && AllWoken(states[k], states[l], NewQ)
    ensures forall j :: k <= j <= l ==> states[j].cpu.current == t
  {
    CallBegins(states, events, t, Merge, i);
    k := LoopReached(states, events, t, Merge, i, NewQ);
    k := k + 1;
    RunReachable(states, events, k);
    l := LoopReturns(states, events, t, NewQ, k, i);
  }

  // ----------------------------------------------------------------------- thread_exit

  /** In thread_exit, or after it. */
  predicate Exiting(s: State, t: Tid) {
    Knows(s, t) && (s.pc[t].ExitDisable? || s.pc[t].ExitDetach? || s.pc[t].ExitMark? || s.pc[t].ExitWake?
                    || s.pc[t].ExitSwitch? || s.pc[t].Dead?)
  }

  lemma ExitGoesOn(s: State, e: Event, s': State, t: Tid)
    requires Reachable(s) && IsStep(s, e, s') && Exiting(s, t)
    ensures Reachable(s') && Exiting(s', t)
  {
    ReachableOn(s, e, s');
    if Own(s, e, t) {
      assert Here(s) by { ReachableInv(s); InvHere(s); }
      assert Step(s, e.call, e.keyReady) == ExitStep(s);
      ExitOwnStep(s);
    } else {
      StaysStill(s, e, s', t);
    }
  }

  lemma ExitOwnStep(s: State)
    requires Here(s) && Exiting(s, s.cpu.current) && ExitStep(s).Ok?
    ensures Exiting(ExitStep(s).s, s.cpu.current)
  {
    var p := s.pc[s.cpu.current];
    if p.ExitDetach? {
      DetachIs(s, s.cpu.current, ExitMark);
      WakeOnePc(s, EventQ);
    } else if p.ExitWake? {
      WakeOnePc(s, JoinQ(s.cpu.current));
    }
  }

  /** thread_exit does not return. */
  lemma {:induction false} ExitNeverReturns(states: seq<State>, events: seq<Event>, t: Tid, i: nat)
    requires Follow(states, events) && Reachable(states[0]) && 1 <= i < |states|
    requires states[0].cpu.current == t && AtUser(states[0], t) && events[0].Run? && events[0].call == Exit
    ensures Reachable(states[i]) && Exiting(states[i], t)
  {
    ChainAt(IsStep, states, events, i - 1);
    if i == 1 {
      Begins(states[0], events[0], states[1]);
    } else {
      ExitNeverReturns(states, events, t, i - 1);
      ExitGoesOn(states[i - 1], events[i - 1], states[i], t);
    }
  }

  // ----------------------------------------------------------------- threads that begin

  /** Only thread t is new, on queue q. */
  ghost predicate OnlyNew(s: State, s': State, t: Tid, q: QueueId) {
    && t in s'.pc && s'.pc[t] == Start && t in s'.sched && s'.sched[t].place == In(q) && t in Q(s'.queues, q)
    && s'.cpu == s.cpu && (forall u :: u in s.sched ==> u in s'.sched && s'.sched[u] == s.sched[u])
    && (forall r :: r != q ==> Q(s'.queues, r) == Q(s.queues, r))
    && (s.clock.policy == FCFS || s.clock.policy == RR ==> Q(s'.queues, q) == Q(s.queues, q) + [t])
    && t in s'.iflag && !s'.iflag[t]
  }

  /** Who holds references to a new thread: itself, and its creator, if it is attached. */
  predicate NewReferences(s: State, s': State, t: Tid, attached: bool) {
    t in s'.refs &&
    if attached then s'.refs[t].parent == Some(s.cpu.current) && s'.refs[t].refcount == 2 && !s'.refs[t].joined
    else s'.refs[t].parent == None && s'.refs[t].refcount == 1
  }

  lemma NewThreadMeans(s: State, t: Tid, q: QueueId, k: nat, v: Sched, r: Refs, m: Times)
    requires t !in s.sched && k <= |Q(s.queues, q)| && v.place == In(q)
    requires s.clock.policy == FCFS || s.clock.policy == RR ==> k == |Q(s.queues, q)|
    ensures OnlyNew(s, WithThread(s, t, q, k, v, r, m), t, q)
  {
    InsertAtMembers(Q(s.queues, q), k, t);
  }

  /** thread_create makes a thread that is ready. */
  lemma Creates(s: State, t: Tid, attached: bool)
    requires Consistent(s) && t !in s.pc && t !in s.sched
    ensures var o := CallStep(s, Create(t, attached));
            && o.Ok? && OnlyNew(s, o.s, t, RunQ) && NewReferences(s, o.s, t, attached)
            && o.s.sched[t].state == READY && o.s.sched[t].priority == DEFAULT_PRIORITY
  {
    CreateIs(s, t, attached);
    var arrival := if s.clock.ticks > 0 then s.clock.ticks else 1;
    NewThreadMeans(s, t, RunQ, CreateAt(s, t), Sched(READY, In(RunQ), DEFAULT_PRIORITY), NewRefs(s, attached),
                   Times(0, false, arrival, 0, 0, None, 0));
  }

  /** thread_create_from_job makes a thread that waits for the merge, and notes when it arrives. */
  lemma CreatesJob(s: State, t: Tid, attached: bool, burst: int, priority: int)
    requires Consistent(s) && t !in s.pc && t !in s.sched
    ensures var o := CallStep(s, CreateJob(t, attached, burst, priority));
            && o.Ok? && OnlyNew(s, o.s, t, NewQ) && NewReferences(s, o.s, t, attached) && o.s.sched[t].state == NEW
            && (o.s.sched[t].priority ==
                match s.clock.policy case SJF => burst case PRIORITY => priority case _ => DEFAULT_PRIORITY)
            && t in o.s.times && o.s.times[t].job && o.s.times[t].arrival == s.clock.ticks
  {
    CreateJobIs(s, t, attached, burst, priority);
    var p := JobPriority(s.clock.policy, burst, priority);
    NewThreadMeans(s, t, NewQ, CreateJobAt(s, t, p), Sched(NEW, In(NewQ), p), NewRefs(s, attached),
                   Times(0, true, s.clock.ticks, 0, 0, None, 0));
  }

  /** The workqueue thread waits for work only when there is none. */
  lemma WaitsForWork(s: State, e: Event, s': State)
    requires Reachable(s) && IsStep(s, e, s') && WORKER !in Q(s.queues, EventQ) && WORKER in Q(s'.queues, EventQ)
    ensures s.work.items == []
  {
    ReachableOn(s, e, s');
    FirstComeFirstWoken(s, e, s', EventQ);
    assert Q(s'.queues, EventQ) == Q(s.queues, EventQ) + [s.cpu.current];
    assert s.cpu.current == WORKER && e.Run?;
    assert s'.cpu.current != WORKER by {
      ReachableInv(s');
      PlaceIsQueue(s', WORKER);
    }
    RunClock(s, e, s');
    assert Role(s.pc, WORKER) by { ReachableInv(s); }
  }
}
