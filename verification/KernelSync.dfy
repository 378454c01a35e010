/** What keeps mutexes and condition variables right while threads are switched at any statement
    that allows it. */
module KernelSync {
  import opened Common
  import opened KernelSteps

  // ---------------------------------------------------------------- mutual exclusion

  /** What the statement a thread is at says about the mutexes it holds. */
  predicate HeldAt(p: Pc, held: set<nat>) {
    match p
    case LockEnter(m) => m !in held
    case LockTest(m) => m !in held
    case LockTake(m) => m !in held
    case LockOwn(m) => m !in held
    case ParkDisable(q, m) => m !in held && (q == MutexQ(m) || q.CondQ?)
    case ParkPreempt(q, m) => m !in held && (q == MutexQ(m) || q.CondQ?)
    case ParkWait(q, m) => m !in held && (q == MutexQ(m) || q.CondQ?)
    case ParkResume(q, m) => m !in held && (q == MutexQ(m) || q.CondQ?)
    case ParkEnable(m) => m !in held
    case UnlockEnter(m, _) => m in held
    case UnlockState(m, _) => m in held
    case UnlockOwner(m, _) => m !in held
    case UnlockTest(m, _) => m !in held
    case UnlockDisable(m, _) => m !in held
    case UnlockWake(m, _) => m !in held
    case UnlockEnable(m, _) => m !in held
    case _ => true
  }

  ghost predicate HeldOk(pc: map<Tid, Pc>, held: map<Tid, set<nat>>, mutexes: map<nat, Mutex>, t: Tid) {
    t in pc && t in held ==>
      && HeldAt(pc[t], held[t])
      && forall m :: m in held[t] ==> MutexOf(mutexes, m) == Mutex(true, Some(t))
  }

  /** A mutex is locked exactly when it has an owner, who is between lock and unlock of it, but for
      the current thread being between the two stores of mutex_lock_imp or of mutex_unlock_imp. */
  ghost predicate MutexOk(p: Pc, current: Tid, held: map<Tid, set<nat>>, mutexes: map<nat, Mutex>, m: nat) {
    var mutex := MutexOf(mutexes, m);
    if p == LockOwn(m) then
      mutex == Mutex(true, None)
    else if p.UnlockOwner? && p.m == m then
      mutex == Mutex(false, Some(current))
    else
      || mutex == Mutex(false, None)
      || (mutex.locked && mutex.owner.Some? && mutex.owner.value in held && m in held[mutex.owner.value])
  }

  /** What the current statement has established about the mutex it is about. */
  predicate CurrentOk(p: Pc, mutexes: map<nat, Mutex>, queues: map<QueueId, seq<Tid>>) {
    match p
    case LockTake(m) => !MutexOf(mutexes, m).locked
    case ParkDisable(q, m) => q == MutexQ(m) ==> MutexOf(mutexes, m).locked
    case ParkPreempt(q, m) => q == MutexQ(m) ==> MutexOf(mutexes, m).locked
    case ParkWait(q, m) => q == MutexQ(m) ==> MutexOf(mutexes, m).locked
    case UnlockDisable(m, _) => Q(queues, MutexQ(m)) != []
    case UnlockWake(m, _) => Q(queues, MutexQ(m)) != []
    case _ => true
  }

  ghost predicate Sync(current: Tid, pc: map<Tid, Pc>, held: map<Tid, set<nat>>, mutexes: map<nat, Mutex>,
                       queues: map<QueueId, seq<Tid>>) {
    && current in pc && pc.Keys == held.Keys
    && CurrentOk(pc[current], mutexes, queues)
    && (forall t {:trigger HeldOk(pc, held, mutexes, t)} :: HeldOk(pc, held, mutexes, t))
    && (forall m {:trigger MutexOk(pc[current], current, held, mutexes, m)} ::
          MutexOk(pc[current], current, held, mutexes, m))
  }

  /** Statements between the two stores of lock or unlock. */
  predicate HalfDone(p: Pc) {
    p.LockOwn? || p.UnlockOwner?
  }

  /** The current thread moves on to p, and current' runs next; no mutex changes. */
  lemma SyncMove(current: Tid, pc: map<Tid, Pc>, held: map<Tid, set<nat>>, mutexes: map<nat, Mutex>,
                 queues: map<QueueId, seq<Tid>>, p: Pc, current': Tid, queues': map<QueueId, seq<Tid>>)
    requires Sync(current, pc, held, mutexes, queues) && current' in pc
    requires || (p == pc[current] && current' == current)
             || (!HalfDone(pc[current]) && !HalfDone(pc[current := p][current']) && HeldAt(p, held[current]))
    requires CurrentOk(pc[current := p][current'], mutexes, queues')
    ensures Sync(current', pc[current := p], held, mutexes, queues')
  {
    var pc' := pc[current := p];
    assert HeldOk(pc, held, mutexes, current);
    forall t ensures HeldOk(pc', held, mutexes, t) {
      assert HeldOk(pc, held, mutexes, t);
    }
    forall m ensures MutexOk(pc'[current'], current', held, mutexes, m) {
      assert MutexOk(pc[current], current, held, mutexes, m);
    }
  }

  /** The current thread changes mutex m, and perhaps whether it holds it. */
  lemma SyncStore(current: Tid, pc: map<Tid, Pc>, held: map<Tid, set<nat>>, mutexes: map<nat, Mutex>,
                  queues: map<QueueId, seq<Tid>>, m: nat, mutex: Mutex, mine: set<nat>, p: Pc)
    requires Sync(current, pc, held, mutexes, queues)
    requires match pc[current]
             case LockTake(n) => n == m && p == LockOwn(m) && mutex == Mutex(true, MutexOf(mutexes, m).owner)
                 && mine == held[current]
             case LockOwn(n) => n == m && p == PreemptOn && mutex == Mutex(true, Some(current))
                 && mine == held[current] + {m}
             case UnlockState(n, k) => n == m && p == UnlockOwner(m, k)
                 && mutex == Mutex(false, MutexOf(mutexes, m).owner) && mine == held[current] - {m}
             case UnlockOwner(n, k) => n == m && p == UnlockTest(m, k) && mutex == Mutex(false, None)
                 && mine == held[current]
             case _ => false
    ensures Sync(current, pc[current := p], held[current := mine], mutexes[m := mutex], queues)
  {
    var pc', held', mutexes' := pc[current := p], held[current := mine], mutexes[m := mutex];
    assert MutexOk(pc[current], current, held, mutexes, m) && HeldOk(pc, held, mutexes, current);
    forall t ensures HeldOk(pc', held', mutexes', t) {
      assert HeldOk(pc, held, mutexes, t);
    }
    forall n ensures MutexOk(pc'[current], current, held', mutexes', n) {
      assert MutexOk(pc[current], current, held, mutexes, n);
    }
  }

  lemma SyncNewThread(current: Tid, pc: map<Tid, Pc>, held: map<Tid, set<nat>>, mutexes: map<nat, Mutex>,
                      queues: map<QueueId, seq<Tid>>, t: Tid, queues': map<QueueId, seq<Tid>>)
    requires Sync(current, pc, held, mutexes, queues) && t !in pc && pc[current] == User
    ensures Sync(current, pc[t := Start], held[t := {}], mutexes, queues')
  {
    var pc', held' := pc[t := Start], held[t := {}];
    forall u ensures HeldOk(pc', held', mutexes, u) {
      assert HeldOk(pc, held, mutexes, u);
    }
    forall m ensures MutexOk(pc'[current], current, held', mutexes, m) {
      assert MutexOk(pc[current], current, held, mutexes, m);
    }
  }

  // ----------------------------------------------------------------- lost wake-ups

  predicate Ready(sched: map<Tid, Sched>, t: Tid) {
    t in sched && (sched[t].place == OnCpu || sched[t].place == In(RunQ))
  }

  /** At p a thread is bound to test mutex m again before it next blocks, or to wake a waiter of m. */
  predicate Attends(p: Pc, m: nat) {
    || (p.ParkResume? && p.m == m) || p == ParkEnable(m) || p == LockTest(m) || p == LockTake(m)
    || (p.UnlockOwner? && p.m == m) || (p.UnlockTest? && p.m == m)
    || (p.UnlockDisable? && p.m == m) || (p.UnlockWake? && p.m == m)
  }

  predicate Rescuer(pc: map<Tid, Pc>, sched: map<Tid, Sched>, t: Tid, m: nat) {
    t in pc && Ready(sched, t) && Attends(pc[t], m)
  }

  /** A mutex is free although threads wait for it. */
  predicate Stalled(mutexes: map<nat, Mutex>, queues: map<QueueId, seq<Tid>>, m: nat) {
    !MutexOf(mutexes, m).locked && Q(queues, MutexQ(m)) != []
  }

  ghost predicate Attended(pc: map<Tid, Pc>, sched: map<Tid, Sched>, mutexes: map<nat, Mutex>,
                           queues: map<QueueId, seq<Tid>>, m: nat) {
    Stalled(mutexes, queues, m) ==> exists t :: Rescuer(pc, sched, t, m)
  }

  /** No wake-up is lost: a free mutex with waiters always has somebody ready who attends to it. */
  ghost predicate NoLostWakeup(pc: map<Tid, Pc>, sched: map<Tid, Sched>, mutexes: map<nat, Mutex>,
                               queues: map<QueueId, seq<Tid>>) {
    forall m {:trigger Attended(pc, sched, mutexes, queues, m)} :: Attended(pc, sched, mutexes, queues, m)
  }

  /** Every ready thread but x stays ready. */
  ghost predicate StayReady(sched: map<Tid, Sched>, sched': map<Tid, Sched>, x: Tid) {
    forall t {:trigger Ready(sched', t)} :: t != x && Ready(sched, t) ==> Ready(sched', t)
  }

  /** The mutexes stalled after a step by x, which has moved on to p, were stalled before it or are
      attended to by x; and if x attended to one, it still does, or w does instead. */
  lemma NoLostWakeupStep(pc: map<Tid, Pc>, sched: map<Tid, Sched>, mutexes: map<nat, Mutex>,
                         queues: map<QueueId, seq<Tid>>,
                         x: Tid, p: Pc, sched': map<Tid, Sched>, mutexes': map<nat, Mutex>,
                         queues': map<QueueId, seq<Tid>>, w: Tid)
    requires NoLostWakeup(pc, sched, mutexes, queues) && x in pc && StayReady(sched, sched', x)
    requires forall m {:trigger Stalled(mutexes', queues', m)} :: Stalled(mutexes', queues', m) ==>
               || (Ready(sched', x) && Attends(p, m))
               || Rescuer(pc[x := p], sched', w, m)
               || (Stalled(mutexes, queues, m) && !Attends(pc[x], m))
    ensures NoLostWakeup(pc[x := p], sched', mutexes', queues')
  {
    var pc' := pc[x := p];
    forall m ensures Attended(pc', sched', mutexes', queues', m) {
      if Stalled(mutexes', queues', m) {
        if Ready(sched', x) && Attends(p, m) {
          assert Rescuer(pc', sched', x, m);
        } else if !Rescuer(pc', sched', w, m) {
          assert Attended(pc, sched, mutexes, queues, m);
          var t :| Rescuer(pc, sched, t, m);
          assert Rescuer(pc', sched', t, m);
        }
      }
    }
  }
}
