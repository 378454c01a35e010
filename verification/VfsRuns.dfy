/** Every interleaving of lookups and releases (vfs.c): no KASSERT fails, and reference counts mean what
    vfs.c says they mean. */
module VfsRuns {
  import opened Common
  import opened Runs
  import opened VfsTree
  import opened Vfs
  import opened VfsInvariant

  lemma WalkKeeps(s: State, c: CallId)
    requires Inv(s) && c in s.calls && s.calls[c].Walk?
    ensures StepOf(s, c, Nothing(0)).Ok? && Inv(StepOf(s, c, Nothing(0)).s)
  {
    assert CallOk(s, c);
    var at, path, p := s.calls[c].at, s.calls[c].path, s.calls[c].p;
    if p == |path| {
      CountsAllow(s, at);
      assert Weight(s.tree, s.calls, at, c) == 1;
    }
    PlainMove(s, c, StepOf(s, c, Nothing(0)).s.calls[c], s.mutex);
  }

  lemma ChildKeeps(s: State, c: CallId)
    requires Inv(s) && c in s.calls && s.calls[c].Child?
    ensures StepOf(s, c, Nothing(0)).Ok? && Inv(StepOf(s, c, Nothing(0)).s)
  {
    assert CallOk(s, c) && HolderOk(s, s.calls[c].at) && NodeOk(s.tree, s.calls[c].at);
    var s' := StepOf(s, c, Nothing(0)).s;
    PlainMove(s, c, s'.calls[c], s'.mutex);
  }

  /** Statements that only lock or unlock s_fs_mutex, or note that the driver found nothing. */
  lemma PlainKeeps(s: State, c: CallId, answer: Answer)
    requires Inv(s) && Allowed(s, Step(c, answer))
    requires WantsMutex(s.calls[c]) || s.calls[c].Leave? || (s.calls[c].Driver? && answer.Nothing?)
    ensures StepOf(s, c, answer).Ok? && Inv(StepOf(s, c, answer).s)
  {
    assert CallOk(s, c);
    var s' := StepOf(s, c, answer).s;
    PlainMove(s, c, s'.calls[c], s'.mutex);
  }

  lemma ReleaseKeeps(s: State, c: CallId, answer: Answer)
    requires Inv(s) && c in s.calls && s.calls[c].ReleaseHeld?
    ensures StepOf(s, c, answer).Ok? && Inv(StepOf(s, c, answer).s)
  {
    assert CallOk(s, c);
    var at := s.calls[c].at;
    CountsAllow(s, at);
    assert Weight(s.tree, s.calls, at, c) == 1;
    AdjustKeeps(s, c, at, -1, Leave(None, 0));
  }

  lemma StepKeeps(s: State, c: CallId, answer: Answer)
    requires Inv(s) && Allowed(s, Step(c, answer))
    ensures StepOf(s, c, answer).Ok? && Inv(StepOf(s, c, answer).s)
  {
    assert CallOk(s, c);
    match s.calls[c]
    case AddRef(dir, path) => AdjustKeeps(s, c, dir, 1, Walk(dir, path, 0));
    case Walk(at, path, p) => WalkKeeps(s, c);
    case LockDir(at, path, p, name) => LockKeeps(s, c, at, path, p, name);
    case Child(at, path, p, name) => ChildKeeps(s, c);
    case Driver(at, path, p, name) =>
      if answer.Nothing? {
        PlainKeeps(s, c, answer);
      } else if answer.NewChild? {
        NewChildKeeps(s, c, answer.ino, answer.name, answer.isDir);
      } else {
        OldChildKeeps(s, c, answer.ino);
      }
    case UnlockDir(at, path, p, found, rc) => UnlockKeeps(s, c);
    case Descend(at, path, p, found, rc) => DescendKeeps(s, c);
    case Drop(at, rc) => AdjustKeeps(s, c, at, -1, Leave(None, rc));
    case ReleaseHeld(at) => ReleaseKeeps(s, c, answer);
    case _ => PlainKeeps(s, c, answer);
  }

  /** A lookup begins at a directory somebody has a reference to. */
  lemma LookupKeeps(s: State, c: CallId, start: Ino, path: string)
    requires Inv(s) && Allowed(s, Lookup(c, start, path))
    ensures Next(s, Lookup(c, start, path)).Ok? && Inv(Next(s, Lookup(c, start, path)).s)
  {
    var d :| d in s.calls && s.calls[d] == Held(start);
    assert CallOk(s, d) && CallOk(s, c);
    CountsAllow(s, start);
    assert Weight(s.tree, s.calls, start, d) == 1;
    var s' := Next(s, Lookup(c, start, path)).s;
    PlainMove(s, c, s'.calls[c], s.mutex);
  }

  /** Whatever happens next, no KASSERT fails and the invariant is kept. */
  lemma NextKeeps(s: State, e: Event)
    requires Inv(s) && Allowed(s, e)
    ensures Next(s, e).Ok? && Inv(Next(s, e).s)
  {
    match e
    case Lookup(c, start, path) => LookupKeeps(s, c, start, path);
    case Put(c) =>
      assert CallOk(s, c);
      PlainMove(s, c, Release(s.calls[c].at), s.mutex);
    case Step(c, answer) => StepKeeps(s, c, answer);
  }

  // -------------------------------------------------------------------------- runs

  ghost predicate IsStep(s: State, e: Event, s': State) {
    Allowed(s, e) && Next(s, e) == Ok(s')
  }

  ghost predicate Follow(states: seq<State>, events: seq<Event>) {
    Chain(IsStep, states, events)
  }

  /** A state some interleaving of calls leads to. */
  ghost predicate Reachable(s: State) {
    Reaches(IsStep, Initial, s)
  }

  lemma FollowKeeps(states: seq<State>, events: seq<Event>, i: nat)
    requires Follow(states, events) && Inv(states[0]) && i < |states|
    ensures Inv(states[i])
  {
    forall s: State, e: Event, s': State | Inv(s) && IsStep(s, e, s') ensures Inv(s') {
      NextKeeps(s, e);
    }
    ChainInvariant(IsStep, states, events, Inv, i);
  }

  lemma ReachableInv(s: State)
    requires Reachable(s)
    ensures Inv(s)
  {
    forall s0: State | Initial(s0) ensures Inv(s0) {
      InitialInv(s0);
    }
    forall s0: State, e: Event, s1: State | Inv(s0) && IsStep(s0, e, s1) ensures Inv(s1) {
      NextKeeps(s0, e);
    }
    ReachesInvariant(IsStep, Initial, Inv, s);
  }

  /** In no interleaving does a KASSERT of vfs.c fail: not those of the reference counts, nor those of
      s_fs_mutex and of busy directories, nor those of the path. */
  lemma NoPanic(s: State, e: Event)
    requires Reachable(s) && Allowed(s, e)
    ensures Next(s, e).Ok? && Reachable(Next(s, e).s)
  {
    ReachableInv(s);
    NextKeeps(s, e);
    ReachesOn(IsStep, Initial, s, e, Next(s, e).s);
  }

  // ---------------------------------------------------------------- what the counts mean

  /** The reference count of an inode is the number of references, given out or used by a lookup in
      progress, to it or to an inode below it; so it is positive exactly if there is one. */
  lemma RefcountRule(s: State, n: Ino, k: nat)
    requires Reachable(s) && n in s.tree && Bounded(s.calls, k)
    ensures s.tree[n].refcount == Count(s.tree, s.calls, n, k)
    ensures s.tree[n].refcount > 0 <==>
              exists c :: c in s.calls && RefAt(s.calls[c]).Some? && Under(s.tree, RefAt(s.calls[c]).value, n)
  {
    ReachableInv(s);
    CountsAllow(s, n);
    if s.tree[n].refcount > 0 {
      var c :| Weight(s.tree, s.calls, n, c) == 1;
    }
    if c :| c in s.calls && RefAt(s.calls[c]).Some? && Under(s.tree, RefAt(s.calls[c]).value, n) {
      assert Weight(s.tree, s.calls, n, c) == 1;
    }
  }

  function RefOf(s: State, c: CallId): Option<Ino> {
    if c in s.calls then RefAt(s.calls[c]) else None
  }

  lemma {:induction false} SameRefsSameCount(s: State, s': State, n: Ino, k: nat)
    requires TreeOk(s.tree) && RefsInTree(s.tree, s.calls) && Grows(s.tree, s'.tree)
    requires forall c :: RefOf(s', c) == RefOf(s, c)
    ensures Count(s'.tree, s'.calls, n, k) == Count(s.tree, s.calls, n, k)
  {
    if k > 0 {
      SameRefsSameCount(s, s', n, k - 1);
      var c := k - 1;
      assert RefOf(s', c) == RefOf(s, c);
      if RefOf(s, c).Some? {
        assert RefAt(s.calls[c]).value in s.tree;
        UnderShape(s.tree, s'.tree, RefOf(s, c).value, n);
      }
    }
  }

  lemma DriverGrows(s: State, c: CallId, at: Ino, path: string, p: nat, answer: Answer)
    requires TreeOk(s.tree) && at in s.tree && DriverStep(s, c, at, path, p, answer).Ok?
    requires answer.NewChild? ==> answer.ino !in s.tree && at < answer.ino
    ensures Grows(s.tree, DriverStep(s, c, at, path, p, answer).s.tree)
  {
  }

  lemma NextGrows(s: State, e: Event, s': State)
    requires Inv(s) && IsStep(s, e, s')
    ensures Grows(s.tree, s'.tree)
  {
    if e.Step? {
      assert CallOk(s, e.c);
      var p := s.calls[e.c];
      if p.AddRef? {
        AdjustSucceeds(s, e.c, p.dir, 1);
        AdjustShape(s.tree, p.dir, 1);
      } else if p.Drop? || p.ReleaseHeld? {
        AdjustSucceeds(s, e.c, p.at, -1);
        AdjustShape(s.tree, p.at, -1);
      } else if p.Driver? {
        DriverGrows(s, e.c, p.at, p.path, p.p, e.answer);
      }
    }
  }

  lemma {:induction false} RunGrows(states: seq<State>, events: seq<Event>, i: nat)
    requires Follow(states, events) && Inv(states[0]) && i < |states|
    ensures Grows(states[0].tree, states[i].tree)
  {
    if i > 0 {
      RunGrows(states, events, i - 1);
      FollowKeeps(states, events, i - 1);
      ChainAt(IsStep, states, events, i - 1);
      NextGrows(states[i - 1], events[i - 1], states[i]);
      var t0, t1, t2 := states[0].tree, states[i - 1].tree, states[i].tree;
      forall n | n in t0 ensures n in t2 && t2[n].parent == t0[n].parent && t2[n].isDir == t0[n].isDir {
        assert n in t1;
      }
    }
  }

  /** Over any stretch of a run at whose end the same references are out as at its start, every count
      comes back to what it was; so a lookup that fails, and a lookup whose reference is released, are
      net zero, whatever else goes on meanwhile. New inodes are left with count 0. */
  lemma NetZero(states: seq<State>, events: seq<Event>, n: Ino)
    requires Follow(states, events) && Reachable(states[0])
    requires forall c :: RefOf(states[|events|], c) == RefOf(states[0], c)
    ensures n in states[0].tree ==>
             n in states[|events|].tree && states[|events|].tree[n].refcount == states[0].tree[n].refcount
    ensures n in states[|events|].tree && n !in states[0].tree ==> states[|events|].tree[n].refcount == 0
  {
    var s, s' := states[0], states[|events|];
    ReachableInv(s);
    FollowKeeps(states, events, |events|);
    RunGrows(states, events, |events|);
    var k := SomeBound(s.calls.Keys + s'.calls.Keys);
    assert Bounded(s.calls, k) && Bounded(s'.calls, k);
    SameRefsSameCount(s, s', n, k);
    if n in s.tree {
      assert s.tree[n].refcount == Count(s.tree, s.calls, n, k);
    } else {
      NobodyBelow(s.tree, s.tree, s.calls, n, k);
    }
    if n in s'.tree {
      assert s'.tree[n].refcount == Count(s'.tree, s'.calls, n, k);
    }
  }

  // ---------------------------------------------------------------------- busy directories

  /** At most one call works on a directory, also while s_fs_mutex is released; it is marked busy. */
  lemma OneAtATime(s: State, c: CallId, d: CallId)
    requires Reachable(s) && c in s.calls && d in s.calls
    requires BusyAt(s.calls[c]).Some? && BusyAt(s.calls[d]) == BusyAt(s.calls[c])
    ensures c == d && BusyAt(s.calls[c]).value in s.tree && s.tree[BusyAt(s.calls[c]).value].busy
  {
    ReachableInv(s);
    assert CallOk(s, c) && CallOk(s, d) && HolderOk(s, BusyAt(s.calls[c]).value);
  }

  /** At most one call is at a statement that needs s_fs_mutex, and it holds it. */
  lemma MutexExclusive(s: State, c: CallId, d: CallId)
    requires Reachable(s) && c in s.calls && d in s.calls && HoldsMutex(s.calls[c]) && HoldsMutex(s.calls[d])
    ensures c == d && s.mutex == Some(c)
  {
    ReachableInv(s);
    assert CallOk(s, c) && CallOk(s, d);
  }

  /** Nobody sleeps unnoticed: while a call waits for a directory some other call works on it, and will
      broadcast when done. */
  lemma SleeperAttended(s: State, c: CallId)
    requires Reachable(s) && c in s.calls && s.calls[c].Sleep?
    ensures exists d :: d in s.calls && d != c && BusyAt(s.calls[d]) == Some(s.calls[c].at)
  {
    ReachableInv(s);
    assert CallOk(s, c) && HolderOk(s, s.calls[c].at);
    var d := s.holder[s.calls[c].at];
    assert d in s.calls && BusyAt(s.calls[d]) == Some(s.calls[c].at);
  }

  /** The call searches a child list without end. */
  predicate Spins(s: State, c: CallId) {
    c in s.calls && s.calls[c].Child? && s.calls[c].at in s.tree && !SearchEnds(s.tree[s.calls[c].at], s.calls[c].name)
  }

  /** A step of a call gets it on, unless it goes round a list without end. */
  lemma StepsOn(s: State, c: CallId, answer: Answer)
    requires Inv(s) && Allowed(s, Step(c, answer))
    ensures Next(s, Step(c, answer)) == Ok(s) <==> Spins(s, c)
  {
    StepKeeps(s, c, answer);
    assert CallOk(s, c);
    var p := s.calls[c];
    if StepOf(s, c, answer) == Ok(s) {
      assert StepOf(s, c, answer).s.calls[c] == p;
    }
  }

  /** Which call can take a step while call c is under way. */
  lemma SomeCallAllowed(s: State, c: CallId) returns (d: CallId)
    requires Reachable(s) && Inv(s) && c in s.calls && !s.calls[c].Held? && !s.calls[c].Done?
    ensures Allowed(s, Step(d, Nothing(1)))
  {
    assert CallOk(s, c);
    if s.mutex.Some? {
      d := s.mutex.value;
      assert CallOk(s, d);
    } else if s.calls[c].Sleep? {
      SleeperAttended(s, c);
      d :| d in s.calls && d != c && BusyAt(s.calls[d]) == Some(s.calls[c].at);
    } else {
      d := c;
    }
  }

  /** No deadlock: as long as a call is under way, some call can take a step, which gets it on unless it
      goes round a list without end. */
  lemma SomeCallProceeds(s: State, c: CallId)
    requires Reachable(s) && c in s.calls && !s.calls[c].Held? && !s.calls[c].Done?
    ensures exists d :: Allowed(s, Step(d, Nothing(1))) && (Next(s, Step(d, Nothing(1))) != Ok(s) || Spins(s, d))
  {
    assert Inv(s) by { ReachableInv(s); }
    var d := SomeCallAllowed(s, c);
    StepsOn(s, d, Nothing(1));
  }

  /** The children listed in a directory have it as their parent; so has the child a lookup goes on in,
      though it need not have the name asked for. */
  lemma ChildrenBelow(s: State, n: Ino, child: Ino)
    requires Reachable(s) && n in s.tree && child in s.tree[n].children
    ensures child in s.tree && s.tree[child].parent == Some(n) && Under(s.tree, child, n)
  {
    ReachableInv(s);
    assert NodeOk(s.tree, n) && NodeOk(s.tree, child);
  }
}
