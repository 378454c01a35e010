/** What every step of every interleaving of lookups and releases keeps (vfs.c). */
module VfsInvariant {
  import opened Common
  import opened VfsTree
  import opened Vfs

  predicate AtName(path: string, p: nat) {
    p <= |path| && (p < |path| ==> path[p] != '/')
  }

  /** What a call has established about the path, the directory and the child. */
  predicate PhaseOk(p: Phase, tree: Tree) {
    match p
    case Start(dir, path) => dir in tree && AtName(path, 0)
    case AddRef(dir, path) => dir in tree && AtName(path, 0)
    case Walk(at, path, i) => at in tree && AtName(path, i)
    case LockDir(at, path, i, _) => at in tree && tree[at].isDir && AtName(path, i)
    case Sleep(at, path, i, _) => at in tree && tree[at].isDir && AtName(path, i)
    case Awake(at, path, i, _) => at in tree && tree[at].isDir && AtName(path, i)
    case Child(at, path, i, _) => at in tree && tree[at].isDir && AtName(path, i)
    case Driver(at, path, i, _) => at in tree && tree[at].isDir && AtName(path, i)
    case Relock(at, path, i, found, rc) => at in tree && AtName(path, i) && (rc == 0 ==> ChildOf(tree, at, found))
    case UnlockDir(at, path, i, found, rc) => at in tree && AtName(path, i) && (rc == 0 ==> ChildOf(tree, at, found))
    case Descend(at, path, i, found, rc) => at in tree && AtName(path, i) && (rc == 0 ==> ChildOf(tree, at, found))
    case Leave(result, _) => result.Some? ==> result.value in tree
    case Done(_) => true
    case _ => p.at in tree
  }

  predicate ChildOf(tree: Tree, at: Ino, found: Option<Ino>) {
    found.Some? && found.value in tree && tree[found.value].parent == Some(at)
  }

  /** The call holds s_fs_mutex exactly at the statements that need it, and its directory is busy on
      its behalf; a sleeper's directory is busy. */
  ghost predicate CallOk(s: State, c: CallId) {
    c in s.calls ==>
      var p := s.calls[c];
      && PhaseOk(p, s.tree)
      && (HoldsMutex(p) <==> s.mutex == Some(c))
      && (BusyAt(p).Some? ==> BusyAt(p).value in s.holder && s.holder[BusyAt(p).value] == c)
      && (p.Sleep? ==> p.at in s.holder)
  }

  /** A directory is busy exactly while one call works on it. */
  ghost predicate HolderOk(s: State, n: Ino) {
    && (n in s.tree ==> (s.tree[n].busy <==> n in s.holder))
    && (n in s.holder ==> n in s.tree && s.holder[n] in s.calls && BusyAt(s.calls[s.holder[n]]) == Some(n))
  }

  ghost predicate Local(s: State) {
    && (s.mutex.Some? ==> s.mutex.value in s.calls)
    && (forall c {:trigger CallOk(s, c)} :: CallOk(s, c))
    && (forall n {:trigger HolderOk(s, n)} :: HolderOk(s, n))
  }

  ghost predicate Inv(s: State) {
    TreeOk(s.tree) && Local(s) && RefsInTree(s.tree, s.calls) && Counted(s.tree, s.calls)
  }

  lemma InitialInv(s: State)
    requires Initial(s)
    ensures Inv(s)
  {
    forall i ensures NodeOk(s.tree, i) {}
    forall c ensures CallOk(s, c) {}
    forall n ensures HolderOk(s, n) {}
    forall n: Ino, k: nat | n in s.tree && Bounded(s.calls, k)
        ensures s.tree[n].refcount == Count(s.tree, s.calls, n, k) {
      OneReference(s.tree, s.calls, k);
      assert 0 in s.calls && k > 0;
    }
  }

  lemma {:induction false} OneReference(tree: Tree, calls: map<CallId, Phase>, k: nat)
    requires calls == map[0 := Held(0)]
    ensures Count(tree, calls, 0, k) == if k > 0 then 1 else 0
  {
    if k > 0 {
      OneReference(tree, calls, k - 1);
    }
  }

  /** Call c moves on to p; tree, mutex and holder change as said. */
  function Moved(s: State, c: CallId, p: Phase, tree: Tree, mutex: Option<CallId>, holder: map<Ino, CallId>): State {
    State(tree, s.calls[c := p], mutex, holder)
  }

  /** The tree keeps what other calls rely on. */
  ghost predicate Grows(tree: Tree, tree': Tree) {
    forall i {:trigger i in tree} :: i in tree ==>
        i in tree' && tree'[i].parent == tree[i].parent && tree'[i].isDir == tree[i].isDir
  }

  ghost predicate SameBusy(tree: Tree, tree': Tree) {
    forall i {:trigger i in tree'} :: i in tree' ==> tree'[i].busy == (i in tree && tree[i].busy)
  }

  lemma PhaseStays(p: Phase, tree: Tree, tree': Tree)
    requires PhaseOk(p, tree) && Grows(tree, tree')
    ensures PhaseOk(p, tree')
  {
  }

  /** A step of c that leaves it as busy as it was. */
  lemma LocalMoves(s: State, c: CallId, p: Phase, tree: Tree, mutex: Option<CallId>)
    requires Local(s) && Grows(s.tree, tree) && SameBusy(s.tree, tree)
    requires c in s.calls ==> BusyAt(p) == BusyAt(s.calls[c])
    requires c !in s.calls ==> BusyAt(p).None?
    requires PhaseOk(p, tree) && (p.Sleep? ==> p.at in s.holder)
    requires mutex == s.mutex || (mutex == Some(c) && s.mutex == None) || (mutex == None && s.mutex == Some(c))
    requires HoldsMutex(p) <==> mutex == Some(c)
    ensures Local(Moved(s, c, p, tree, mutex, s.holder))
  {
    var s' := Moved(s, c, p, tree, mutex, s.holder);
    forall d ensures CallOk(s', d) {
      assert CallOk(s, d);
      if d in s.calls && d != c {
        PhaseStays(s.calls[d], s.tree, tree);
      }
    }
    forall n ensures HolderOk(s', n) {
      assert HolderOk(s, n);
    }
  }

  lemma RefsMoved(s: State, c: CallId, p: Phase, tree: Tree)
    requires RefsInTree(s.tree, s.calls) && Grows(s.tree, tree) && PhaseOk(p, tree)
    ensures RefsInTree(tree, s.calls[c := p]) && OthersStay(s.calls, s.calls[c := p], c)
  {
    var calls' := s.calls[c := p];
    forall d | d in calls' && RefAt(calls'[d]).Some? ensures RefAt(calls'[d]).value in tree {
      assert d != c ==> RefAt(s.calls[d]).Some? && RefAt(s.calls[d]).value in s.tree;
    }
  }

  /** A step that changes neither the tree nor a reference. */
  lemma PlainMove(s: State, c: CallId, p: Phase, mutex: Option<CallId>)
    requires Inv(s) && PhaseOk(p, s.tree) && (p.Sleep? ==> p.at in s.holder)
    requires c in s.calls ==> BusyAt(p) == BusyAt(s.calls[c]) && RefAt(p) == RefAt(s.calls[c])
    requires c !in s.calls ==> BusyAt(p).None? && RefAt(p).None?
    requires mutex == s.mutex || (mutex == Some(c) && s.mutex == None) || (mutex == None && s.mutex == Some(c))
    requires HoldsMutex(p) <==> mutex == Some(c)
    ensures Inv(Moved(s, c, p, s.tree, mutex, s.holder))
  {
    LocalMoves(s, c, p, s.tree, mutex);
    RefsMoved(s, c, p, s.tree);
    CountedMoves(s.tree, s.calls, s.tree, s.calls[c := p], c);
  }

  // ------------------------------------------------------------------ adjusting counts

  lemma {:induction false} SomeBound(calls: set<CallId>) returns (k: nat)
    ensures forall c :: c in calls ==> c < k
  {
    if calls == {} {
      k := 0;
    } else {
      var c :| c in calls;
      k := SomeBound(calls - {c});
      assert forall d :: d in calls ==> d == c || d in calls - {c};
      if k <= c {
        k := c + 1;
      }
    }
  }

  /** Counts are never negative, and positive wherever somebody has a reference at or below. */
  lemma CountsAllow(s: State, n: Ino)
    requires Counted(s.tree, s.calls) && n in s.tree
    ensures s.tree[n].refcount >= 0
    ensures s.tree[n].refcount > 0 <==> exists c :: Weight(s.tree, s.calls, n, c) == 1
  {
    var k := SomeBound(s.calls.Keys);
    assert Bounded(s.calls, k);
    CountPositive(s.tree, s.calls, n, k);
    assert s.tree[n].refcount == Count(s.tree, s.calls, n, k);
    if c :| Weight(s.tree, s.calls, n, c) == 1 {
      assert c in s.calls && c < k;
    }
  }

  /** The KASSERTs of vfs_adjust_refcounts hold: a reference is there when it is taken away. */
  lemma AdjustSucceeds(s: State, c: CallId, n: Ino, delta: int)
    requires Inv(s) && n in s.tree && (delta == 1 || delta == -1)
    requires delta == -1 ==> c in s.calls && RefAt(s.calls[c]) == Some(n)
    ensures Adjust(s.tree, n, delta).Some?
  {
    AdjustMeans(s.tree, n, delta);
    forall i | Under(s.tree, n, i)
      ensures i in s.tree && s.tree[i].refcount >= 0 && (delta > 0 || s.tree[i].refcount > 0)
    {
      UnderInTree(s.tree, n, i);
      CountsAllow(s, i);
      if delta == -1 {
        assert Weight(s.tree, s.calls, i, c) == 1;
      }
    }
  }

  lemma {:induction false} UnderInTree(tree: Tree, i: Ino, n: Ino)
    requires TreeOk(tree) && i in tree && Under(tree, i, n)
    ensures n in tree
    decreases i
  {
    assert NodeOk(tree, i);
    if i != n {
      UnderInTree(tree, tree[i].parent.value, n);
    }
  }

  lemma AdjustShape(tree: Tree, n: Ino, delta: int)
    requires TreeOk(tree) && n in tree && Adjust(tree, n, delta).Some?
    ensures var tree' := Adjust(tree, n, delta).value;
            TreeOk(tree') && Grows(tree, tree') && SameBusy(tree, tree') && tree'.Keys == tree.Keys
  {
    AdjustMeans(tree, n, delta);
    var tree' := Adjust(tree, n, delta).value;
    forall i ensures NodeOk(tree', i) {
      assert NodeOk(tree, i);
    }
  }

  /** c's reference is added at n, or taken away. */
  lemma AdjustCounted(s: State, c: CallId, n: Ino, delta: int, p: Phase)
    requires Inv(s) && n in s.tree && Adjust(s.tree, n, delta).Some? && c in s.calls
    requires || (delta == 1 && RefAt(s.calls[c]).None? && RefAt(p) == Some(n))
             || (delta == -1 && RefAt(s.calls[c]) == Some(n) && RefAt(p).None?)
    requires PhaseOk(p, Adjust(s.tree, n, delta).value)
    ensures var tree := Adjust(s.tree, n, delta).value;
            RefsInTree(tree, s.calls[c := p]) && Counted(tree, s.calls[c := p])
  {
    var tree, calls := Adjust(s.tree, n, delta).value, s.calls[c := p];
    AdjustShape(s.tree, n, delta);
    AdjustMeans(s.tree, n, delta);
    RefsMoved(s, c, p, tree);
    forall i | i in s.tree
      ensures tree[i].refcount + Weight(s.tree, s.calls, i, c) == s.tree[i].refcount + Weight(tree, calls, i, c)
    {
      assert tree[i] == Bump(s.tree, n, delta, i);
      UnderShape(s.tree, tree, n, i);
    }
    CountedMoves(s.tree, s.calls, tree, calls, c);
  }

  lemma AdjustKeeps(s: State, c: CallId, n: Ino, delta: int, p: Phase)
    requires Inv(s) && n in s.tree && c in s.calls && s.mutex == Some(c) && HoldsMutex(p)
    requires || (delta == 1 && RefAt(s.calls[c]).None? && RefAt(p) == Some(n))
             || (delta == -1 && RefAt(s.calls[c]) == Some(n) && RefAt(p).None?)
    requires PhaseOk(p, s.tree) && BusyAt(p).None? && BusyAt(s.calls[c]).None? && !p.Sleep?
    ensures Adjusted(s, c, n, delta, p).Ok? && Inv(Adjusted(s, c, n, delta, p).s)
  {
    AdjustSucceeds(s, c, n, delta);
    AdjustShape(s.tree, n, delta);
    var tree := Adjust(s.tree, n, delta).value;
    PhaseStays(p, s.tree, tree);
    AdjustCounted(s, c, n, delta, p);
    LocalMoves(s, c, p, tree, s.mutex);
  }

  // ------------------------------------------------------------ statements about directories

  /** Call c makes directory at busy. */
  lemma LockKeeps(s: State, c: CallId, at: Ino, path: string, i: nat, name: string)
    requires Inv(s) && c in s.calls && s.calls[c] == LockDir(at, path, i, name)
    ensures LockStep(s, c, at, path, i, name).Ok? && Inv(LockStep(s, c, at, path, i, name).s)
  {
    assert CallOk(s, c) && HolderOk(s, at);
    if s.tree[at].busy {
      PlainMove(s, c, Sleep(at, path, i, name), None);
    } else {
      var tree, p := s.tree[at := s.tree[at].(busy := true)], Child(at, path, i, name);
      TreeOkUpdate(s.tree, at, s.tree[at].(busy := true));
      RefsMoved(s, c, p, tree);
      CountedStays(s.tree, s.calls, tree, s.calls[c := p], c);
      BusyLocal(s, c, at, p);
    }
  }

  lemma BusyLocal(s: State, c: CallId, at: Ino, p: Phase)
    requires Local(s) && c in s.calls && s.calls[c].LockDir? && s.calls[c].at == at && at in s.tree && !s.tree[at].busy
    requires p.Child? && p.at == at && PhaseOk(p, s.tree)
    ensures Local(Moved(s, c, p, s.tree[at := s.tree[at].(busy := true)], s.mutex, s.holder[at := c]))
  {
    var tree := s.tree[at := s.tree[at].(busy := true)];
    var s' := Moved(s, c, p, tree, s.mutex, s.holder[at := c]);
    assert CallOk(s, c) && HolderOk(s, at);
    forall d ensures CallOk(s', d) {
      assert CallOk(s, d);
      if d in s.calls && d != c {
        PhaseStays(s.calls[d], s.tree, tree);
      }
    }
    forall n ensures HolderOk(s', n) {
      assert HolderOk(s, n);
    }
  }

  /** Call c is done with directory at, and wakes whoever waits for it. */
  lemma UnlockKeeps(s: State, c: CallId)
    requires Inv(s) && c in s.calls && s.calls[c].UnlockDir?
    ensures StepOf(s, c, Nothing(0)).Ok? && Inv(StepOf(s, c, Nothing(0)).s)
  {
    var at := s.calls[c].at;
    assert CallOk(s, c) && HolderOk(s, at);
    var s' := StepOf(s, c, Nothing(0)).s;
    TreeOkUpdate(s.tree, at, s.tree[at].(busy := false));
    UnlockRefs(s, c);
    CountedStays(s.tree, s.calls, s'.tree, s'.calls, c);
    UnlockLocal(s, c);
  }

  lemma UnlockRefs(s: State, c: CallId)
    requires Inv(s) && c in s.calls && s.calls[c].UnlockDir? && StepOf(s, c, Nothing(0)).Ok?
    ensures var s' := StepOf(s, c, Nothing(0)).s;
            RefsInTree(s'.tree, s'.calls) && OthersStay(s.calls, s'.calls, c)
  {
    var s' := StepOf(s, c, Nothing(0)).s;
    forall d | d in s'.calls && RefAt(s'.calls[d]).Some? ensures RefAt(s'.calls[d]).value in s'.tree {
      assert RefAt(s.calls[d]).Some? && RefAt(s.calls[d]).value in s.tree;
    }
  }

  lemma UnlockLocal(s: State, c: CallId)
    requires Inv(s) && c in s.calls && s.calls[c].UnlockDir? && StepOf(s, c, Nothing(0)).Ok?
    ensures Local(StepOf(s, c, Nothing(0)).s)
  {
    var s', at := StepOf(s, c, Nothing(0)).s, s.calls[c].at;
    assert CallOk(s, c) && HolderOk(s, at);
    forall d ensures CallOk(s', d) {
      assert CallOk(s, d);
      if d in s.calls {
        PhaseStays(s.calls[d], s.tree, s'.tree);
      }
    }
    forall n ensures HolderOk(s', n) {
      assert HolderOk(s, n);
    }
  }

  // --------------------------------------------------------------------------- the driver

  lemma NewChildTree(tree: Tree, at: Ino, ino: Ino, name: string, isDir: bool)
    requires TreeOk(tree) && at in tree && ino !in tree && at < ino
    ensures var tree' := tree[ino := Inode(Some(at), isDir, name, [], 0, false, false)][at := Listed(tree[at], ino)];
            TreeOk(tree') && Grows(tree, tree') && SameBusy(tree, tree')
  {
    var tree' := tree[ino := Inode(Some(at), isDir, name, [], 0, false, false)][at := Listed(tree[at], ino)];
    forall i ensures NodeOk(tree', i) {
      assert NodeOk(tree, i);
    }
  }

  /** Nobody is below an inode that did not exist. */
  lemma {:induction false} NobodyBelow(tree: Tree, tree': Tree, calls: map<CallId, Phase>, ino: Ino, k: nat)
    requires TreeOk(tree) && Grows(tree, tree') && RefsInTree(tree, calls) && ino !in tree
    ensures Count(tree', calls, ino, k) == 0
  {
    if k > 0 {
      NobodyBelow(tree, tree', calls, ino, k - 1);
      if k - 1 in calls && RefAt(calls[k - 1]).Some? {
        var i := RefAt(calls[k - 1]).value;
        UnderShape(tree, tree', i, ino);
        if Under(tree, i, ino) {
          UnderInTree(tree, i, ino);
        }
      }
    }
  }

  lemma NewChildCounted(s: State, c: CallId, p: Phase, tree': Tree, ino: Ino)
    requires Inv(s) && c in s.calls && RefAt(p) == RefAt(s.calls[c]) && ino !in s.tree
    requires Grows(s.tree, tree') && tree'.Keys == s.tree.Keys + {ino} && tree'[ino].refcount == 0
    requires forall i :: i in s.tree ==> tree'[i].refcount == s.tree[i].refcount
    ensures Counted(tree', s.calls[c := p])
  {
    var calls' := s.calls[c := p];
    forall n: Ino, k: nat | n in tree' && Bounded(calls', k) ensures tree'[n].refcount == Count(tree', calls', n, k) {
      forall d: nat ensures Weight(tree', calls', n, d) == Weight(tree', s.calls, n, d) {}
      CountChange(tree', s.calls, tree', calls', n, c, k);
      if n == ino {
        NobodyBelow(s.tree, tree', s.calls, ino, k);
      } else {
        assert Bounded(s.calls, k) by {
          forall d | d in s.calls ensures d < k { assert d in calls'; }
        }
        forall d: nat ensures Weight(tree', s.calls, n, d) == Weight(s.tree, s.calls, n, d) {
          WeightStays(s.tree, s.calls, tree', s.calls, n, d + 1, d);
        }
        CountChange(s.tree, s.calls, tree', s.calls, n, c, k);
      }
    }
  }

  lemma NewChildKeeps(s: State, c: CallId, ino: Ino, name: string, isDir: bool)
    requires Inv(s) && c in s.calls && s.calls[c].Driver? && ino !in s.tree && s.calls[c].at < ino
    ensures var o := StepOf(s, c, NewChild(ino, name, isDir)); o.Ok? && Inv(o.s)
  {
    assert CallOk(s, c);
    var at := s.calls[c].at;
    var s' := StepOf(s, c, NewChild(ino, name, isDir)).s;
    var p := s'.calls[c];
    NewChildTree(s.tree, at, ino, name, isDir);
    NewChildCounted(s, c, p, s'.tree, ino);
    RefsMoved(s, c, p, s'.tree);
    LocalMoves(s, c, p, s'.tree, s.mutex);
  }

  lemma ListedTree(tree: Tree, at: Ino, ino: Ino)
    requires TreeOk(tree) && at in tree && ino in tree && tree[ino].parent == Some(at)
    ensures var tree' := tree[at := Listed(tree[at], ino)];
            TreeOk(tree') && Grows(tree, tree') && SameBusy(tree, tree')
  {
    var tree' := tree[at := Listed(tree[at], ino)];
    forall i ensures NodeOk(tree', i) {
      assert NodeOk(tree, i);
    }
  }

  /** An inode the driver has made before is listed again, and nothing is counted differently. */
  lemma OldChildKeeps(s: State, c: CallId, ino: Ino)
    requires Inv(s) && c in s.calls && s.calls[c].Driver?
    requires ino in s.tree && s.tree[ino].parent == Some(s.calls[c].at)
    ensures var o := StepOf(s, c, OldChild(ino)); o.Ok? && Inv(o.s)
  {
    assert CallOk(s, c);
    var s' := StepOf(s, c, OldChild(ino)).s;
    var p := s'.calls[c];
    ListedTree(s.tree, s.calls[c].at, ino);
    RefsMoved(s, c, p, s'.tree);
    CountedStays(s.tree, s.calls, s'.tree, s'.calls, c);
    LocalMoves(s, c, p, s'.tree, s.mutex);
  }

  // ------------------------------------------------------------------------- descending

  lemma DescendCounted(s: State, c: CallId)
    requires Inv(s) && c in s.calls && s.calls[c].Descend? && s.calls[c].rc == 0
    ensures StepOf(s, c, Nothing(0)).Ok?
    ensures var s' := StepOf(s, c, Nothing(0)).s; RefsInTree(s'.tree, s'.calls) && Counted(s'.tree, s'.calls)
  {
    assert CallOk(s, c);
    var at, child := s.calls[c].at, s.calls[c].found.value;
    var s' := StepOf(s, c, Nothing(0)).s;
    assert NodeOk(s.tree, child);
    RefsMoved(s, c, s'.calls[c], s'.tree);
    forall n | n in s.tree
      ensures s'.tree[n].refcount + Weight(s.tree, s.calls, n, c) ==
               s.tree[n].refcount + Weight(s'.tree, s'.calls, n, c)
    {
      UnderUp(s.tree, child, s'.tree[child], n);
      UnderUp(s.tree, child, s'.tree[child], child);
      UnderShape(s.tree, s'.tree, child, n);
    }
    CountedMoves(s.tree, s.calls, s'.tree, s'.calls, c);
  }

  lemma DescendKeeps(s: State, c: CallId)
    requires Inv(s) && c in s.calls && s.calls[c].Descend?
    ensures StepOf(s, c, Nothing(0)).Ok? && Inv(StepOf(s, c, Nothing(0)).s)
  {
    assert CallOk(s, c);
    if s.calls[c].rc != 0 {
      PlainMove(s, c, Drop(s.calls[c].at, s.calls[c].rc), s.mutex);
    } else {
      var child := s.calls[c].found.value;
      DescendCounted(s, c);
      var s' := StepOf(s, c, Nothing(0)).s;
      TreeOkUpdate(s.tree, child, s'.tree[child]);
      LocalMoves(s, c, s'.calls[c], s'.tree, s.mutex);
    }
  }
}
