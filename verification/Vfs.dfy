/** Path lookup: any number of calls walk the tree of inodes at once, locking directories and counting
    references as they go, and let go of s_fs_mutex while the file system driver works (vfs.c). One
    statement of one call is a step; what is done with s_fs_mutex held on reference counts only is
    one step. A failed KASSERT is the outcome Panic. */
module Vfs {
  import opened Common
  import opened PathTokenizer
  import opened VfsTree

  type CallId = nat

  /** Where a call of vfs_lookup_inode or vfs_release_ref is: the statement it executes next. at is
      the inode it has a reference to, p the position in the path, name the element looked up, found
      the child, unless rc says why there is none. */
  datatype Phase =
    | Start(dir: Ino, path: string)
    | AddRef(dir: Ino, path: string)
    | Walk(at: Ino, path: string, p: nat)
    | LockDir(at: Ino, path: string, p: nat, name: string)
    | Sleep(at: Ino, path: string, p: nat, name: string)
    | Awake(at: Ino, path: string, p: nat, name: string)
    | Child(at: Ino, path: string, p: nat, name: string)
    | Driver(at: Ino, path: string, p: nat, name: string)
    | Relock(at: Ino, path: string, p: nat, found: Option<Ino>, rc: int)
    | UnlockDir(at: Ino, path: string, p: nat, found: Option<Ino>, rc: int)
    | Descend(at: Ino, path: string, p: nat, found: Option<Ino>, rc: int)
    | Drop(at: Ino, rc: int)
    | Leave(result: Option<Ino>, rc: int)
    | Held(at: Ino)
    | Release(at: Ino)
    | ReleaseHeld(at: Ino)
    | Done(rc: int)

  /** A call that has returned a reference stays Held until that is released. mutex is the call that
      holds s_fs_mutex; holder, for the proofs, the call that made a directory busy. */
  datatype State = State(tree: Tree, calls: map<CallId, Phase>, mutex: Option<CallId>, holder: map<Ino, CallId>)

  datatype Outcome = Ok(s: State) | Panic

  /** The file system driver finds nothing, or makes a new inode below the directory asked, or answers with
      one that it has made before. */
  datatype Answer = Nothing(rc: int) | NewChild(ino: Ino, name: string, isDir: bool) | OldChild(ino: Ino)

  datatype Event =
    | Lookup(c: CallId, start: Ino, path: string)
    | Put(c: CallId)
    | Step(c: CallId, answer: Answer)

  /** The inode a call has a reference to, if any. */
  function RefAt(p: Phase): Option<Ino> {
    match p
    case Start(_, _) => None
    case AddRef(_, _) => None
    case Done(_) => None
    case Leave(result, _) => result
    case _ => Some(p.at)
  }

  /** The directory a call has made busy, if any. */
  function BusyAt(p: Phase): Option<Ino> {
    if p.Child? || p.Driver? || p.Relock? || p.UnlockDir? then Some(p.at) else None
  }

  predicate HoldsMutex(p: Phase) {
    p.AddRef? || p.Walk? || p.LockDir? || p.Child? || p.UnlockDir? || p.Descend? || p.Drop? || p.Leave?
        || p.ReleaseHeld?
  }

  /** Statements that lock s_fs_mutex. */
  predicate WantsMutex(p: Phase) {
    p.Start? || p.Awake? || p.Relock? || p.Release?
  }

  function Goto(s: State, c: CallId, p: Phase): State {
    s.(calls := s.calls[c := p])
  }

  function SetInode(s: State, i: Ino, node: Inode): State {
    s.(tree := s.tree[i := node])
  }

  function Adjusted(s: State, c: CallId, n: Ino, delta: int, p: Phase): Outcome {
    if s.mutex != Some(c) then Panic
    else
      match Adjust(s.tree, n, delta)
      case None => Panic
      case Some(tree) => Ok(Goto(s.(tree := tree), c, p))
  }

  /** One element of the path. */
  function WalkStep(s: State, c: CallId, at: Ino, path: string, p: nat): Outcome {
    if at !in s.tree || p > |path| then Panic
    else if p == |path| then
      if s.tree[at].refcount > 0 then Ok(Goto(s, c, Leave(Some(at), 0))) else Panic
    else if path[p] == '/' then Panic
    else
      var e := End(path, p);
      if e - p > VFS_NAMELEN_MAX then Ok(Goto(s, c, Drop(at, EINVAL)))
      else if !s.tree[at].isDir then Ok(Goto(s, c, Drop(at, ENOTDIR)))
      else Ok(Goto(s, c, LockDir(at, path, Skip(path, e), path[p..e])))
  }

  /** vfs_lock_dir: waiting releases s_fs_mutex. */
  function LockStep(s: State, c: CallId, at: Ino, path: string, p: nat, name: string): Outcome {
    if s.mutex != Some(c) || at !in s.tree then Panic
    else if s.tree[at].busy then Ok(Goto(s.(mutex := None), c, Sleep(at, path, p, name)))
    else Ok(Goto(SetInode(s, at, s.tree[at].(busy := true)), c, Child(at, path, p, name)).(holder := s.holder[at := c]))
  }

  /** vfs_lookup_child up to the call of the driver; a search that does not end goes on where it is. */
  function ChildStep(s: State, c: CallId, at: Ino, path: string, p: nat, name: string): Outcome {
    if s.mutex != Some(c) || at !in s.tree || !s.tree[at].isDir || !s.tree[at].busy then Panic
    else
      match ChildInMemory(s.tree[at], name)
      case Some(child) => Ok(Goto(s, c, UnlockDir(at, path, p, Some(child), 0)))
      case None =>
        if !SearchEnds(s.tree[at], name) then Ok(s)
        else Ok(Goto(s.(mutex := None), c, Driver(at, path, p, name)))
  }

  /** The driver's answer; an inode goes to the end of the directory's child list, even if it is there. */
  function DriverStep(s: State, c: CallId, at: Ino, path: string, p: nat, answer: Answer): Outcome {
    if at !in s.tree then Panic
    else
      match answer
      case Nothing(rc) => Ok(Goto(s, c, Relock(at, path, p, None, rc)))
      case NewChild(ino, name, isDir) =>
        var s1 := SetInode(s, ino, Inode(Some(at), isDir, name, [], 0, false, false));
        Ok(Goto(SetInode(s1, at, Listed(s.tree[at], ino)), c, Relock(at, path, p, Some(ino), 0)))
      case OldChild(ino) =>
        Ok(Goto(SetInode(s, at, Listed(s.tree[at], ino)), c, Relock(at, path, p, Some(ino), 0)))
  }

  /** cond_broadcast */
  function Awakened(p: Phase, at: Ino): Phase {
    if p.Sleep? && p.at == at then Awake(p.at, p.path, p.p, p.name) else p
  }

  function WakeSleepers(calls: map<CallId, Phase>, at: Ino): map<CallId, Phase> {
    map c | c in calls :: Awakened(calls[c], at)
  }

  /** vfs_unlock_dir */
  function UnlockStep(s: State, c: CallId, at: Ino, path: string, p: nat, found: Option<Ino>, rc: int): Outcome {
    if s.mutex != Some(c) || at !in s.tree || !s.tree[at].busy then Panic
    else
      var s1 := SetInode(s, at, s.tree[at].(busy := false));
      Ok(Goto(s1.(calls := WakeSleepers(s.calls, at)), c, Descend(at, path, p, found, rc)).(holder := s.holder - {at}))
  }

  function DescendStep(s: State, c: CallId, at: Ino, path: string, p: nat, found: Option<Ino>, rc: int): Outcome {
    if rc != 0 then Ok(Goto(s, c, Drop(at, rc)))
    else if found.None? || found.value !in s.tree then Panic
    else
      var child := s.tree[found.value];
      Ok(Goto(SetInode(s, found.value, child.(refcount := child.refcount + 1)), c, Walk(found.value, path, p)))
  }

  function Unlocked(s: State): State {
    s.(mutex := None)
  }

  function StepOf(s: State, c: CallId, answer: Answer): Outcome
    requires c in s.calls
  {
    match s.calls[c]
    case Start(dir, path) => Ok(Goto(s.(mutex := Some(c)), c, AddRef(dir, path)))
    case AddRef(dir, path) => Adjusted(s, c, dir, 1, Walk(dir, path, 0))
    case Walk(at, path, p) => WalkStep(s, c, at, path, p)
    case LockDir(at, path, p, name) => LockStep(s, c, at, path, p, name)
    case Awake(at, path, p, name) => Ok(Goto(s.(mutex := Some(c)), c, LockDir(at, path, p, name)))
    case Child(at, path, p, name) => ChildStep(s, c, at, path, p, name)
    case Driver(at, path, p, _) => DriverStep(s, c, at, path, p, answer)
    case Relock(at, path, p, found, rc) => Ok(Goto(s.(mutex := Some(c)), c, UnlockDir(at, path, p, found, rc)))
    case UnlockDir(at, path, p, found, rc) => UnlockStep(s, c, at, path, p, found, rc)
    case Descend(at, path, p, found, rc) => DescendStep(s, c, at, path, p, found, rc)
    case Drop(at, rc) => Adjusted(s, c, at, -1, Leave(None, rc))
    case Leave(result, rc) => Ok(Goto(Unlocked(s), c, if result.Some? then Held(result.value) else Done(rc)))
    case Release(at) => Ok(Goto(s.(mutex := Some(c)), c, ReleaseHeld(at)))
    case ReleaseHeld(at) =>
      if at !in s.tree || s.tree[at].refcount <= 0 then Panic else Adjusted(s, c, at, -1, Leave(None, 0))
    case _ => Panic
  }

  function Next(s: State, e: Event): Outcome {
    match e
    case Lookup(c, start, path) =>
      if (path != "" && path[0] == '/') || start !in s.tree || s.tree[start].refcount <= 0 then Panic
      else if |path| > VFS_PATHLEN_MAX then Ok(Goto(s, c, Done(EINVAL)))
      else Ok(Goto(s, c, Start(start, path)))
    case Put(c) => if c in s.calls && s.calls[c].Held? then Ok(Goto(s, c, Release(s.calls[c].at))) else Panic
    case Step(c, answer) => if c in s.calls then StepOf(s, c, answer) else Panic
  }

  /** A lookup starts from a directory somebody has a reference to, with a relative path; a reference
      is released once, by whoever it was returned to; a call waits for s_fs_mutex, and asleep, for a
      broadcast; the driver answers with an inode of the directory asked. */
  ghost predicate Allowed(s: State, e: Event) {
    match e
    case Lookup(c, start, path) =>
      c !in s.calls && (path == "" || path[0] != '/') && exists d :: d in s.calls && s.calls[d] == Held(start)
    case Put(c) => c in s.calls && s.calls[c].Held?
    case Step(c, answer) =>
      && c in s.calls && !s.calls[c].Held? && !s.calls[c].Done? && !s.calls[c].Sleep?
      && (WantsMutex(s.calls[c]) ==> s.mutex == None)
      && (s.calls[c].Driver? ==>
            match answer
            case Nothing(rc) => rc != 0
            case NewChild(ino, _, _) => ino !in s.tree && s.calls[c].at < ino
            case OldChild(ino) => ino in s.tree && s.tree[ino].parent == Some(s.calls[c].at))
  }

  /** One reference to the root directory has been given out. */
  predicate Initial(s: State) {
    && s.tree == map[0 := Inode(None, true, "", [], 1, false, false)]
    && s.calls == map[0 := Held(0)] && s.mutex == None && s.holder == map[]
  }

  // ------------------------------------------------------------------- counting references

  function Weight(tree: Tree, calls: map<CallId, Phase>, n: Ino, c: CallId): nat {
    if c in calls && RefAt(calls[c]).Some? && Under(tree, RefAt(calls[c]).value, n) then 1 else 0
  }

  /** How many calls below k have a reference to n or to an inode below it. */
  function Count(tree: Tree, calls: map<CallId, Phase>, n: Ino, k: nat): nat {
    if k == 0 then 0 else Count(tree, calls, n, k - 1) + Weight(tree, calls, n, k - 1)
  }

  ghost predicate Bounded(calls: map<CallId, Phase>, k: nat) {
    forall c :: c in calls ==> c < k
  }

  /** The rule of vfs.c: the count of an inode is the number of references to it or below it. */
  ghost predicate Counted(tree: Tree, calls: map<CallId, Phase>) {
    forall n, k {:trigger Count(tree, calls, n, k)} ::
      n in tree && Bounded(calls, k) ==> tree[n].refcount == Count(tree, calls, n, k)
  }

  lemma {:induction false} CountChange(tree: Tree, calls: map<CallId, Phase>, tree': Tree, calls': map<CallId, Phase>,
                                       n: Ino, r: CallId, k: nat)
    requires forall c :: c != r ==> Weight(tree', calls', n, c) == Weight(tree, calls, n, c)
    ensures Count(tree', calls', n, k) + (if r < k then Weight(tree, calls, n, r) else 0)
         == Count(tree, calls, n, k) + (if r < k then Weight(tree', calls', n, r) else 0)
  {
    if k > 0 {
      CountChange(tree, calls, tree', calls', n, r, k - 1);
    }
  }

  /** A count is positive exactly if somebody has a reference there or below. */
  lemma {:induction false} CountPositive(tree: Tree, calls: map<CallId, Phase>, n: Ino, k: nat)
    ensures Count(tree, calls, n, k) > 0 <==> exists c: nat :: c < k && Weight(tree, calls, n, c) == 1
  {
    if k > 0 {
      CountPositive(tree, calls, n, k - 1);
      if Weight(tree, calls, n, k - 1) == 1 {
      } else if c: nat :| c < k && Weight(tree, calls, n, c) == 1 {
        assert c < k - 1;
      }
    }
  }

  /** All references but r's stay where they are. */
  ghost predicate OthersStay(calls: map<CallId, Phase>, calls': map<CallId, Phase>, r: CallId) {
    forall c {:trigger c in calls'} :: c != r ==>
      (c in calls' <==> c in calls) && (c in calls ==> RefAt(calls'[c]) == RefAt(calls[c]))
  }

  ghost predicate SameShape(tree: Tree, tree': Tree) {
    forall i {:trigger i in tree'} :: i in tree ==> i in tree' && tree'[i].parent == tree[i].parent
  }

  ghost predicate RefsInTree(tree: Tree, calls: map<CallId, Phase>) {
    forall c {:trigger RefAt(calls[c])} :: c in calls && RefAt(calls[c]).Some? ==> RefAt(calls[c]).value in tree
  }

  lemma WeightStays(tree: Tree, calls: map<CallId, Phase>, tree': Tree, calls': map<CallId, Phase>, n: Ino,
                    r: CallId, c: CallId)
    requires TreeOk(tree) && SameShape(tree, tree') && OthersStay(calls, calls', r) && RefsInTree(tree, calls) && c != r
    ensures Weight(tree', calls', n, c) == Weight(tree, calls, n, c)
  {
    assert c in calls' <==> c in calls;
    if c in calls && RefAt(calls[c]).Some? {
      assert RefAt(calls'[c]) == RefAt(calls[c]);
      UnderShape(tree, tree', RefAt(calls[c]).value, n);
    }
  }

  /** The reference of call r moves, and the counts with it. */
  lemma CountedMoves(tree: Tree, calls: map<CallId, Phase>, tree': Tree, calls': map<CallId, Phase>, r: CallId)
    requires TreeOk(tree) && SameShape(tree, tree') && OthersStay(calls, calls', r) && RefsInTree(tree, calls)
    requires Counted(tree, calls) && tree'.Keys == tree.Keys && r in calls'
    requires forall n {:trigger Weight(tree', calls', n, r)} :: n in tree ==>
               tree'[n].refcount + Weight(tree, calls, n, r) == tree[n].refcount + Weight(tree', calls', n, r)
    ensures Counted(tree', calls')
  {
    forall n: Ino, k: nat | n in tree' && Bounded(calls', k) ensures tree'[n].refcount == Count(tree', calls', n, k) {
      forall c | c != r ensures Weight(tree', calls', n, c) == Weight(tree, calls, n, c) {
        WeightStays(tree, calls, tree', calls', n, r, c);
      }
      CountChange(tree, calls, tree', calls', n, r, k);
      assert Bounded(calls, k) by {
        forall c | c in calls ensures c < k {
          assert c != r ==> c in calls';
        }
      }
    }
  }

  /** No reference moves and no count changes. */
  lemma CountedStays(tree: Tree, calls: map<CallId, Phase>, tree': Tree, calls': map<CallId, Phase>, r: CallId)
    requires TreeOk(tree) && SameShape(tree, tree') && OthersStay(calls, calls', r) && RefsInTree(tree, calls)
    requires Counted(tree, calls) && tree'.Keys == tree.Keys && r in calls' && r in calls
    requires RefAt(calls'[r]) == RefAt(calls[r])
    requires forall n :: n in tree ==> tree'[n].refcount == tree[n].refcount
    ensures Counted(tree', calls')
  {
    forall n | n in tree ensures Weight(tree', calls', n, r) == Weight(tree, calls, n, r) {
      if RefAt(calls[r]).Some? {
        UnderShape(tree, tree', RefAt(calls[r]).value, n);
      }
    }
    CountedMoves(tree, calls, tree', calls', r);
  }
}
