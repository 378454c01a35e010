/** What a lookup does over a whole run, whatever else goes on meanwhile: which names it searches for in
    which directories, and what it returns (vfs.c). */
module VfsLookups {
  import opened Common
  import opened Runs
  import opened PathTokenizer
  import opened VfsTree
  import opened Vfs
  import opened VfsInvariant
  import opened VfsRuns

  /** One answer a lookup gets: the directory searched, the name searched for, and the inode found, in
      memory or by the driver, unless rc says why there is none. */
  datatype Search = Search(dir: Ino, name: string, found: Option<Ino>, rc: int)

  /** The answer call c gets in a step, if it gets one. */
  function Got(s: State, e: Event, s': State, c: CallId): seq<Search> {
    if !(e.Step? && e.c == c && c in s.calls && c in s'.calls) then []
    else
      var p := s.calls[c];
      if p.Child? && s'.calls[c].UnlockDir? && p.at in s.tree then
        [Search(p.at, p.name, ChildInMemory(s.tree[p.at], p.name), 0)]
      else if p.Driver? then
        [Search(p.at, p.name, if e.answer.Nothing? then None else Some(e.answer.ino),
                if e.answer.Nothing? then e.answer.rc else 0)]
      else []
  }

  /** All answers call c has got when the run is in states[i]. */
  function Searches(states: seq<State>, events: seq<Event>, c: CallId, i: nat): seq<Search>
    requires i < |states| == |events| + 1
  {
    if i == 0 then []
    else Searches(states, events, c, i - 1) + Got(states[i - 1], events[i - 1], states[i], c)
  }

  function NamesOf(t: seq<Search>): (r: seq<string>)
    ensures |r| == |t|
  {
    seq(|t|, i requires 0 <= i < |t| => t[i].name)
  }

  /** Where a lookup from start is after these answers. */
  function Reached(start: Ino, t: seq<Search>): Ino {
    if t != [] && t[|t| - 1].found.Some? then t[|t| - 1].found.value else start
  }

  /** Each search is of the inode the one before has found, and what it finds is a child of it. */
  predicate Trail(start: Ino, t: seq<Search>, tree: Tree) {
    && start in tree
    && forall k {:trigger t[k]} :: 0 <= k < |t| ==>
      && t[k].dir == (if k == 0 then start else Reached(start, t[..k]))
      && t[k].dir in tree && tree[t[k].dir].isDir && (t[k].found.Some? <==> t[k].rc == 0)
      && (t[k].found.Some? ==> ChildOf(tree, t[k].dir, t[k].found))
      && (k + 1 < |t| ==> t[k].found.Some?)
  }

  predicate AllFound(t: seq<Search>) {
    t == [] || t[|t| - 1].found.Some?
  }

  /** All names of the path have been searched for, in order, and found, and r is what the last was. */
  predicate Finds(path: string, start: Ino, t: seq<Search>, r: Ino) {
    |path| <= VFS_PATHLEN_MAX && NamesOf(t) == Names(path, 0) && Stop(path, 0) == |path| && AllFound(t)
    && r == Reached(start, t)
  }

  /** The path is too long; or all names up to one that is too long have been found; or all up to one that
      is not of a directory; or the last search has failed. */
  predicate Fails(path: string, start: Ino, t: seq<Search>, tree: Tree, rc: int) {
    || (rc == EINVAL && |path| > VFS_PATHLEN_MAX && t == [])
    || (|path| <= VFS_PATHLEN_MAX && rc == EINVAL && AllFound(t) && NamesOf(t) == Names(path, 0)
        && Stop(path, 0) < |path|)
    || (|path| <= VFS_PATHLEN_MAX && rc == ENOTDIR && AllFound(t) && NamesOf(t) < Names(path, 0)
        && Reached(start, t) in tree && !tree[Reached(start, t)].isDir)
    || (|path| <= VFS_PATHLEN_MAX && !AllFound(t) && NamesOf(t) <= Names(path, 0) && rc == t[|t| - 1].rc != 0)
  }

  /** The names of the path are those searched for, and those from p on. */
  predicate Remains(path: string, p: nat, names: seq<string>) {
    && |path| <= VFS_PATHLEN_MAX && p <= |path|
    && Names(path, 0) == names + Names(path, p) && Stop(path, 0) == Stop(path, p)
  }

  /** What the statement a lookup is at says about the answers it has got. */
  predicate OnTrack(path: string, start: Ino, t: seq<Search>, p: Phase, tree: Tree) {
    match p
    case Start(dir, path') => path' == path && |path| <= VFS_PATHLEN_MAX && dir == start && t == []
    case AddRef(dir, path') => path' == path && |path| <= VFS_PATHLEN_MAX && dir == start && t == []
    case Walk(at, path', i) => path' == path && AllFound(t) && at == Reached(start, t) && Remains(path, i, NamesOf(t))
    case LockDir(at, path', i, name) => Searching(path, start, t, at, path', i, name)
    case Sleep(at, path', i, name) => Searching(path, start, t, at, path', i, name)
    case Awake(at, path', i, name) => Searching(path, start, t, at, path', i, name)
    case Child(at, path', i, name) => Searching(path, start, t, at, path', i, name)
    case Driver(at, path', i, name) => Searching(path, start, t, at, path', i, name)
    case Relock(at, path', i, found, rc) => Searched(path, t, path', i, found, rc)
    case UnlockDir(at, path', i, found, rc) => Searched(path, t, path', i, found, rc)
    case Descend(at, path', i, found, rc) => Searched(path, t, path', i, found, rc)
    case Drop(at, rc) => rc != 0 && Fails(path, start, t, tree, rc)
    case Leave(result, rc) =>
      if rc != 0 then result.None? && Fails(path, start, t, tree, rc)
      else Finds(path, start, t, if result.Some? then result.value else Reached(start, t))
    case Held(at) => Finds(path, start, t, at)
    case Release(at) => Finds(path, start, t, at)
    case ReleaseHeld(at) => Finds(path, start, t, at)
    case Done(rc) => if rc != 0 then Fails(path, start, t, tree, rc) else Finds(path, start, t, Reached(start, t))
  }

  predicate Searching(path: string, start: Ino, t: seq<Search>, at: Ino, path': string, i: nat, name: string) {
    path' == path && AllFound(t) && at == Reached(start, t) && Remains(path, i, NamesOf(t) + [name])
  }

  predicate Searched(path: string, t: seq<Search>, path': string, i: nat, found: Option<Ino>, rc: int) {
    path' == path && t != [] && t[|t| - 1].rc == rc && t[|t| - 1].found == found && Remains(path, i, NamesOf(t))
  }

  lemma TrailGrows(start: Ino, t: seq<Search>, tree: Tree, tree': Tree)
    requires Trail(start, t, tree) && Grows(tree, tree')
    ensures Trail(start, t, tree')
  {
  }

  lemma TrailOn(start: Ino, t: seq<Search>, tree: Tree, x: Search)
    requires Trail(start, t, tree) && AllFound(t) && x.dir == Reached(start, t) && x.dir in tree && tree[x.dir].isDir
    requires (x.found.Some? <==> x.rc == 0) && (x.found.Some? ==> ChildOf(tree, x.dir, x.found))
    ensures Trail(start, t + [x], tree)
  {
    var t' := t + [x];
    forall k | 0 <= k < |t'|
      ensures t'[k].dir == (if k == 0 then start else Reached(start, t'[..k]))
      ensures t'[k].dir in tree && tree[t'[k].dir].isDir && (t'[k].found.Some? <==> t'[k].rc == 0)
      ensures t'[k].found.Some? ==> ChildOf(tree, t'[k].dir, t'[k].found)
      ensures k + 1 < |t'| ==> t'[k].found.Some?
    {
      assert t'[..k] == t[..k];
      if k < |t| {
        assert t'[k] == t[k];
      } else {
        assert t[..k] == t;
      }
    }
  }

  lemma NameRemains(path: string, p: nat, names: seq<string>)
    requires Remains(path, p, names) && p < |path| && path[p] != '/' && End(path, p) - p <= VFS_NAMELEN_MAX
    ensures var e := End(path, p); Remains(path, Skip(path, e), names + [path[p..e]]) && names < Names(path, 0)
  {
    var e := End(path, p);
    assert Names(path, p) == [path[p..e]] + Names(path, Skip(path, e));
    assert names + [path[p..e]] + Names(path, Skip(path, e)) == names + Names(path, p);
  }

  lemma NothingRemains(path: string, p: nat, names: seq<string>)
    requires Remains(path, p, names) && (p == |path| || End(path, p) - p > VFS_NAMELEN_MAX)
    ensures names == Names(path, 0) && Stop(path, 0) == p
  {
    assert Names(path, p) == [] && names + [] == names;
  }

  /** A turn of the walk takes the next name, or finds that there is none, that it is too long, or that it
      would not be looked up in a directory. */
  lemma WalkTurn(s: State, c: CallId, path: string, start: Ino, t: seq<Search>)
    requires Inv(s) && c in s.calls && s.calls[c].Walk? && Trail(start, t, s.tree)
    requires OnTrack(path, start, t, s.calls[c], s.tree) && StepOf(s, c, Nothing(0)).Ok?
    ensures var s' := StepOf(s, c, Nothing(0)).s;
            c in s'.calls && s'.tree == s.tree && OnTrack(path, start, t, s'.calls[c], s.tree)
  {
    var at, p := s.calls[c].at, s.calls[c].p;
    assert CallOk(s, c);
    if p < |path| && End(path, p) - p <= VFS_NAMELEN_MAX {
      NameRemains(path, p, NamesOf(t));
    } else {
      NothingRemains(path, p, NamesOf(t));
    }
  }

  lemma TrackGrows(path: string, start: Ino, t: seq<Search>, p: Phase, tree: Tree, tree': Tree)
    requires OnTrack(path, start, t, p, tree) && Grows(tree, tree')
    ensures OnTrack(path, start, t, p, tree')
  {
  }

  /** Another step than one of call c itself: c is where it was, or awakened, or asked to release. */
  lemma OtherPhase(s: State, e: Event, s': State, c: CallId)
    requires IsStep(s, e, s') && c in s.calls && !(e.Step? && e.c == c)
    ensures c in s'.calls
    ensures var p, p' := s.calls[c], s'.calls[c];
            || p' == p || (p.Sleep? && p' == Awake(p.at, p.path, p.p, p.name)) || (p.Held? && p' == Release(p.at))
  {
    if e.Step? && e.c in s.calls && s.calls[e.c].UnlockDir? {
      assert s'.calls[c] == Awakened(s.calls[c], s.calls[e.c].at);
    }
  }

  /** A step of another call, or of whoever was given the inode. */
  lemma OthersTurn(s: State, e: Event, s': State, c: CallId, path: string, start: Ino, t: seq<Search>)
    requires IsStep(s, e, s') && c in s.calls && !(e.Step? && e.c == c)
    requires OnTrack(path, start, t, s.calls[c], s.tree)
    ensures c in s'.calls && OnTrack(path, start, t, s'.calls[c], s.tree)
  {
    OtherPhase(s, e, s', c);
  }

  /** The search in memory. */
  lemma MemoryTurn(s: State, e: Event, s': State, c: CallId, path: string, start: Ino, t: seq<Search>)
    requires Inv(s) && IsStep(s, e, s') && c in s.calls && e.Step? && e.c == c && s.calls[c].Child?
    requires Trail(start, t, s.tree) && OnTrack(path, start, t, s.calls[c], s.tree)
    ensures c in s'.calls && s'.tree == s.tree && Trail(start, t + Got(s, e, s', c), s.tree)
    ensures OnTrack(path, start, t + Got(s, e, s', c), s'.calls[c], s.tree)
  {
    assert CallOk(s, c) && NodeOk(s.tree, s.calls[c].at);
    var got := Got(s, e, s', c);
    if got == [] {
      assert t + got == t;
    } else {
      TrailOn(start, t, s.tree, got[0]);
      assert NamesOf(t + got) == NamesOf(t) + [s.calls[c].name];
    }
  }

  /** The driver finds nothing, or a child of the directory asked. */
  lemma DriverGets(s: State, e: Event, s': State, c: CallId)
    requires Inv(s) && IsStep(s, e, s') && c in s.calls && e.Step? && e.c == c && s.calls[c].Driver?
    ensures c in s'.calls && |Got(s, e, s', c)| == 1
    ensures var p, x := s.calls[c], Got(s, e, s', c)[0];
            && x.dir == p.at && x.name == p.name && p.at in s'.tree && s'.tree[p.at].isDir
            && (x.found.Some? <==> x.rc == 0) && (x.found.Some? ==> ChildOf(s'.tree, p.at, x.found))
            && s'.calls[c] == Relock(p.at, p.path, p.p, x.found, x.rc)
  {
    assert CallOk(s, c);
  }

  /** The answer of the driver. */
  lemma DriverTurn(s: State, e: Event, s': State, c: CallId, path: string, start: Ino, t: seq<Search>)
    requires Inv(s) && IsStep(s, e, s') && c in s.calls && e.Step? && e.c == c && s.calls[c].Driver?
    requires Trail(start, t, s.tree) && OnTrack(path, start, t, s.calls[c], s.tree) && Grows(s.tree, s'.tree)
    ensures c in s'.calls && Trail(start, t + Got(s, e, s', c), s'.tree)
    ensures OnTrack(path, start, t + Got(s, e, s', c), s'.calls[c], s'.tree)
  {
    DriverGets(s, e, s', c);
    TrailGrows(start, t, s.tree, s'.tree);
    var got := Got(s, e, s', c);
    TrailOn(start, t, s'.tree, got[0]);
    assert NamesOf(t + got) == NamesOf(t) + [s.calls[c].name];
  }

  /** The directory is unlocked, and the walk goes on in the child, if one was found. */
  lemma DescendTurn(s: State, e: Event, s': State, c: CallId, path: string, start: Ino, t: seq<Search>)
    requires Inv(s) && IsStep(s, e, s') && c in s.calls && e.Step? && e.c == c
    requires s.calls[c].Relock? || s.calls[c].UnlockDir? || s.calls[c].Descend?
    requires Trail(start, t, s.tree) && OnTrack(path, start, t, s.calls[c], s.tree)
    ensures c in s'.calls && OnTrack(path, start, t, s'.calls[c], s.tree)
  {
    assert CallOk(s, c) && t[|t| - 1] == t[|t| - 1];
  }

  lemma OwnTurn(s: State, e: Event, s': State, c: CallId, path: string, start: Ino, t: seq<Search>)
    requires Inv(s) && IsStep(s, e, s') && c in s.calls && e.Step? && e.c == c
    requires !s.calls[c].Child? && !s.calls[c].Driver?
    requires Trail(start, t, s.tree) && OnTrack(path, start, t, s.calls[c], s.tree)
    ensures c in s'.calls && OnTrack(path, start, t, s'.calls[c], s.tree)
  {
    var p := s.calls[c];
    if p.Walk? {
      WalkTurn(s, c, path, start, t);
    } else if p.Relock? || p.UnlockDir? || p.Descend? {
      DescendTurn(s, e, s', c, path, start, t);
    } else if p.AddRef? {
      assert NamesOf(t) == [] && NamesOf(t) + Names(path, 0) == Names(path, 0);
    }
  }

  lemma TrackStep(s: State, e: Event, s': State, c: CallId, path: string, start: Ino, t: seq<Search>)
    requires Inv(s) && IsStep(s, e, s') && c in s.calls
    requires Trail(start, t, s.tree) && OnTrack(path, start, t, s.calls[c], s.tree)
    ensures c in s'.calls && Trail(start, t + Got(s, e, s', c), s'.tree)
    ensures OnTrack(path, start, t + Got(s, e, s', c), s'.calls[c], s'.tree)
  {
    if e.Step? && e.c == c && s.calls[c].Child? {
      MemoryTurn(s, e, s', c, path, start, t);
    } else if e.Step? && e.c == c && s.calls[c].Driver? {
      NextGrows(s, e, s');
      DriverTurn(s, e, s', c, path, start, t);
    } else {
      if e.Step? && e.c == c {
        OwnTurn(s, e, s', c, path, start, t);
      } else {
        OthersTurn(s, e, s', c, path, start, t);
      }
      NextGrows(s, e, s');
      assert t + Got(s, e, s', c) == t;
      TrailGrows(start, t, s.tree, s'.tree);
      TrackGrows(path, start, t, s'.calls[c], s.tree, s'.tree);
    }
  }

  ghost predicate Tracks(s: State, c: CallId, path: string, start: Ino, t: seq<Search>) {
    Inv(s) && c in s.calls && Trail(start, t, s.tree) && OnTrack(path, start, t, s.calls[c], s.tree)
  }

  lemma LookupBegins(s: State, s': State, c: CallId, start: Ino, path: string)
    requires Inv(s) && IsStep(s, Lookup(c, start, path), s')
    ensures Tracks(s', c, path, start, [])
  {
    NextKeeps(s, Lookup(c, start, path));
  }

  lemma TracksOn(s: State, e: Event, s': State, c: CallId, path: string, start: Ino, t: seq<Search>)
    requires Tracks(s, c, path, start, t) && IsStep(s, e, s')
    ensures Tracks(s', c, path, start, t + Got(s, e, s', c))
  {
    NextKeeps(s, e);
    TrackStep(s, e, s', c, path, start, t);
  }

  lemma TracksFirst(states: seq<State>, events: seq<Event>, c: CallId, start: Ino, path: string)
    requires Follow(states, events) && Inv(states[0]) && events != [] && events[0] == Lookup(c, start, path)
    ensures Tracks(states[1], c, path, start, Searches(states, events, c, 1))
  {
    ChainAt(IsStep, states, events, 0);
    LookupBegins(states[0], states[1], c, start, path);
    assert Searches(states, events, c, 1) == [];
  }

  lemma TracksNext(states: seq<State>, events: seq<Event>, c: CallId, start: Ino, path: string, i: nat)
    requires Follow(states, events) && 1 <= i < |states|
    requires Tracks(states[i - 1], c, path, start, Searches(states, events, c, i - 1))
    ensures Tracks(states[i], c, path, start, Searches(states, events, c, i))
  {
    ChainAt(IsStep, states, events, i - 1);
    TracksOn(states[i - 1], events[i - 1], states[i], c, path, start, Searches(states, events, c, i - 1));
  }

  lemma {:induction false} LookupTracked(states: seq<State>, events: seq<Event>, c: CallId, start: Ino, path: string,
                                         i: nat)
    requires Follow(states, events) && Inv(states[0]) && events != [] && events[0] == Lookup(c, start, path)
    requires 1 <= i < |states|
    ensures Tracks(states[i], c, path, start, Searches(states, events, c, i))
  {
    if i == 1 {
      TracksFirst(states, events, c, start, path);
    } else {
      LookupTracked(states, events, c, start, path, i - 1);
      TracksNext(states, events, c, start, path, i);
    }
  }

  lemma LookupTracks(states: seq<State>, events: seq<Event>, c: CallId, start: Ino, path: string, i: nat)
    requires Follow(states, events) && Reachable(states[0]) && events != [] && events[0] == Lookup(c, start, path)
    requires 1 <= i < |states|
    ensures Tracks(states[i], c, path, start, Searches(states, events, c, i))
  {
    assert Inv(states[0]) by { ReachableInv(states[0]); }
    LookupTracked(states, events, c, start, path, i);
  }

  lemma DoneMeans(s: State, c: CallId, path: string, start: Ino, t: seq<Search>)
    requires Tracks(s, c, path, start, t) && s.calls[c].Done?
    ensures Trail(start, t, s.tree)
    ensures if s.calls[c].rc == 0 then Finds(path, start, t, Reached(start, t))
            else Fails(path, start, t, s.tree, s.calls[c].rc)
  {
  }

  /** Going to the parent k times leads from i to n. */
  predicate Above(tree: Tree, i: Ino, n: Ino, k: nat)
    decreases k
  {
    if k == 0 then i == n else i in tree && tree[i].parent.Some? && Above(tree, tree[i].parent.value, n, k - 1)
  }

  /** What has been reached is one level below the start for each name found. */
  lemma {:induction false} ReachedBelow(start: Ino, t: seq<Search>, tree: Tree)
    requires Trail(start, t, tree) && AllFound(t)
    ensures Above(tree, Reached(start, t), start, |t|)
  {
    if t != [] {
      var n := |t| - 1;
      var t' := t[..n];
      assert t[n] == t[n];
      forall k | 0 <= k < n
        ensures t'[k] == t[k] && t'[..k] == t[..k]
      {
      }
      assert n > 0 ==> t[n - 1].found.Some?;
      ReachedBelow(start, t', tree);
      assert t[n].dir == Reached(start, t');
    }
  }

  /** A lookup that returns an inode has searched for the names of the path and for nothing else, in order,
      each in the directory found before; the inode is what the last search found, or the start if there
      are no names, and so as many levels below the start as the path has names. */
  lemma LookupFinds(states: seq<State>, events: seq<Event>, c: CallId, start: Ino, path: string, i: nat)
    requires Follow(states, events) && Reachable(states[0]) && events != [] && events[0] == Lookup(c, start, path)
    requires 1 <= i < |states| && c in states[i].calls && states[i].calls[c].Held?
    ensures var t := Searches(states, events, c, i);
            && NamesOf(t) == Names(path, 0) && Stop(path, 0) == |path| <= VFS_PATHLEN_MAX
            && Trail(start, t, states[i].tree) && AllFound(t) && states[i].calls[c].at == Reached(start, t)
            && Above(states[i].tree, states[i].calls[c].at, start, |Names(path, 0)|)
  {
    var s, t := states[i], Searches(states, events, c, i);
    LookupTracks(states, events, c, start, path, i);
    ReachedBelow(start, t, s.tree);
  }

  /** A lookup that returns an error, and a lookup whose inode has been released, which returns 0: the error
      is EINVAL for a path or a name that is too long, after the names before it have been found; ENOTDIR
      where a name remains but what has been found is no directory; or that of the search that failed. */
  lemma LookupFails(states: seq<State>, events: seq<Event>, c: CallId, start: Ino, path: string, i: nat)
    requires Follow(states, events) && Reachable(states[0]) && events != [] && events[0] == Lookup(c, start, path)
    requires 1 <= i < |states| && c in states[i].calls && states[i].calls[c].Done?
    ensures var t, rc := Searches(states, events, c, i), states[i].calls[c].rc;
            && Trail(start, t, states[i].tree)
            && if rc == 0 then Finds(path, start, t, Reached(start, t)) else Fails(path, start, t, states[i].tree, rc)
  {
    LookupTracks(states, events, c, start, path, i);
    DoneMeans(states[i], c, path, start, Searches(states, events, c, i));
  }

  /** What a lookup returns is settled by the answers it has got. */
  lemma OneOutcome(path: string, start: Ino, t: seq<Search>, tree: Tree, r: Ino, rc: int, rc': int)
    ensures Fails(path, start, t, tree, rc) && Fails(path, start, t, tree, rc') ==> rc == rc'
    ensures Finds(path, start, t, r) ==> !Fails(path, start, t, tree, rc)
  {
  }

  /** The driver is asked if and only if there is no child in memory or the directory does not bear the name
      searched for, and the search ends. */
  lemma DriverAskedExactly(s: State, e: Event, s': State, c: CallId)
    requires Inv(s) && IsStep(s, e, s') && e.Step? && e.c == c && s.calls[c].Child?
    ensures s.calls[c].at in s.tree && c in s'.calls
    ensures var dir, name := s.tree[s.calls[c].at], s.calls[c].name;
            && (s'.calls[c].UnlockDir? <==> dir.children != [] && SameName(name, dir.name))
            && (s'.calls[c].Driver? <==> if SameName(name, dir.name) then dir.children == [] else !dir.looped)
  {
    assert CallOk(s, c);
  }

  /** What the driver answers with stands last in the directory's list, and what it has made bears the name
      and is of the kind it says; other inodes stay as they are. */
  lemma AnswerListed(s: State, e: Event, s': State, c: CallId)
    requires Inv(s) && IsStep(s, e, s') && e.Step? && e.c == c && s.calls[c].Driver? && !e.answer.Nothing?
    ensures var at, ino := s.calls[c].at, e.answer.ino;
            && at in s'.tree && s'.tree[at].children != [] && ino in s'.tree
            && s'.tree[at].children[|s'.tree[at].children| - 1] == ino
            && (e.answer.NewChild? ==>
                 && s'.tree[at].children[..|s'.tree[at].children| - 1] == s.tree[at].children
                 && s'.tree[ino].name == e.answer.name && s'.tree[ino].isDir == e.answer.isDir
                 && s'.tree[ino].children == [] && s'.tree[ino].refcount == 0)
            && forall i :: i in s.tree && i != at ==> i in s'.tree && s'.tree[i] == s.tree[i]
  {
    assert CallOk(s, c) && NodeOk(s.tree, s.calls[c].at);
  }

  /** In vfs_release_ref, or after it. */
  predicate Releasing(s: State, c: CallId) {
    c in s.calls &&
    (s.calls[c].Release? || s.calls[c].ReleaseHeld? || s.calls[c] == Leave(None, 0) || s.calls[c] == Done(0))
  }

  lemma ReleaseGoesOn(s: State, e: Event, s': State, c: CallId)
    requires Inv(s) && IsStep(s, e, s') && Releasing(s, c)
    ensures Releasing(s', c)
  {
    if !(e.Step? && e.c == c) {
      OtherPhase(s, e, s', c);
    }
  }

  /** A reference released is never held again; once vfs_release_ref returns there is none. */
  lemma {:induction false} ReleasedForGood(states: seq<State>, events: seq<Event>, c: CallId, i: nat)
    requires Follow(states, events) && Inv(states[0]) && events != [] && events[0] == Put(c) && 1 <= i < |states|
    ensures Inv(states[i]) && Releasing(states[i], c)
    ensures states[i].calls[c].Done? ==> RefOf(states[i], c) == None
  {
    ChainAt(IsStep, states, events, i - 1);
    if i == 1 {
      NextKeeps(states[0], events[0]);
    } else {
      ReleasedForGood(states, events, c, i - 1);
      NextKeeps(states[i - 1], events[i - 1]);
      ReleaseGoesOn(states[i - 1], events[i - 1], states[i], c);
    }
  }
}
