/** Searches that never end: when a directory's child list comes to have no end, what becomes of a search
    of it, and a run in which that happens (vfs.c). */
module VfsLoops {
  import opened Common
  import opened Runs
  import opened PathTokenizer
  import opened InodeLists
  import opened VfsTree
  import opened Vfs
  import opened VfsInvariant
  import opened VfsRuns

  /** The driver answers a lookup in directory n with an inode. */
  predicate Lists(s: State, e: Event, n: Ino) {
    e.Step? && e.c in s.calls && s.calls[e.c].Driver? && s.calls[e.c].at == n && !e.answer.Nothing?
  }

  /** And the inode is the last in the directory's child list. */
  predicate Repeats(s: State, e: Event, n: Ino) {
    Lists(s, e, n) && n in s.tree && e.answer.OldChild? && ClosesLoop(s.tree[n].children, e.answer.ino)
  }

  lemma AdjustKeepsLoops(tree: Tree, n: Ino, delta: int, i: Ino)
    requires TreeOk(tree) && n in tree && Adjust(tree, n, delta).Some? && i in Adjust(tree, n, delta).value
    ensures i in tree && Adjust(tree, n, delta).value[i].looped == tree[i].looped
  {
    AdjustMeans(tree, n, delta);
    assert Adjust(tree, n, delta).value[i] == Bump(tree, n, delta, i);
  }

  lemma AnswerLoops(s: State, c: CallId, answer: Answer, n: Ino)
    requires Inv(s) && Allowed(s, Step(c, answer)) && s.calls[c].Driver? && s.calls[c].at in s.tree
    requires n in StepOf(s, c, answer).s.tree
    ensures StepOf(s, c, answer).s.tree[n].looped <==>
              if Lists(s, Step(c, answer), n) then Repeats(s, Step(c, answer), n) else n in s.tree && s.tree[n].looped
  {
    assert NodeOk(s.tree, n);
  }

  /** A child list has no end exactly from when the driver answers with the inode that is last in it until
      it answers with another. */
  lemma LoopedExactly(s: State, e: Event, s': State, n: Ino)
    requires Inv(s) && IsStep(s, e, s') && n in s'.tree
    ensures s'.tree[n].looped <==>
              if Lists(s, e, n) then Repeats(s, e, n) else n in s.tree && s.tree[n].looped
  {
    if e.Step? {
      assert CallOk(s, e.c);
      var p := s.calls[e.c];
      if p.AddRef? {
        AdjustKeepsLoops(s.tree, p.dir, 1, n);
      } else if p.Drop? || p.ReleaseHeld? {
        AdjustKeepsLoops(s.tree, p.at, -1, n);
      } else if p.Driver? {
        AnswerLoops(s, e.c, e.answer, n);
      }
    }
  }

  ghost predicate NoLoops(tree: Tree) {
    forall n {:trigger tree[n].looped} :: n in tree ==> !tree[n].looped
  }

  /** As long as the driver does not answer with the inode last in the list, every search ends. */
  lemma {:induction false} SearchesEnd(states: seq<State>, events: seq<Event>, i: nat, c: CallId)
    requires Follow(states, events) && Reachable(states[0]) && NoLoops(states[0].tree) && i < |states|
    requires forall j, n :: 0 <= j < |events| ==> !Repeats(states[j], events[j], n)
    ensures Reachable(states[i]) && NoLoops(states[i].tree) && !Spins(states[i], c)
  {
    if i > 0 {
      var s, s' := states[i - 1], states[i];
      SearchesEnd(states, events, i - 1, c);
      ChainAt(IsStep, states, events, i - 1);
      NoPanic(s, events[i - 1]);
      ReachableInv(s);
      forall n | n in s'.tree ensures !s'.tree[n].looped {
        LoopedExactly(s, events[i - 1], s', n);
      }
    }
  }

  /** A search without end holds s_fs_mutex, and whatever else goes on, it goes on. */
  lemma SpinsOn(s: State, e: Event, s': State, c: CallId)
    requires Inv(s) && IsStep(s, e, s') && Spins(s, c)
    ensures Spins(s', c) && s'.calls[c] == s.calls[c] && s.mutex == s'.mutex == Some(c)
  {
    assert CallOk(s, c);
    if e.Step? && e.c != c {
      assert CallOk(s, e.c);
      assert s.calls[e.c].Driver?;
      assert s.calls[e.c].at != s.calls[c].at;
    }
  }

  /** So in no run does it end, and no call gets s_fs_mutex ever again. */
  lemma {:induction false} NeverEnds(states: seq<State>, events: seq<Event>, c: CallId, i: nat)
    requires Follow(states, events) && Inv(states[0]) && Spins(states[0], c) && i < |states|
    ensures Inv(states[i]) && Spins(states[i], c) && states[i].mutex == Some(c)
  {
    if i == 0 {
      assert CallOk(states[0], c);
    } else {
      NeverEnds(states, events, c, i - 1);
      ChainAt(IsStep, states, events, i - 1);
      NextKeeps(states[i - 1], events[i - 1]);
      SpinsOn(states[i - 1], events[i - 1], states[i], c);
    }
  }

  // ------------------------------------------------- a run into a search that does not end

  /** No call is at work, and the root directory, without a name, has these children. */
  ghost predicate AtRest(s: State, children: seq<Ino>, looped: bool) {
    && Reachable(s) && s.mutex == None && 0 in s.calls && s.calls[0] == Held(0)
    && Root(s, children, false, looped)
  }

  predicate Root(s: State, children: seq<Ino>, busy: bool, looped: bool) {
    && 0 in s.tree && s.tree[0].parent == None && s.tree[0].isDir && s.tree[0].name == "" && s.tree[0].busy == busy
    && s.tree[0].children == children && s.tree[0].looped == looped
  }

  lemma Goes(s: State, c: CallId, answer: Answer) returns (s': State)
    requires Reachable(s) && Allowed(s, Step(c, answer))
    ensures Reachable(s') && Next(s, Step(c, answer)) == Ok(s')
  {
    NoPanic(s, Step(c, answer));
    s' := Next(s, Step(c, answer)).s;
  }

  /** Call c at statement p in directory 0, after what others know and others do not change. */
  ghost predicate Working(s: State, c: CallId, p: Phase, mutex: Option<CallId>) {
    && Reachable(s) && c != 0 && c in s.calls && s.calls[c] == p && s.mutex == mutex
    && 0 in s.calls && s.calls[0] == Held(0)
  }

  lemma Enters(s: State, c: CallId, children: seq<Ino>, looped: bool) returns (s': State)
    requires AtRest(s, children, looped) && c !in s.calls
    ensures Working(s', c, Walk(0, "a", 0), Some(c)) && Root(s', children, false, looped)
    ensures s'.calls.Keys == s.calls.Keys + {c} && (forall i :: i != 0 ==> (i in s'.tree <==> i in s.tree))
    ensures 1 in s.tree ==> s'.tree[1] == s.tree[1]
  {
    assert Allowed(s, Lookup(c, 0, "a"));
    NoPanic(s, Lookup(c, 0, "a"));
    var s1 := Next(s, Lookup(c, 0, "a")).s;
    var s2 := Goes(s1, c, Nothing(1));
    s' := Goes(s2, c, Nothing(1));
  }

  /** Call c begins to search directory 0 for "a". */
  lemma Searches(s: State, c: CallId, children: seq<Ino>, looped: bool) returns (s': State)
    requires AtRest(s, children, looped) && c !in s.calls
    ensures Working(s', c, Child(0, "a", 1, "a"), Some(c)) && Root(s', children, true, looped)
    ensures s'.calls.Keys == s.calls.Keys + {c} && (forall i :: i != 0 ==> (i in s'.tree <==> i in s.tree))
    ensures 1 in s.tree ==> s'.tree[1] == s.tree[1]
  {
    var s1 := Enters(s, c, children, looped);
    EndUnique("a", 0, 1);
    SkipUnique("a", 1, 1);
    assert "a"[0..1] == "a";
    var s2 := Goes(s1, c, Nothing(1));
    s' := Goes(s2, c, Nothing(1));
  }

  /** The driver may answer with inode 1, named "a", new or not. */
  predicate FitsOne(s: State, answer: Answer) {
    if 1 in s.tree then answer == OldChild(1) && ChildOf(s.tree, 0, Some(1)) else answer == NewChild(1, "a", false)
  }

  lemma Answered(s: State, c: CallId, children: seq<Ino>, answer: Answer) returns (s': State)
    requires Working(s, c, Child(0, "a", 1, "a"), Some(c)) && Root(s, children, true, false)
    requires FitsOne(s, answer)
    ensures Working(s', c, Relock(0, "a", 1, Some(1), 0), None)
    ensures Root(s', Appended(children, 1), true, ClosesLoop(children, 1))
    ensures s'.calls.Keys == s.calls.Keys && ChildOf(s'.tree, 0, Some(1))
  {
    assert |"a"| != |""| && !SameName("a", "");
    var s1 := Goes(s, c, Nothing(1));
    s' := Goes(s1, c, answer);
  }

  lemma Leaves(s: State, c: CallId, children: seq<Ino>, looped: bool) returns (s': State)
    requires Working(s, c, Relock(0, "a", 1, Some(1), 0), None) && Root(s, children, true, looped)
    requires ChildOf(s.tree, 0, Some(1))
    ensures Working(s', c, Walk(1, "a", 1), Some(c)) && Root(s', children, false, looped)
    ensures s'.calls.Keys == s.calls.Keys && ChildOf(s'.tree, 0, Some(1))
  {
    var s1 := Goes(s, c, Nothing(1));
    var s2 := Goes(s1, c, Nothing(1));
    s' := Goes(s2, c, Nothing(1));
  }

  lemma Returns(s: State, c: CallId, children: seq<Ino>, looped: bool) returns (s': State)
    requires Working(s, c, Walk(1, "a", 1), Some(c)) && Root(s, children, false, looped) && ChildOf(s.tree, 0, Some(1))
    ensures AtRest(s', children, looped) && s'.calls.Keys == s.calls.Keys && ChildOf(s'.tree, 0, Some(1))
  {
    var s1 := Goes(s, c, Nothing(1));
    s' := Goes(s1, c, Nothing(1));
  }

  /** A lookup of "a" for which the driver is asked. */
  lemma Asks(s: State, c: CallId, children: seq<Ino>, answer: Answer) returns (s': State)
    requires AtRest(s, children, false) && c !in s.calls
    requires FitsOne(s, answer)
    ensures AtRest(s', Appended(children, 1), ClosesLoop(children, 1))
    ensures s'.calls.Keys == s.calls.Keys + {c} && ChildOf(s'.tree, 0, Some(1))
  {
    var s1 := Searches(s, c, children, false);
    var s2 := Answered(s1, c, children, answer);
    var s3 := Leaves(s2, c, Appended(children, 1), ClosesLoop(children, 1));
    s' := Returns(s3, c, Appended(children, 1), ClosesLoop(children, 1));
  }

  /** Three lookups of one file in the root directory: the driver makes an inode for the first and answers
      the second with the same; the third never ends. */
  lemma ThirdLookupSpins(s: State) returns (s': State)
    requires Initial(s)
    ensures Reachable(s') && Spins(s', 3)
  {
    ReachesInit<State, Event>(IsStep, Initial, s);
    var s1 := Asks(s, 1, [], NewChild(1, "a", false));
    var s2 := Asks(s1, 2, [1], OldChild(1));
    s' := Searches(s2, 3, [1], true);
    assert |"a"| != |""| && !SameName("a", "");
  }
}
