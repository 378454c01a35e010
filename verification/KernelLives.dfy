/** References to threads, joining, and destruction by the workqueue thread. */
module KernelLives {
  import opened Common
  import opened KernelSteps
  import opened KernelPlaces

  /** From detaching itself in thread_exit on, a thread no longer holds the reference to itself. */
  predicate SelfReleased(p: Pc) {
    p.ExitMark? || Exited(p)
  }

  /** A thread's references are its own, until it exits, and its parent's, until it joins; the last
      one to go, and nothing else, schedules its destruction. */
  ghost predicate RefOk(pc: map<Tid, Pc>, refs: map<Tid, Refs>, log: seq<Tid>, t: Tid) {
    t in pc && t in refs ==>
      && refs[t].refcount ==
           (if SelfReleased(pc[t]) then 0 else 1) + (if refs[t].parent.Some? && !refs[t].joined then 1 else 0)
      && (refs[t].refcount == 0 <==> t in log)
      && (refs[t].joined ==> pc[t] == Dead && refs[t].parent.Some?)
  }

  /** A thread about to join, or joining, child ch. */
  predicate Joins(p: Pc, ch: Tid) {
    p == JoinDisable(ch) || p == JoinTest(ch) || p == JoinDetach(ch)
  }

  /** A joining thread is the parent and has not joined yet; past the test, the child is gone. */
  ghost predicate JoinerOk(pc: map<Tid, Pc>, refs: map<Tid, Refs>, t: Tid) {
    t in pc ==> forall ch :: Joins(pc[t], ch) ==>
      && ch in refs && ch in pc && refs[ch].parent == Some(t) && !refs[ch].joined
      && (pc[t].JoinDetach? ==> pc[ch] == Dead)
  }

  /** A parent waits on its child's queue only while the child has not left thread_exit's loop that
      wakes it. */
  ghost predicate WaiterOk(pc: map<Tid, Pc>, sched: map<Tid, Sched>, t: Tid) {
    t in pc && t in sched && sched[t].place.In? && sched[t].place.q.JoinQ? ==>
      var ch := sched[t].place.q.child;
      ch in pc && !pc[ch].ExitSwitch? && !pc[ch].Dead?
  }

  /** The item the workqueue thread has taken and not finished. */
  function Inflight(p: Pc): seq<Tid> {
    match p
    case WorkEnable(item) => [item]
    case WorkRun(item) => [item]
    case _ => []
  }

  /** Work items are done in the order scheduled, each exactly once; nothing is done to a thread
      that may still run. */
  ghost predicate WorkOk(pc: map<Tid, Pc>, work: Work) {
    && WORKER in pc
    && work.log == work.done + Inflight(pc[WORKER]) + work.items
    && (forall i, j :: 0 <= i < j < |work.log| ==> work.log[i] != work.log[j])
    && (pc[WORKER] == WorkTake ==> work.items != [])
    && (forall t :: t in work.log ==> t in pc && SelfReleased(pc[t]))
    && (forall t :: t in work.done || t in Inflight(pc[WORKER]) ==> t in pc && pc[t] == Dead)
  }

  ghost predicate Lives(pc: map<Tid, Pc>, sched: map<Tid, Sched>, refs: map<Tid, Refs>, work: Work) {
    && pc.Keys == refs.Keys
    && WorkOk(pc, work)
    && (forall t {:trigger RefOk(pc, refs, work.log, t)} :: RefOk(pc, refs, work.log, t))
    && (forall t {:trigger JoinerOk(pc, refs, t)} :: JoinerOk(pc, refs, t))
    && (forall t {:trigger WaiterOk(pc, sched, t)} :: WaiterOk(pc, sched, t))
  }

  /** Nobody but x starts to wait for a child. */
  ghost predicate NoNewWaiter(sched: map<Tid, Sched>, sched': map<Tid, Sched>, x: Tid) {
    forall t {:trigger WaitsForChild(sched', t)} :: t != x && WaitsForChild(sched', t) ==>
      WaitsForChild(sched, t) && sched'[t].place == sched[t].place
  }

  predicate WaitsForChild(sched: map<Tid, Sched>, t: Tid) {
    t in sched && sched[t].place.In? && sched[t].place.q.JoinQ?
  }

  ghost predicate Unawaited(sched: map<Tid, Sched>, ch: Tid) {
    forall t {:trigger WaitsForChild(sched, t)} :: WaitsForChild(sched, t) ==> sched[t].place.q.child != ch
  }

  lemma WaitersMove(pc: map<Tid, Pc>, sched: map<Tid, Sched>, x: Tid, p: Pc, sched': map<Tid, Sched>)
    requires forall t {:trigger WaiterOk(pc, sched, t)} :: WaiterOk(pc, sched, t)
    requires x in pc && NoNewWaiter(sched, sched', x) && WaiterOk(pc[x := p], sched', x)
    requires p.ExitSwitch? ==> pc[x].ExitSwitch? || Unawaited(sched', x)
    requires p.Dead? ==> pc[x].ExitSwitch?
    ensures forall t {:trigger WaiterOk(pc[x := p], sched', t)} :: WaiterOk(pc[x := p], sched', t)
  {
    var pc' := pc[x := p];
    forall t ensures WaiterOk(pc', sched', t) {
      assert WaiterOk(pc, sched, t);
      assert t != x && WaitsForChild(sched', t) ==> WaitsForChild(sched, t);
    }
  }

  /** Thread x moves on to p; references and work stay as they are. */
  lemma LivesMove(pc: map<Tid, Pc>, sched: map<Tid, Sched>, refs: map<Tid, Refs>, work: Work,
                  x: Tid, p: Pc, sched': map<Tid, Sched>)
    requires Lives(pc, sched, refs, work) && x in pc && NoNewWaiter(sched, sched', x)
    requires SelfReleased(p) == SelfReleased(pc[x]) && pc[x] != Dead
    requires x == WORKER ==> Inflight(p) == Inflight(pc[WORKER]) && p != Dead && (p == WorkTake ==> work.items != [])
    requires JoinerOk(pc[x := p], refs, x) && WaiterOk(pc[x := p], sched', x)
    requires p.ExitSwitch? ==> pc[x].ExitSwitch? || Unawaited(sched', x)
    requires p.Dead? ==> pc[x].ExitSwitch?
    ensures Lives(pc[x := p], sched', refs, work)
  {
    var pc' := pc[x := p];
    forall t ensures RefOk(pc', refs, work.log, t) {
      assert RefOk(pc, refs, work.log, t);
    }
    forall t ensures JoinerOk(pc', refs, t) {
      assert JoinerOk(pc, refs, t);
    }
    WaitersMove(pc, sched, x, p, sched');
  }

  /** thread_detach on a thread's own reference. */
  lemma LivesSelfDetach(pc: map<Tid, Pc>, sched: map<Tid, Sched>, refs: map<Tid, Refs>, work: Work, x: Tid,
                        v: Refs, work': Work, sched': map<Tid, Sched>)
    requires Lives(pc, sched, refs, work) && x in pc && pc[x] == ExitDetach && x != WORKER
    requires NoNewWaiter(sched, sched', x)
    requires !WaitsForChild(sched', x)
    requires v == refs[x].(refcount := refs[x].refcount - 1)
    requires work' == if v.refcount == 0 then work.(items := work.items + [x], log := work.log + [x]) else work
    ensures Lives(pc[x := ExitMark], sched', refs[x := v], work')
  {
    var pc', refs' := pc[x := ExitMark], refs[x := v];
    assert RefOk(pc, refs, work.log, x);
    forall t ensures RefOk(pc', refs', work'.log, t) {
      assert RefOk(pc, refs, work.log, t);
    }
    forall t ensures JoinerOk(pc', refs', t) {
      assert JoinerOk(pc, refs, t);
    }
    forall t ensures WaiterOk(pc', sched', t) {
      assert WaiterOk(pc, sched, t);
      assert t != x && WaitsForChild(sched', t) ==> WaitsForChild(sched, t);
    }
  }

  /** thread_detach by the parent that has joined ch. */
  lemma LivesParentDetach(pc: map<Tid, Pc>, sched: map<Tid, Sched>, refs: map<Tid, Refs>, work: Work, x: Tid, ch: Tid,
                          v: Refs, work': Work, sched': map<Tid, Sched>)
    requires Lives(pc, sched, refs, work) && x in pc && pc[x] == JoinDetach(ch) && x != WORKER
    requires NoNewWaiter(sched, sched', x)
    requires !WaitsForChild(sched', x) && ch in refs
    requires v == refs[ch].(joined := true, refcount := refs[ch].refcount - 1)
    requires work' == if v.refcount == 0 then work.(items := work.items + [ch], log := work.log + [ch]) else work
    requires forall t :: t in pc && t != x ==> !Joins(pc[t], ch)
    ensures Lives(pc[x := IntsOn], sched', refs[ch := v], work')
  {
    var pc', refs' := pc[x := IntsOn], refs[ch := v];
    assert RefOk(pc, refs, work.log, ch) && RefOk(pc, refs, work.log, x) && JoinerOk(pc, refs, x);
    assert Joins(pc[x], ch);
    forall t ensures RefOk(pc', refs', work'.log, t) {
      assert RefOk(pc, refs, work.log, t);
    }
    forall t ensures JoinerOk(pc', refs', t) {
      assert JoinerOk(pc, refs, t);
    }
    forall t ensures WaiterOk(pc', sched', t) {
      assert WaiterOk(pc, sched, t);
      assert t != x && WaitsForChild(sched', t) ==> WaitsForChild(sched, t);
    }
  }

  /** Only its parent joins a thread. */
  lemma OneJoiner(pc: map<Tid, Pc>, sched: map<Tid, Sched>, refs: map<Tid, Refs>, work: Work, t: Tid, u: Tid, ch: Tid)
    requires Lives(pc, sched, refs, work) && t in pc && u in pc && Joins(pc[t], ch) && Joins(pc[u], ch)
    ensures t == u
  {
    assert JoinerOk(pc, refs, t) && JoinerOk(pc, refs, u);
  }

  lemma TakeKeepsOrder(pc: map<Tid, Pc>, work: Work)
    requires WorkOk(pc, work) && pc[WORKER] == WorkTake && work.items[0] in pc && pc[work.items[0]] == Dead
    ensures WorkOk(pc[WORKER := WorkEnable(work.items[0])], work.(items := work.items[1..]))
  {
    var item := work.items[0];
    assert [item] + work.items[1..] == work.items;
    assert work.log == work.done + [item] + work.items[1..];
  }

  /** The workqueue thread takes the first item. */
  lemma LivesTake(pc: map<Tid, Pc>, sched: map<Tid, Sched>, refs: map<Tid, Refs>, work: Work)
    requires Lives(pc, sched, refs, work) && pc[WORKER] == WorkTake
    requires work.items[0] in pc && pc[work.items[0]] == Dead
    ensures Lives(pc[WORKER := WorkEnable(work.items[0])], sched, refs, work.(items := work.items[1..]))
  {
    var item := work.items[0];
    TakeKeepsOrder(pc, work);
    var pc', work' := pc[WORKER := WorkEnable(item)], work.(items := work.items[1..]);
    forall t ensures RefOk(pc', refs, work'.log, t) && JoinerOk(pc', refs, t) && WaiterOk(pc', sched, t) {
      assert RefOk(pc, refs, work.log, t) && JoinerOk(pc, refs, t) && WaiterOk(pc, sched, t);
    }
  }

  /** The workqueue thread finishes an item. */
  lemma LivesFinish(pc: map<Tid, Pc>, sched: map<Tid, Sched>, refs: map<Tid, Refs>, work: Work, item: Tid)
    requires Lives(pc, sched, refs, work) && pc[WORKER] == WorkRun(item)
    ensures Lives(pc[WORKER := WorkDisable], sched, refs, work.(done := work.done + [item]))
  {
    var pc', work' := pc[WORKER := WorkDisable], work.(done := work.done + [item]);
    assert work'.log == work'.done + [] + work'.items;
    forall t ensures RefOk(pc', refs, work'.log, t) && JoinerOk(pc', refs, t) && WaiterOk(pc', sched, t) {
      assert RefOk(pc, refs, work.log, t) && JoinerOk(pc, refs, t) && WaiterOk(pc, sched, t);
    }
  }

  lemma LivesNewThread(pc: map<Tid, Pc>, sched: map<Tid, Sched>, refs: map<Tid, Refs>, work: Work, x: Tid,
                       sched': map<Tid, Sched>, v: Refs)
    requires Lives(pc, sched, refs, work) && x !in pc && NoNewWaiter(sched, sched', x) && !WaitsForChild(sched', x)
    requires !v.joined && v.refcount == if v.parent.Some? then 2 else 1
    ensures Lives(pc[x := Start], sched', refs[x := v], work)
  {
    var pc', refs' := pc[x := Start], refs[x := v];
    forall t ensures RefOk(pc', refs', work.log, t) {
      assert RefOk(pc, refs, work.log, t);
    }
    forall t ensures JoinerOk(pc', refs', t) {
      assert JoinerOk(pc, refs, t);
    }
    forall t ensures WaiterOk(pc', sched', t) {
      assert WaiterOk(pc, sched, t);
      assert t != x && WaitsForChild(sched', t) ==> WaitsForChild(sched, t);
    }
  }
}
