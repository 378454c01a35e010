/** Thread queues as the kernel builds them: doubly linked lists through the threads themselves
    (include/geekos/list.h), ordered by the schedulers (src/60-330/kernel/thread.c). */
module ThreadQueues {
  import opened SchedulingOrder

  class Thread {
    const priority: int
    var state: ThreadState
    var prev: Thread?
    var next: Thread?
  }

  /** A queue of threads with the priorities that order it. */
  function Entries(s: seq<Thread>): (r: seq<Entry<Thread>>)
    ensures |r| == |s|
  {
    seq(|s|, i requires 0 <= i < |s| => Entry(s[i], s[i].priority))
  }

  lemma EntriesInsert(s: seq<Thread>, k: nat, x: Thread)
    requires k <= |s|
    ensures Entries(s[..k] + [x] + s[k..]) == Entries(s)[..k] + [Entry(x, x.priority)] + Entries(s)[k..]
    ensures forall t :: t in s[..k] + [x] + s[k..] <==> t in s || t == x
  {
    assert s == s[..k] + s[k..];
  }

  /** AfterLast is the only position with these two properties. */
  lemma AfterLastIs<T>(q: seq<Entry<T>>, p: int, k: nat)
    requires 0 < k < |q| && q[k - 1].priority <= p && forall i :: k <= i < |q| ==> p < q[i].priority
    ensures AfterLast(q, p) == k
  {
    var a := AfterLast(q, p);
    assert !(a < k);
    assert !(k < a);
  }

  class ThreadQueue {
    var head: Thread?
    var tail: Thread?
    ghost var nodes: seq<Thread>

    /** The i-th thread points to its neighbours, and to nothing at the ends. */
    ghost predicate Linked(i: int)
      reads this, nodes
    {
      0 <= i < |nodes| ==>
        && nodes[i].prev == (if i == 0 then null else nodes[i - 1])
        && nodes[i].next == (if i + 1 == |nodes| then null else nodes[i + 1])
    }

    ghost predicate Distinct()
      reads this
    {
      forall i, j :: 0 <= i < j < |nodes| ==> nodes[i] != nodes[j]
    }

    ghost predicate Valid()
      reads this, nodes
    {
      && head == (if nodes == [] then null else nodes[0])
      && tail == (if nodes == [] then null else nodes[|nodes| - 1])
      && Distinct()
      && (forall i {:trigger Linked(i)} :: Linked(i))
    }

    constructor ()
      ensures Valid() && nodes == []
    {
      head, tail, nodes := null, null, [];
      new;
      forall i ensures Linked(i) {}
    }

    method Clear()
      modifies this
      ensures Valid() && nodes == []
    {
      head, tail, nodes := null, null, [];
      forall i ensures Linked(i) {}
    }

    method IsEmpty() returns (b: bool)
      requires Valid()
      ensures b <==> nodes == []
    {
      b := head == null;
    }

    method Append(node: Thread)
      requires Valid() && node !in nodes
      modifies this, nodes, node`prev, node`next
      ensures Valid() && nodes == old(nodes) + [node]
      ensures forall t :: t in old(nodes) ==> t.state == old(t.state)
    {
      label before:
      node.next, node.prev := null, null;
      if head == null {
        head, tail := node, node;
      } else {
        node.prev := tail;
        tail.next := node;
        tail := node;
      }
      nodes := nodes + [node];
      forall i ensures Linked(i) {
        assert old@before(Linked(i));
        assert old@before(Linked(|nodes| - 1));
      }
    }

    /** Takes the first thread off the queue. ok is false if the KASSERT fails, which it does for an empty
        queue; without it the result is then null. */
    method RemoveFirst() returns (ok: bool, result: Thread?)
      requires Valid()
      modifies this, nodes
      ensures Valid() && (ok <==> old(nodes) != [])
      ensures old(nodes) == [] ==> result == null && nodes == []
      ensures old(nodes) != [] ==> result == old(nodes)[0] && nodes == old(nodes)[1..]
      ensures forall t :: t in old(nodes) ==> t.state == old(t.state)
    {
      assert Linked(0) && Linked(1);
      ok := head != null;
      if head == tail {
        result := head;
        head, tail := null, null;
        if nodes != [] {
          nodes := nodes[1..];
        }
        forall i ensures Linked(i) {}
      } else {
        result := head;
        head := head.next;
        head.prev := null;
        nodes := nodes[1..];
        forall i ensures Linked(i) {
          assert old(Linked(i + 1));
        }
      }
    }

    method Prepend(node: Thread)
      requires Valid() && node !in nodes
      modifies this, nodes, node`prev, node`next
      ensures Valid() && nodes == [node] + old(nodes)
      ensures forall t :: t in old(nodes) ==> t.state == old(t.state)
    {
      label before:
      node.next, node.prev := null, null;
      if head == null {
        head, tail := node, node;
      } else {
        node.next := head;
        head.prev := node;
        head := node;
      }
      nodes := [node] + nodes;
      forall i ensures Linked(i) {
        assert old@before(Linked(i - 1)) && old@before(Linked(0));
      }
    }

    /** Links node in after temp, which is not the last thread. */
    method Splice(node: Thread, temp: Thread, ghost i: nat)
      requires Valid() && node !in nodes && i + 1 < |nodes| && temp == nodes[i]
      modifies this`nodes, nodes, node`prev, node`next
      ensures Valid() && nodes == old(nodes)[..i + 1] + [node] + old(nodes)[i + 1..]
      ensures forall t :: t in old(nodes) ==> t.state == old(t.state)
    {
      label before:
      assert Linked(i) && Linked(i + 1);
      node.prev := temp;
      node.next := temp.next;
      temp.next.prev := node;
      temp.next := node;
      nodes := nodes[..i + 1] + [node] + nodes[i + 1..];
      forall j ensures Linked(j) {
        assert old@before(Linked(j)) && old@before(Linked(j - 1));
      }
    }

    /** The thread after which a middle one belongs: following prev from the tail never meets a null
        link, and the thread found is not the last, even on a queue that is not sorted. */
    method SeekFromTail(p: int) returns (temp: Thread, ghost i: nat)
      requires Valid() && head != null && head.priority <= p < tail.priority
      ensures i + 1 < |nodes| && temp == nodes[i] && temp.priority <= p
      ensures forall j :: i < j < |nodes| ==> p < nodes[j].priority
    {
      temp, i := tail, |nodes| - 1;
      while p < temp.priority && temp.prev != null
        invariant i < |nodes| && temp == nodes[i]
        invariant forall j :: i < j < |nodes| ==> p < nodes[j].priority
        decreases i
      {
        assert Linked(i);
        temp := temp.prev;
        i := i - 1;
      }
      assert Linked(i);
    }

    /** Puts node where its priority says. */
    method InsertAtPriority(node: Thread)
      requires Valid() && node !in nodes
      modifies this, nodes, node`prev, node`next
      ensures Valid()
      ensures var k := InsertPos(Entries(old(nodes)), node.priority);
              nodes == old(nodes)[..k] + [node] + old(nodes)[k..]
      ensures forall t :: t in old(nodes) ==> t.state == old(t.state)
    {
      ghost var q := Entries(nodes);
      if head == null {
        Append(node);
      } else if node.priority >= tail.priority {
        Append(node);
      } else if node.priority < head.priority {
        Prepend(node);
      } else {
        ghost var i;
        var temp;
        temp, i := SeekFromTail(node.priority);
        AfterLastIs(q, node.priority, i + 1);
        Splice(node, temp, i);
      }
    }

    /** SCHEDULER[policy](queue, node) */
    method Enqueue(policy: Policy, node: Thread)
      requires Valid() && node !in nodes
      modifies this, nodes, node`prev, node`next
      ensures Valid()
      ensures Entries(nodes) == SchedulingOrder.Enqueue(policy, Entries(old(nodes)), Entry(node, node.priority))
      ensures forall t :: t in nodes <==> t in old(nodes) || t == node
      ensures forall t :: t in old(nodes) ==> t.state == old(t.state)
    {
      if policy == SJF || policy == PRIORITY {
        EntriesInsert(nodes, InsertPos(Entries(nodes), node.priority), node);
        InsertAtPriority(node);
      } else {
        EntriesInsert(nodes, |nodes|, node);
        Append(node);
      }
    }
  }

  // ------------------------------------------------------ moving threads to the run queue

  /** Two queues that share no thread. */
  ghost predicate Apart(q: ThreadQueue, r: ThreadQueue)
    reads q, r
  {
    q != r && (forall t :: !(t in q.nodes && t in r.nodes))
  }

  /** thread_make_runnable */
  method MakeRunnable(policy: Policy, runq: ThreadQueue, thread: Thread)
    requires runq.Valid() && thread !in runq.nodes
    modifies runq, runq.nodes, thread
    ensures runq.Valid()
    ensures Entries(runq.nodes) == Enqueue(policy, Entries(old(runq.nodes)), Entry(thread, thread.priority))
    ensures forall t :: t in runq.nodes <==> t in old(runq.nodes) || t == thread
    ensures thread.state == READY && forall t :: t in old(runq.nodes) ==> t.state == old(t.state)
  {
    thread.state := READY;
    runq.Enqueue(policy, thread);
  }

  /** thread_wakeup_one. ok is false if the KASSERT of RemoveFirst fails, which it does for an empty queue;
      without it nobody is then woken. */
  method WakeupOne(policy: Policy, queue: ThreadQueue, runq: ThreadQueue) returns (ok: bool)
    requires queue.Valid() && runq.Valid() && Apart(queue, runq)
    modifies queue, runq, queue.nodes, runq.nodes
    ensures queue.Valid() && runq.Valid() && Apart(queue, runq) && (ok <==> old(queue.nodes) != [])
    ensures old(queue.nodes) == [] ==> queue.nodes == [] && runq.nodes == old(runq.nodes)
    ensures old(queue.nodes) != [] ==>
              && queue.nodes == old(queue.nodes)[1..]
              && Entries(runq.nodes) == Enqueue(policy, Entries(old(runq.nodes)), Entries(old(queue.nodes))[0])
    ensures forall t :: t in queue.nodes ==> t in old(queue.nodes)
    ensures forall t :: t in runq.nodes ==> t in old(queue.nodes) || t in old(runq.nodes)
    ensures forall t :: t in old(runq.nodes) ==> t in runq.nodes
    ensures forall t :: t in runq.nodes ==> t.state == if t in old(runq.nodes) then old(t.state) else READY
  {
    var thread;
    ok, thread := queue.RemoveFirst();
    forall i ensures runq.Linked(i) {
      assert old(runq.Linked(i));
      assert 0 <= i < |runq.nodes| ==> runq.nodes[i] in runq.nodes && runq.nodes[i] !in old(queue.nodes);
    }
    if thread != null {
      label removed:
      MakeRunnable(policy, runq, thread);
      forall i ensures queue.Linked(i) {
        assert old@removed(queue.Linked(i));
        assert 0 <= i < |queue.nodes| ==> queue.nodes[i] in old(queue.nodes) && queue.nodes[i] !in old(runq.nodes);
      }
    }
  }

  /** One turn of the loop of thread_wakeup, seen from the sequences. */
  lemma WakeupStep(policy: Policy, q: seq<Thread>, r: seq<Thread>, r': seq<Thread>)
    requires q != [] && Entries(r') == Enqueue(policy, Entries(r), Entries(q)[0])
    ensures EnqueueAll(policy, Entries(r'), Entries(q[1..])) == EnqueueAll(policy, Entries(r), Entries(q))
  {
    assert Entries(q)[1..] == Entries(q[1..]);
  }

  ghost predicate Within(q: seq<Thread>, threads: set<Thread>) {
    forall t :: t in q ==> t in threads
  }

  /** Every thread of q but the given ones is ready. */
  ghost predicate ReadyBut(q: seq<Thread>, but: seq<Thread>)
    reads q
  {
    forall t :: t in q ==> t in but || t.state == READY
  }

  /** One turn of the loop of thread_wakeup. */
  method WakeupNext(policy: Policy, queue: ThreadQueue, runq: ThreadQueue, ghost threads: set<Thread>,
                    ghost before: seq<Thread>)
    requires queue.Valid() && runq.Valid() && Apart(queue, runq) && queue.nodes != []
    requires Within(queue.nodes, threads) && Within(runq.nodes, threads) && ReadyBut(runq.nodes, before)
    modifies queue, runq, threads
    ensures queue.Valid() && runq.Valid() && Apart(queue, runq) && |queue.nodes| < old(|queue.nodes|)
    ensures Within(queue.nodes, threads) && Within(runq.nodes, threads) && ReadyBut(runq.nodes, before)
    ensures EnqueueAll(policy, Entries(runq.nodes), Entries(queue.nodes)) ==
            old(EnqueueAll(policy, Entries(runq.nodes), Entries(queue.nodes)))
  {
    ghost var q, r := queue.nodes, runq.nodes;
    var ok := WakeupOne(policy, queue, runq);
    assert ok;
    WakeupStep(policy, q, r, runq.nodes);
  }

  /** thread_wakeup: every waiting thread is made ready, first come first queued. */
  method Wakeup(policy: Policy, queue: ThreadQueue, runq: ThreadQueue, ghost threads: set<Thread>)
    requires queue.Valid() && runq.Valid() && Apart(queue, runq)
    requires Within(queue.nodes, threads) && Within(runq.nodes, threads)
    modifies queue, runq, threads
    ensures queue.Valid() && runq.Valid() && queue.nodes == []
    ensures Entries(runq.nodes) == EnqueueAll(policy, Entries(old(runq.nodes)), Entries(old(queue.nodes)))
    ensures ReadyBut(runq.nodes, old(runq.nodes))
  {
    ghost var total := EnqueueAll(policy, Entries(runq.nodes), Entries(queue.nodes));
    var done := queue.IsEmpty();
    while !done
      invariant queue.Valid() && runq.Valid() && Apart(queue, runq)
      invariant Within(queue.nodes, threads) && Within(runq.nodes, threads) && ReadyBut(runq.nodes, old(runq.nodes))
      invariant done <==> queue.nodes == []
      invariant EnqueueAll(policy, Entries(runq.nodes), Entries(queue.nodes)) == total
      decreases |queue.nodes|
    {
      WakeupNext(policy, queue, runq, threads, old(runq.nodes));
      done := queue.IsEmpty();
    }
  }

  /** merge_new_with_runnable: empties the new queue into the run queue. With the lemmas on
      EnqueueAll this is the stable sort of both under SJF and PRIORITY. */
  method MergeNewWithRunnable(policy: Policy, newq: ThreadQueue, runq: ThreadQueue, ghost threads: set<Thread>)
    requires newq.Valid() && runq.Valid() && Apart(newq, runq)
    requires Within(newq.nodes, threads) && Within(runq.nodes, threads)
    modifies newq, runq, threads
    ensures newq.Valid() && runq.Valid() && newq.nodes == []
    ensures Entries(runq.nodes) == EnqueueAll(policy, Entries(old(runq.nodes)), Entries(old(newq.nodes)))
    ensures ReadyBut(runq.nodes, old(runq.nodes))
  {
    Wakeup(policy, newq, runq, threads);
    newq.Clear();
  }
}
