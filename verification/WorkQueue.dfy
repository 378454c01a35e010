/** The queue of deferred work: a singly linked list with a tail pointer (workqueue.c). Waiting for
    items and waking the workqueue thread are in the kernel machine; here is what happens to the list
    while interrupts are disabled. */
module WorkQueues {
  /** A callback and its data are a T. */
  class Item<T> {
    const work: T
    var next: Item?<T>

    constructor (work: T)
      ensures this.work == work && next == null
    {
      this.work, next := work, null;
    }
  }

  class WorkQueue<T> {
    var head: Item?<T>
    var tail: Item?<T>
    ghost var items: seq<Item<T>>

    ghost predicate Linked(i: int)
      reads this, items
    {
      0 <= i < |items| ==> items[i].next == (if i + 1 == |items| then null else items[i + 1])
    }

    ghost predicate Valid()
      reads this, items
    {
      && head == (if items == [] then null else items[0])
      && tail == (if items == [] then null else items[|items| - 1])
      && (forall i, j :: 0 <= i < j < |items| ==> items[i] != items[j])
      && (forall i {:trigger Linked(i)} :: Linked(i))
    }

    /** The work still to be done, the oldest first. */
    ghost function Contents(): (r: seq<T>)
      reads this, items
      ensures |r| == |items|
    {
      seq(|items|, i requires 0 <= i < |items| reads this, items => items[i].work)
    }

    constructor ()
      ensures Valid() && Contents() == [] && items == []
    {
      head, tail, items := null, null, [];
      new;
      forall i ensures Linked(i) {}
    }

    /** workqueue_schedule_work */
    method Schedule(work: T)
      requires Valid()
      modifies this, items
      ensures Valid() && Contents() == old(Contents()) + [work]
      ensures |items| == old(|items|) + 1 && items[..old(|items|)] == old(items) && fresh(items[old(|items|)])
    {
      label before:
      var item := new Item(work);
      assert forall i :: 0 <= i < |items| ==> items[i] != item;
      if head == null {
        head, tail := item, item;
      } else {
        tail.next := item;
        tail := item;
      }
      items := items + [item];
      forall i ensures Linked(i) {
        assert old@before(Linked(i));
        assert old@before(Linked(|items| - 1));
      }
    }

    /** The workqueue thread takes the next item; there is one, for it has waited for it. */
    method Take() returns (item: Item<T>)
      requires Valid() && items != []
      modifies this
      ensures Valid() && [item.work] + Contents() == old(Contents())
      ensures item == old(items)[0] && items == old(items)[1..]
    {
      item := head;
      assert Linked(0);
      head := head.next;
      if head == null {
        tail := null;
      }
      items := items[1..];
      forall i ensures Linked(i) {
        assert old(Linked(i + 1));
      }
    }

    /** s_workqueue_head == 0 */
    method IsEmpty() returns (b: bool)
      requires Valid()
      ensures b <==> Contents() == []
    {
      b := head == null;
    }
  }

  // ------------------------------------------------------------------------ exactly once

  datatype Op<T> = Scheduled(work: T) | Taken

  /** The queue after a history of operations, and what has been taken. */
  datatype History<T> = History(queue: seq<T>, taken: seq<T>)

  /** What Schedule and Take do to the contents; a Take of an empty queue waits, and does nothing. */
  function Run<T>(ops: seq<Op<T>>): History<T> {
    if ops == [] then History([], [])
    else
      var h := Run(ops[..|ops| - 1]);
      match ops[|ops| - 1]
      case Scheduled(work) => h.(queue := h.queue + [work])
      case Taken => if h.queue == [] then h else History(h.queue[1..], h.taken + [h.queue[0]])
  }

  function AllScheduled<T>(ops: seq<Op<T>>): seq<T> {
    if ops == [] then []
    else AllScheduled(ops[..|ops| - 1]) + match ops[|ops| - 1] case Scheduled(work) => [work] case Taken => []
  }

  /** Work is taken in the order scheduled, each item exactly once. */
  lemma {:induction false} FirstInFirstOut<T>(ops: seq<Op<T>>)
    ensures Run(ops).taken + Run(ops).queue == AllScheduled(ops)
  {
    if ops != [] {
      var h := Run(ops[..|ops| - 1]);
      FirstInFirstOut(ops[..|ops| - 1]);
      if ops[|ops| - 1].Taken? && h.queue != [] {
        assert h.queue == [h.queue[0]] + h.queue[1..];
      }
    }
  }
}
