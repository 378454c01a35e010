/** The child list of a directory, a list of list.h through the inodes themselves: vfs.c appends to it what
    the driver answers with, without asking whether it is in the list already. */
module InodeLists {
  function IndexOf<T(==)>(s: seq<T>, x: T): (k: nat)
    requires x in s
    ensures k < |s| && s[k] == x && x !in s[..k]
  {
    if s[0] == x then 0 else 1 + IndexOf(s[1..], x)
  }

  /** What a walk meets after x has been appended: if x was in the list, its link to those behind it is
      lost. */
  function Appended<T(==)>(s: seq<T>, x: T): (r: seq<T>)
    ensures r != [] && r[|r| - 1] == x
    ensures forall y :: y in r ==> y in s || y == x
    ensures x !in s ==> r == s + [x]
    ensures x in s ==> r <= s
  {
    if x in s then s[..IndexOf(s, x) + 1] else s + [x]
  }

  /** Appended where it already is, at the end, x becomes its own successor. */
  predicate ClosesLoop<T(==)>(s: seq<T>, x: T) {
    s != [] && s[|s| - 1] == x
  }

  class Node {
    var prev: Node?
    var next: Node?
  }

  class InodeList {
    var head: Node?
    var tail: Node?
    ghost var nodes: seq<Node>
    ghost var looped: bool

    /** The i-th node leads to the next, and the last to nothing, or to itself. */
    ghost predicate Linked(i: int)
      reads this, nodes
    {
      0 <= i < |nodes| ==>
        nodes[i].next == if i + 1 < |nodes| then nodes[i + 1] else if looped then nodes[i] else null
    }

    ghost predicate Distinct()
      reads this
    {
      forall i, j :: 0 <= i < j < |nodes| ==> nodes[i] != nodes[j]
    }

    ghost predicate Valid()
      reads this, nodes
    {
      && head == (if nodes == [] then null else nodes[0])
      && tail == (if nodes == [] then null else nodes[|nodes| - 1])
      && (looped ==> nodes != []) && Distinct()
      && (forall i {:trigger Linked(i)} :: Linked(i))
    }

    constructor ()
      ensures Valid() && nodes == [] && !looped
    {
      head, tail, nodes, looped := null, null, [], false;
      new;
      forall i ensures Linked(i) {}
    }

    /** inode_list_append, of any node, in the list or not. */
    method Append(node: Node)
      requires Valid()
      modifies this, nodes, node
      ensures Valid() && nodes == Appended(old(nodes), node) && looped == ClosesLoop(old(nodes), node)
    {
      label before:
      assert Linked(|nodes| - 1);
      node.next, node.prev := null, null;
      if head == null {
        head, tail := node, node;
      } else {
        node.prev := tail;
        tail.next := node;
        tail := node;
      }
      looped := ClosesLoop(nodes, node);
      nodes := Appended(nodes, node);
      forall i ensures Linked(i) {
        assert old@before(Linked(i));
      }
    }

    /** Where a walk from the head is after k steps: null once it has ended. */
    ghost function Walk(k: nat): (r: Node?)
      requires Valid()
      reads this, nodes
      ensures r == null || r in nodes
      ensures r == if k < |nodes| then nodes[k] else if looped then nodes[|nodes| - 1] else null
    {
      if k == 0 then head
      else
        var n := Walk(k - 1);
        assert Linked(k - 1) && Linked(|nodes| - 1);
        if n == null then null else n.next
    }

    /** The walk never ends exactly if the last node leads to itself. */
    lemma WalkEnds()
      requires Valid()
      ensures looped <==> forall k: nat :: Walk(k) != null
    {
      if looped {
        forall k: nat ensures Walk(k) != null {
          assert Walk(k) == nodes[if k < |nodes| then k else |nodes| - 1];
        }
      } else {
        var k: nat := |nodes|;
        assert Walk(k) == null;
        assert !forall j: nat :: Walk(j) != null;
      }
    }
  }
}
