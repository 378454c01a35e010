/** The tree of inodes and its reference counts (vfs.c). */
module VfsTree {
  import opened Common
  import opened PathTokenizer
  import opened InodeLists

  type Ino = nat

  /** A parent exists before its children do. children are what a walk along the child list meets, and
      looped says that the last of them leads to itself (see InodeLists). */
  datatype Inode = Inode(parent: Option<Ino>, isDir: bool, name: string, children: seq<Ino>, refcount: int, busy: bool,
                         looped: bool)

  type Tree = map<Ino, Inode>

  /** vfs_adjust_refcounts: nothing comes of it if one of its KASSERTs fails. */
  function Adjust(tree: Tree, n: Ino, delta: int): Option<Tree>
    decreases n
  {
    if n !in tree || tree[n].refcount < 0 || !(delta > 0 || tree[n].refcount > 0) then None
    else
      var tree' := tree[n := tree[n].(refcount := tree[n].refcount + delta)];
      if tree[n].parent.None? then Some(tree')
      else if tree[n].parent.value < n then Adjust(tree', tree[n].parent.value, delta)
      else None
  }

  /** Inode n is i or a directory above it. */
  predicate Under(tree: Tree, i: Ino, n: Ino)
    decreases i
  {
    i == n || (i in tree && tree[i].parent.Some? && tree[i].parent.value < i && Under(tree, tree[i].parent.value, n))
  }

  predicate NodeOk(tree: Tree, i: Ino) {
    i in tree ==>
      && (tree[i].parent.Some? ==> tree[i].parent.value < i && tree[i].parent.value in tree)
      && forall c :: c in tree[i].children ==> c in tree && tree[c].parent == Some(i)
  }

  ghost predicate TreeOk(tree: Tree) {
    forall i {:trigger NodeOk(tree, i)} :: NodeOk(tree, i)
  }

  function Bump(tree: Tree, n: Ino, delta: int, i: Ino): Inode
    requires i in tree
  {
    tree[i].(refcount := tree[i].refcount + if Under(tree, n, i) then delta else 0)
  }

  ghost predicate Countable(tree: Tree, n: Ino, delta: int) {
    forall i {:trigger Under(tree, n, i)} :: Under(tree, n, i) ==>
      i in tree && tree[i].refcount >= 0 && (delta > 0 || tree[i].refcount > 0)
  }

  lemma {:induction false} UnderBelow(tree: Tree, i: Ino, n: Ino)
    requires Under(tree, i, n)
    ensures n <= i
    decreases i
  {
    if i != n {
      UnderBelow(tree, tree[i].parent.value, n);
    }
  }

  /** Which inodes are above which depends on parents only. */
  lemma {:induction false} UnderShape(tree: Tree, tree': Tree, i: Ino, n: Ino)
    requires TreeOk(tree) && i in tree
    requires forall j :: j in tree ==> j in tree' && tree'[j].parent == tree[j].parent
    ensures Under(tree', i, n) == Under(tree, i, n)
    decreases i
  {
    assert NodeOk(tree, i);
    if i != n && tree[i].parent.Some? {
      UnderShape(tree, tree', tree[i].parent.value, n);
    }
  }

  /** One step up: tree' is tree with n's count changed, m is n's parent. */
  lemma UnderUp(tree: Tree, n: Ino, node: Inode, i: Ino)
    requires TreeOk(tree) && n in tree && tree[n].parent.Some? && node.parent == tree[n].parent
    ensures var m := tree[n].parent.value;
            && m in tree && m < n
            && Under(tree[n := node], m, i) == Under(tree, m, i)
            && (Under(tree, n, i) <==> i == n || Under(tree, m, i)) && !Under(tree, m, n)
  {
    assert NodeOk(tree, n);
    var m := tree[n].parent.value;
    UnderShape(tree, tree[n := node], m, i);
    if Under(tree, m, n) {
      UnderBelow(tree, m, n);
    }
  }

  lemma CountableUp(tree: Tree, n: Ino, node: Inode, delta: int)
    requires TreeOk(tree) && n in tree && tree[n].parent.Some? && node.parent == tree[n].parent
    requires tree[n].refcount >= 0 && (delta > 0 || tree[n].refcount > 0)
    ensures Countable(tree[n := node], tree[n].parent.value, delta) <==> Countable(tree, n, delta)
  {
    var m, tree' := tree[n].parent.value, tree[n := node];
    if Countable(tree', m, delta) {
      forall i | Under(tree, n, i) ensures i in tree && tree[i].refcount >= 0 && (delta > 0 || tree[i].refcount > 0) {
        UnderUp(tree, n, node, i);
        UnderUp(tree, n, node, n);
        assert i == n || Under(tree', m, i);
      }
    }
    if Countable(tree, n, delta) {
      forall i | Under(tree', m, i)
          ensures i in tree' && tree'[i].refcount >= 0 && (delta > 0 || tree'[i].refcount > 0) {
        UnderUp(tree, n, node, i);
        UnderUp(tree, n, node, n);
        assert Under(tree, n, i);
      }
    }
  }

  lemma TreeOkUpdate(tree: Tree, n: Ino, node: Inode)
    requires TreeOk(tree) && n in tree && node.parent == tree[n].parent && node.children == tree[n].children
    ensures TreeOk(tree[n := node])
  {
    var tree' := tree[n := node];
    forall i ensures NodeOk(tree', i) {
      assert NodeOk(tree, i);
    }
  }

  /** The count of n changed, it remains to change those above it. */
  lemma BumpUp(tree: Tree, n: Ino, delta: int, i: Ino)
    requires TreeOk(tree) && n in tree && tree[n].parent.Some? && i in tree
    ensures var tree' := tree[n := tree[n].(refcount := tree[n].refcount + delta)];
            Bump(tree', tree[n].parent.value, delta, i) == Bump(tree, n, delta, i)
  {
    var node := tree[n].(refcount := tree[n].refcount + delta);
    UnderUp(tree, n, node, i);
    UnderUp(tree, n, node, n);
  }

  /** The walk to the root changes n and the directories above it, each by delta, and nothing else;
      its KASSERTs hold exactly if every one of those counts allows it. */
  lemma {:induction false} AdjustMeans(tree: Tree, n: Ino, delta: int)
    requires TreeOk(tree) && n in tree
    ensures Adjust(tree, n, delta).Some? <==> Countable(tree, n, delta)
    ensures Adjust(tree, n, delta).Some? ==>
              && Adjust(tree, n, delta).value.Keys == tree.Keys
              && forall i :: i in tree ==> Adjust(tree, n, delta).value[i] == Bump(tree, n, delta, i)
    decreases n
  {
    assert NodeOk(tree, n) && Under(tree, n, n);
    if tree[n].refcount >= 0 && (delta > 0 || tree[n].refcount > 0) && tree[n].parent.Some? {
      var m, node := tree[n].parent.value, tree[n].(refcount := tree[n].refcount + delta);
      var tree' := tree[n := node];
      TreeOkUpdate(tree, n, node);
      AdjustMeans(tree', m, delta);
      CountableUp(tree, n, node, delta);
      forall i | i in tree ensures Bump(tree', m, delta, i) == Bump(tree, n, delta, i) {
        BumpUp(tree, n, delta, i);
      }
    }
  }

  /** strncmp(name, other, VFS_NAMELEN_MAX) == 0 */
  predicate SameName(name: string, other: string) {
    (if |name| <= VFS_NAMELEN_MAX then name else name[..VFS_NAMELEN_MAX]) ==
    (if |other| <= VFS_NAMELEN_MAX then other else other[..VFS_NAMELEN_MAX])
  }

  /** The child found in memory. The name is compared with the name of the directory itself, so
      whichever name is asked for, it is the first child or none. */
  function ChildInMemory(dir: Inode, name: string): Option<Ino> {
    if dir.children != [] && SameName(name, dir.name) then Some(dir.children[0]) else None
  }

  /** Inode ino appended to the child list of a directory. */
  function Listed(dir: Inode, ino: Ino): Inode {
    dir.(children := Appended(dir.children, ino), looped := ClosesLoop(dir.children, ino))
  }

  /** The search comes to an end: at the first child, or at the end of the list, if it has one. */
  predicate SearchEnds(dir: Inode, name: string) {
    SameName(name, dir.name) || !dir.looped
  }

  /** The first of the children that bears the name asked for: what the search is meant to find. */
  function NamedChild(tree: Tree, children: seq<Ino>, name: string): (r: Option<Ino>)
    requires forall c :: c in children ==> c in tree
    ensures r.None? <==> forall c :: c in children ==> !SameName(name, tree[c].name)
    ensures r.Some? ==> r.value in children && SameName(name, tree[r.value].name)
  {
    if children == [] then None
    else if SameName(name, tree[children[0]].name) then Some(children[0])
    else NamedChild(tree, children[1..], name)
  }

  /** The search finds the child meant, or rightly none, exactly if there are no children; or the
      directory bears the name and so does its first child; or neither it nor any child does. */
  lemma SearchRight(tree: Tree, dir: Ino, name: string)
    requires TreeOk(tree) && dir in tree
    ensures forall c :: c in tree[dir].children ==> c in tree
    ensures var children := tree[dir].children;
            ChildInMemory(tree[dir], name) == NamedChild(tree, children, name) <==>
              || children == []
              || (SameName(name, tree[dir].name) && SameName(name, tree[children[0]].name))
              || (!SameName(name, tree[dir].name) && forall c :: c in children ==> !SameName(name, tree[c].name))
  {
    assert NodeOk(tree, dir);
    var children := tree[dir].children;
    if children != [] && SameName(name, tree[dir].name) && !SameName(name, tree[children[0]].name) {
      assert NamedChild(tree, children, name) != Some(children[0]);
    }
  }

  /** A directory "usr" with child "bin": asked for "bin", the search finds nothing; asked for "usr", it
      finds "bin". */
  lemma SearchWrong()
    ensures var tree := map[0 := Inode(None, true, "usr", [1], 1, false, false),
             1 := Inode(Some(0), true, "bin", [], 1, false, false)];
            && TreeOk(tree)
            && ChildInMemory(tree[0], "bin") == None && NamedChild(tree, tree[0].children, "bin") == Some(1)
            && ChildInMemory(tree[0], "usr") == Some(1) && NamedChild(tree, tree[0].children, "usr") == None
  {
    var tree := map[0 := Inode(None, true, "usr", [1], 1, false, false),
                    1 := Inode(Some(0), true, "bin", [], 1, false, false)];
    forall i ensures NodeOk(tree, i) {}
    assert "usr"[0] != "bin"[0];
    assert [1][1..] == [];
  }

  /** The inodes in memory, as vfs.c updates them. */
  class FileTree {
    var inodes: Tree

    constructor ()
      ensures inodes == map[]
    {
      inodes := map[];
    }

    /** vfs_adjust_refcounts. ok is false if a KASSERT fails on the way. */
    method AdjustRefcounts(inode: Ino, delta: int) returns (ok: bool)
      requires TreeOk(inodes) && inode in inodes
      modifies this
      ensures ok == Adjust(old(inodes), inode, delta).Some?
      ensures ok ==> inodes == Adjust(old(inodes), inode, delta).value
    {
      var next := Some(inode);
      ok := true;
      while next.Some? && ok
        invariant TreeOk(inodes) && (next.Some? ==> next.value in inodes)
        invariant ok ==> Adjust(old(inodes), inode, delta) == if next.Some? then Adjust(inodes, next.value, delta)
                 else Some(inodes)
        invariant !ok ==> Adjust(old(inodes), inode, delta).None?
        decreases if next.Some? then next.value + 1 else 0, ok
      {
        var i := next.value;
        assert NodeOk(inodes, i);
        if inodes[i].refcount >= 0 && (delta > 0 || inodes[i].refcount > 0) {
          TreeOkUpdate(inodes, i, inodes[i].(refcount := inodes[i].refcount + delta));
          inodes := inodes[i := inodes[i].(refcount := inodes[i].refcount + delta)];
          next := inodes[i].parent;
        } else {
          ok := false;
        }
      }
    }

    /** The search of the child list in vfs_lookup_child, if it ends. */
    method SearchChildren(dir: Ino, name: string) returns (child: Option<Ino>)
      requires dir in inodes && SearchEnds(inodes[dir], name)
      ensures child == ChildInMemory(inodes[dir], name)
    {
      var i := 0;
      child := None;
      while i < |inodes[dir].children|
        invariant 0 <= i <= |inodes[dir].children|
        invariant i > 0 ==> !SameName(name, inodes[dir].name)
      {
        if SameName(name, inodes[dir].name) {
          return Some(inodes[dir].children[i]);
        }
        i := i + 1;
      }
    }
  }
}
