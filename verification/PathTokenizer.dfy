/** Taking a path apart, in place and one element at a time (vfs.c). A path is a string whose end
    stands for the terminating NUL. */
module PathTokenizer {
  import opened Common

  const VFS_PATHLEN_MAX := 1023
  const VFS_NAMELEN_MAX := 255

  /** The first position from p on with a separator, or the end. */
  function End(path: string, p: nat): (e: nat)
    requires p <= |path|
    ensures p <= e <= |path| && (e < |path| ==> path[e] == '/')
    ensures forall i :: p <= i < e ==> path[i] != '/'
    decreases |path| - p
  {
    if p == |path| || path[p] == '/' then p else End(path, p + 1)
  }

  /** The first position from p on without a separator, or the end. */
  function Skip(path: string, p: nat): (e: nat)
    requires p <= |path|
    ensures p <= e <= |path| && (e < |path| ==> path[e] != '/')
    ensures forall i :: p <= i < e ==> path[i] == '/'
    decreases |path| - p
  {
    if p == |path| || path[p] != '/' then p else Skip(path, p + 1)
  }

  lemma EndUnique(path: string, p: nat, e: nat)
    requires p <= e <= |path| && (e < |path| ==> path[e] == '/') && forall i :: p <= i < e ==> path[i] != '/'
    ensures End(path, p) == e
  {
  }

  lemma SkipUnique(path: string, p: nat, e: nat)
    requires p <= e <= |path| && (e < |path| ==> path[e] != '/') && forall i :: p <= i < e ==> path[i] == '/'
    ensures Skip(path, p) == e
  {
  }

  datatype Span = Span(from: nat, to: nat)

  /** A maximal run of characters other than separators. */
  predicate IsRun(path: string, s: Span) {
    && s.from < s.to <= |path|
    && (forall i :: s.from <= i < s.to ==> path[i] != '/')
    && (s.from == 0 || path[s.from - 1] == '/')
    && (s.to == |path| || path[s.to] == '/')
  }

  /** Where an element may begin: the start of a run, or the end. */
  predicate AtElement(path: string, p: nat) {
    p <= |path| && (p < |path| ==> path[p] != '/') && (p == 0 || p == |path| || path[p - 1] == '/')
  }

  /** The elements from p on, up to the first that is too long. */
  function Elements(path: string, p: nat): (r: seq<Span>)
    requires p <= |path|
    ensures forall i :: 0 <= i < |r| ==> p <= r[i].from < r[i].to <= |path|
    decreases |path| - p
  {
    var e := End(path, p);
    if p == e || e - p > VFS_NAMELEN_MAX then [] else [Span(p, e)] + Elements(path, Skip(path, e))
  }

  /** The names of the elements. */
  function Names(path: string, p: nat): (r: seq<string>)
    requires p <= |path|
    ensures |r| == |Elements(path, p)|
    decreases |path| - p
  {
    var e := End(path, p);
    if p == e || e - p > VFS_NAMELEN_MAX then [] else [path[p..e]] + Names(path, Skip(path, e))
  }

  /** Where the iteration stops: the end, or the first element that is too long. */
  function Stop(path: string, p: nat): (r: nat)
    requires p <= |path|
    ensures p <= r <= |path|
    decreases |path| - p
  {
    var e := End(path, p);
    if p == e || e - p > VFS_NAMELEN_MAX then p else Stop(path, Skip(path, e))
  }

  /** vfs_get_next_path_element: copies the element at p into the name buffer, with a NUL after it. */
  method NextPathElement(path: string, p: nat, namebuf: array<char>) returns (rc: int, next: nat)
    requires p <= |path| && (p < |path| ==> path[p] != '/')
    requires namebuf.Length > VFS_NAMELEN_MAX
    modifies namebuf
    ensures rc == (if End(path, p) - p > VFS_NAMELEN_MAX then EINVAL else 0)
    ensures rc != 0 ==> next == p && namebuf[..] == old(namebuf[..])
    ensures rc == 0 ==> next == Skip(path, End(path, p))
    ensures rc == 0 ==> namebuf[..End(path, p) - p] == path[p..End(path, p)] && namebuf[End(path, p) - p] == '\0'
  {
    var q := p;
    while q < |path| && path[q] != '/'
      invariant p <= q <= |path| && forall i :: p <= i < q ==> path[i] != '/'
    {
      q := q + 1;
    }
    EndUnique(path, p, q);
    var namelen := q - p;
    if namelen > VFS_NAMELEN_MAX {
      return EINVAL, p;
    }
    for i := 0 to namelen
      invariant forall k :: 0 <= k < i ==> namebuf[k] == path[p + k]
    {
      namebuf[i] := path[p + i];
    }
    namebuf[namelen] := '\0';
    assert namebuf[..namelen] == path[p..q];
    var r := q;
    while r < |path| && path[r] == '/'
      invariant q <= r <= |path| && forall i :: q <= i < r ==> path[i] == '/'
    {
      r := r + 1;
    }
    SkipUnique(path, q, r);
    return 0, r;
  }

  /** One turn of the iteration: the element at p, read back from the name buffer. */
  method NextName(path: string, p: nat, namebuf: array<char>) returns (rc: int, name: string, next: nat)
    requires '\0' !in path && p <= |path| && (p < |path| ==> path[p] != '/')
    requires namebuf.Length > VFS_NAMELEN_MAX
    modifies namebuf
    ensures rc == (if End(path, p) - p > VFS_NAMELEN_MAX then EINVAL else 0)
    ensures rc == 0 ==> name == path[p..End(path, p)] && next == Skip(path, End(path, p))
  {
    name := "";
    rc, next := NextPathElement(path, p, namebuf);
    if rc == 0 {
      name := ReadName(namebuf, path[p..End(path, p)]);
    }
  }

  /** The iteration of vfs_lookup_inode over a path. */
  method AllElements(path: string) returns (names: seq<string>, rc: int)
    requires '\0' !in path && (path == [] || path[0] != '/')
    ensures names == Names(path, 0)
    ensures rc == if Stop(path, 0) == |path| then 0 else EINVAL
  {
    var p := 0;
    names, rc := [], 0;
    var namebuf := new char[VFS_NAMELEN_MAX + 1];
    while p < |path|
      invariant p <= |path| && (p < |path| ==> path[p] != '/') && fresh(namebuf)
      invariant Names(path, 0) == names + Names(path, p) && Stop(path, 0) == Stop(path, p) && rc == 0
      decreases |path| - p
    {
      var name, next;
      rc, name, next := NextName(path, p, namebuf);
      if rc != 0 {
        return;
      }
      assert Names(path, p) == [name] + Names(path, next);
      names := names + [name];
      p := next;
    }
  }

  /** The string in the name buffer. */
  method ReadName(namebuf: array<char>, ghost name: string) returns (r: string)
    requires '\0' !in name && |name| < namebuf.Length && namebuf[..|name|] == name && namebuf[|name|] == '\0'
    ensures r == name
  {
    assert forall k :: 0 <= k < |name| ==> namebuf[..|name|][k] == namebuf[k] && name[k] != '\0';
    var len := 0;
    while namebuf[len] != '\0'
      invariant 0 <= len <= |name|
      decreases |name| - len
    {
      len := len + 1;
    }
    r := namebuf[..len];
  }

  // ------------------------------------------------- the elements are the maximal runs

  /** Every element is a maximal run, of legal length, and its name is what stands there. */
  lemma {:induction false} ElementsAreRuns(path: string, p: nat)
    requires AtElement(path, p)
    ensures forall i :: 0 <= i < |Elements(path, p)| ==>
              && IsRun(path, Elements(path, p)[i])
                  && Elements(path, p)[i].to - Elements(path, p)[i].from <= VFS_NAMELEN_MAX
              && Names(path, p)[i] == path[Elements(path, p)[i].from..Elements(path, p)[i].to]
    ensures forall i, j :: 0 <= i < j < |Elements(path, p)| ==> Elements(path, p)[i].to < Elements(path, p)[j].from
    decreases |path| - p
  {
    var e := End(path, p);
    if p != e && e - p <= VFS_NAMELEN_MAX {
      var next := Skip(path, e);
      ElementsAreRuns(path, next);
      assert IsRun(path, Span(p, e));
    }
  }

  /** Conversely, every maximal run is an element, but for those behind the stop; and there is a stop
      before the end only at a run that is too long. */
  lemma {:induction false} RunsAreElements(path: string, p: nat, s: Span)
    requires AtElement(path, p) && IsRun(path, s) && p <= s.from
    ensures s.from < Stop(path, p) <==> s in Elements(path, p)
    decreases |path| - p
  {
    var e := End(path, p);
    if p != e && e - p <= VFS_NAMELEN_MAX {
      var next := Skip(path, e);
      if s.from < e {
        assert s.from == p && s.to == e;
      } else {
        assert path[s.from] != '/' && s.from >= next;
        RunsAreElements(path, next, s);
      }
    }
  }

  /** The iteration stops at the end, or at a run that is too long. */
  lemma {:induction false} StopsOnlyForLength(path: string, p: nat)
    requires AtElement(path, p)
    ensures AtElement(path, Stop(path, p))
    ensures var r := Stop(path, p);
            r < |path| ==> IsRun(path, Span(r, End(path, r))) && End(path, r) - r > VFS_NAMELEN_MAX
    decreases |path| - p
  {
    var e := End(path, p);
    if p != e && e - p <= VFS_NAMELEN_MAX {
      StopsOnlyForLength(path, Skip(path, e));
    }
  }

  // ----------------------------------------------------------------------- round trip

  predicate LegalName(name: string) {
    0 < |name| <= VFS_NAMELEN_MAX && '/' !in name
  }

  function Slashes(n: nat): (r: string)
    ensures |r| == n && forall i :: 0 <= i < n ==> r[i] == '/'
  {
    if n == 0 then "" else "/" + Slashes(n - 1)
  }

  /** names, each followed by as many separators as seps says. */
  function Join(names: seq<string>, seps: seq<nat>): string
    requires |names| == |seps|
  {
    if names == [] then "" else names[0] + Slashes(seps[0]) + Join(names[1..], seps[1..])
  }

  /** Only the last name may do without a separator after it. */
  predicate Separated(seps: seq<nat>) {
    forall i :: 0 <= i < |seps| - 1 ==> seps[i] > 0
  }

  lemma JoinStart(names: seq<string>, seps: seq<nat>)
    requires |names| == |seps| && forall i :: 0 <= i < |names| ==> LegalName(names[i])
    ensures names != [] ==> Join(names, seps) != "" && Join(names, seps)[0] != '/'
  {
  }

  /** Where the parts of a path begin. */
  lemma Parts(path: string, p: nat, name: string, slashes: string, after: string)
    requires p <= |path| && path[p..] == name + slashes + after
    requires LegalName(name) && forall i :: 0 <= i < |slashes| ==> slashes[i] == '/'
    requires after == "" || (slashes != "" && after[0] != '/')
    ensures End(path, p) == p + |name| && path[p..p + |name|] == name
    ensures Skip(path, p + |name|) == p + |name| + |slashes|
  {
    var e, r := p + |name|, p + |name| + |slashes|;
    assert |path| == r + |after|;
    assert path[p..e] == path[p..][..|name|] == name;
    forall i | p <= i < e ensures path[i] != '/' {
      assert path[i] == path[p..][i - p] == name[i - p];
    }
    forall i | e <= i < r ensures path[i] == '/' {
      assert path[i] == path[p..][i - p] == slashes[i - e];
    }
    assert after != "" ==> path[r] == path[p..][r - p] == after[0];
    EndUnique(path, p, e);
    SkipUnique(path, e, r);
  }

  /** The first of the names joined is the first element, and the rest comes after it. */
  lemma FirstJoined(path: string, p: nat, names: seq<string>, seps: seq<nat>) returns (next: nat)
    requires |names| == |seps| && Separated(seps) && forall i :: 0 <= i < |names| ==> LegalName(names[i])
    requires names != [] && p <= |path| && path[p..] == Join(names, seps)
    ensures p <= next <= |path| && path[next..] == Join(names[1..], seps[1..])
    ensures End(path, p) == p + |names[0]| && path[p..End(path, p)] == names[0] && Skip(path, End(path, p)) == next
  {
    var name, slashes, after := names[0], Slashes(seps[0]), Join(names[1..], seps[1..]);
    JoinStart(names[1..], seps[1..]);
    Parts(path, p, name, slashes, after);
    next := p + |name| + |slashes|;
    assert path[next..] == path[p..][|name| + |slashes|..];
  }

  lemma {:induction false} JoinedFrom(path: string, p: nat, names: seq<string>, seps: seq<nat>)
    requires |names| == |seps| && Separated(seps) && forall i :: 0 <= i < |names| ==> LegalName(names[i])
    requires p <= |path| && path[p..] == Join(names, seps)
    ensures Names(path, p) == names && Stop(path, p) == |path|
    decreases |names|
  {
    if names == [] {
      assert p == |path|;
    } else {
      var next := FirstJoined(path, p, names, seps);
      assert LegalName(names[0]);
      JoinedFrom(path, next, names[1..], seps[1..]);
      assert Names(path, p) == [names[0]] + Names(path, next);
      assert names == [names[0]] + names[1..];
    }
  }

  /** Joining legal names with one or more separators and taking the path apart gives the names back. */
  lemma JoinThenNames(names: seq<string>, seps: seq<nat>)
    requires |names| == |seps| && Separated(seps) && forall i :: 0 <= i < |names| ==> LegalName(names[i])
    ensures Names(Join(names, seps), 0) == names && Stop(Join(names, seps), 0) == |Join(names, seps)|
  {
    JoinedFrom(Join(names, seps), 0, names, seps);
  }
}
