/** What the kernel heap is, apart from the bytes that encode it: an address-ordered run of
    chunks, some of them free. The transitions below are those of malloc and free; the lemmas
    say what they keep over every run. */
module HeapLayout {
  import opened Memory

  /** A chunk at address a is a header of W bytes followed by size[a] payload bytes. */
  datatype Layout = Layout(size: map<int, nat>, free: set<int>, brk: int) {

    function End(a: int): int
      requires a in size
    {
      a + W + size[a]
    }

    /** Chunks handed out and not yet returned. */
    function Live(): set<int> {
      size.Keys - free
    }
  }

  /** The chunk at a ends where the next one begins, or at the break. */
  ghost predicate Followed(l: Layout, a: int) {
    a in l.size ==> l.End(a) == l.brk || l.End(a) in l.size
  }

  /** If the chunk at a is free, no free chunk begins where it ends. */
  ghost predicate Apart(l: Layout, a: int) {
    a in l.free && a in l.size ==> l.End(a) !in l.free
  }

  /** The chunks tile the used heap without gap or overlap. */
  ghost predicate Tiled(l: Layout, start: int, end: int) {
    && 0 < start <= l.brk <= end
    && l.free <= l.size.Keys
    && (l.brk != start ==> start in l.size)
    && (forall a :: a in l.size ==> start <= a && W <= l.size[a] && l.End(a) <= l.brk)
    && (forall a {:trigger Followed(l, a)} :: Followed(l, a))
    && (forall a, b :: a in l.size && b in l.size && a < b ==> l.End(a) <= b)
  }

  ghost predicate WellFormed(l: Layout, start: int, end: int) {
    && Tiled(l, start, end)
    && (forall a {:trigger Apart(l, a)} :: Apart(l, a))
  }

  /** n is the first free chunk after address a, or 0. */
  ghost predicate IsNext(free: set<int>, a: int, n: int) {
    || (n == 0 && forall b :: b in free ==> b <= a)
    || (n in free && a < n && forall b :: b in free && a < b ==> n <= b)
  }

  // ---------------------------------------------------------------- malloc

  /** A freed chunk must be able to hold a free-list link. */
  function Need(len: nat): nat {
    if len < W then W else len
  }

  ghost predicate Fits(l: Layout, need: nat, c: int) {
    c in l.free && c in l.size && need <= l.size[c]
  }

  /** The smallest free chunk that fits, the lowest of them on a tie. */
  ghost predicate BestFit(l: Layout, need: nat, c: int) {
    && Fits(l, need, c)
    && forall b :: Fits(l, need, b) ==> l.size[c] < l.size[b] || (l.size[c] == l.size[b] && c <= b)
  }

  /** Whether the rest of chunk c would be too small to be a chunk of its own. */
  predicate WholeChunk(l: Layout, need: nat, c: int)
    requires c in l.size
  {
    l.size[c] - need < 2 * W
  }

  /** The chunk handed out when c serves a request. */
  function Served(l: Layout, need: nat, c: int): int
    requires c in l.size
  {
    if WholeChunk(l, need, c) then c else c + l.size[c] - need
  }

  function Serve(l: Layout, need: nat, c: int): Layout
    requires c in l.size
  {
    if WholeChunk(l, need, c) then
      l.(free := l.free - {c})
    else
      l.(size := l.size[c := l.size[c] - need - W][Served(l, need, c) := need])
  }

  function Extend(l: Layout, need: nat): Layout {
    l.(size := l.size[l.brk := need], brk := l.brk + W + need)
  }

  /** malloc(len) may turn l into l' and return r. */
  ghost predicate Malloc(l: Layout, end: int, len: nat, l': Layout, r: int) {
    var need := Need(len);
    && (forall c :: BestFit(l, need, c) ==> l' == Serve(l, need, c) && r == Served(l, need, c) + W)
    && ((forall c :: !Fits(l, need, c)) ==>
          if l.brk + W + need <= end
          then l' == Extend(l, need) && r == l.brk + W
          else l' == l && r == 0)
  }

  // ------------------------------------------------------------------ free

  /** Chunk b swallows chunk c, which begins where b ends. */
  function Join(l: Layout, b: int, c: int, free: set<int>): Layout
    requires b in l.size && c in l.size
  {
    Layout(l.size[b := l.size[b] + l.size[c] + W] - {c}, free, l.brk)
  }

  function MergeUp(l: Layout, c: int): Layout
    requires c in l.size
  {
    var e := l.End(c);
    if e in l.free && e in l.size then Join(l, c, e, l.free - {e}) else l
  }

  ghost predicate TouchesBelow(l: Layout, b: int, c: int) {
    b in l.free && b in l.size && l.End(b) == c
  }

  ghost function MergeDown(l: Layout, c: int): Layout
    requires c in l.size
  {
    if exists b :: TouchesBelow(l, b, c) then
      var b :| TouchesBelow(l, b, c);
      Join(l, b, c, l.free - {c})
    else
      l
  }

  /** Returning live chunk c: it becomes free and melts into the free chunks it touches. */
  ghost function Release(l: Layout, c: int): Layout
    requires c in l.size && c !in l.free
  {
    var up := MergeUp(l, c);
    MergeDown(up.(free := up.free + {c}), c)
  }

  // ------------------------------------------------------------- invariants

  lemma SplitKeepsOrder(l: Layout, start: int, end: int, need: nat, c: int)
    requires Tiled(l, start, end) && W <= need && Fits(l, need, c) && !WholeChunk(l, need, c)
    ensures Served(l, need, c) !in l.size
    ensures var l' := Serve(l, need, c);
            forall a, b :: a in l'.size && b in l'.size && a < b ==> l'.End(a) <= b
  {
    var l', cp := Serve(l, need, c), Served(l, need, c);
    assert c < cp < l.End(c);
    assert cp !in l.size;
    forall a, b | a in l'.size && b in l'.size && a < b ensures l'.End(a) <= b {
      if a == cp {
        assert l.End(c) <= b;
      } else if b == cp {
        assert a == c || l.End(a) <= c;
      } else {
        assert l.End(a) <= b;
      }
    }
  }

  lemma SplitTiles(l: Layout, start: int, end: int, need: nat, c: int)
    requires Tiled(l, start, end) && W <= need && Fits(l, need, c) && !WholeChunk(l, need, c)
    ensures Served(l, need, c) !in l.size
    ensures Tiled(Serve(l, need, c), start, end)
  {
    SplitKeepsOrder(l, start, end, need, c);
    var l', cp := Serve(l, need, c), Served(l, need, c);
    assert l'.End(c) == cp && l'.End(cp) == l.End(c);
    forall a ensures Followed(l', a) {
      assert Followed(l, a) && Followed(l, c);
    }
  }

  lemma ServeKeeps(l: Layout, start: int, end: int, need: nat, c: int)
    requires WellFormed(l, start, end) && W <= need && Fits(l, need, c)
    ensures WellFormed(Serve(l, need, c), start, end)
    ensures Served(l, need, c) !in l.Live() && Served(l, need, c) in Serve(l, need, c).size
    ensures need <= Serve(l, need, c).size[Served(l, need, c)]
    ensures Serve(l, need, c).Live() == l.Live() + {Served(l, need, c)}
    ensures forall a :: a in l.Live() ==> Serve(l, need, c).size[a] == l.size[a]
  {
    var l' := Serve(l, need, c);
    if WholeChunk(l, need, c) {
      forall a ensures Followed(l', a) {
        assert Followed(l, a);
      }
    } else {
      SplitTiles(l, start, end, need, c);
    }
    forall a ensures Apart(l', a) {
      assert Apart(l, a) && Apart(l, c);
    }
  }

  lemma ExtendKeeps(l: Layout, start: int, end: int, need: nat)
    requires WellFormed(l, start, end) && W <= need && l.brk + W + need <= end
    ensures WellFormed(Extend(l, need), start, end)
    ensures l.brk !in l.size
    ensures Extend(l, need).Live() == l.Live() + {l.brk}
  {
    var l' := Extend(l, need);
    forall a ensures Followed(l', a) && Apart(l', a) {
      assert Followed(l, a) && Apart(l, a);
    }
  }

  /** Any two neighbours, free or not, can be joined into one chunk. */
  lemma JoinTiles(l: Layout, start: int, end: int, b: int, c: int, free: set<int>)
    requires Tiled(l, start, end) && b in l.size && c in l.size && l.End(b) == c
    requires free <= l.size.Keys - {c}
    ensures Tiled(Join(l, b, c, free), start, end)
  {
    var l' := Join(l, b, c, free);
    assert l'.End(b) == l.End(c);
    forall a ensures Followed(l', a) {
      assert Followed(l, a) && Followed(l, c);
      assert a in l.size && a != b ==> l.End(a) != c;
    }
  }

  lemma MergeUpKeeps(l: Layout, start: int, end: int, c: int)
    requires WellFormed(l, start, end) && c in l.Live()
    ensures WellFormed(MergeUp(l, c), start, end)
    ensures c in MergeUp(l, c).size && MergeUp(l, c).End(c) !in MergeUp(l, c).free
    ensures MergeUp(l, c).Live() == l.Live()
    ensures forall a :: a in l.Live() && a != c ==> MergeUp(l, c).size[a] == l.size[a]
  {
    var e, l' := l.End(c), MergeUp(l, c);
    if e in l.free {
      JoinTiles(l, start, end, c, e, l.free - {e});
      assert Apart(l, e);
      forall a ensures Apart(l', a) {
        assert Apart(l, a);
      }
    }
  }

  lemma JoinDownKeeps(l: Layout, start: int, end: int, b: int, c: int)
    requires Tiled(l, start, end) && c in l.free && TouchesBelow(l, b, c)
    requires forall a {:trigger Apart(l, a)} :: Apart(l, a) || TouchesBelow(l, a, c)
    ensures WellFormed(Join(l, b, c, l.free - {c}), start, end)
  {
    var l' := Join(l, b, c, l.free - {c});
    JoinTiles(l, start, end, b, c, l.free - {c});
    assert forall a :: TouchesBelow(l, a, c) ==> a == b;
    assert Apart(l, c) || TouchesBelow(l, c, c);
    assert l'.End(b) == l.End(c);
    forall a ensures Apart(l', a) {
      assert Apart(l, a) || TouchesBelow(l, a, c);
    }
  }

  lemma MergeDownKeeps(l: Layout, start: int, end: int, c: int)
    requires Tiled(l, start, end) && c in l.free
    requires forall a {:trigger Apart(l, a)} :: Apart(l, a) || TouchesBelow(l, a, c)
    ensures WellFormed(MergeDown(l, c), start, end)
    ensures MergeDown(l, c).Live() == l.Live()
    ensures forall a :: a in l.Live() ==> MergeDown(l, c).size[a] == l.size[a]
  {
    if b :| TouchesBelow(l, b, c) && MergeDown(l, c) == Join(l, b, c, l.free - {c}) {
      JoinDownKeeps(l, start, end, b, c);
    } else {
      assert forall b :: !TouchesBelow(l, b, c);
    }
  }

  lemma ReleaseKeeps(l: Layout, start: int, end: int, c: int)
    requires WellFormed(l, start, end) && c in l.Live()
    ensures WellFormed(Release(l, c), start, end)
    ensures Release(l, c).Live() == l.Live() - {c}
    ensures forall a :: a in l.Live() && a != c ==> Release(l, c).size[a] == l.size[a]
  {
    MergeUpKeeps(l, start, end, c);
    var up := MergeUp(l, c);
    var mid := up.(free := up.free + {c});
    forall a ensures Followed(mid, a) && (Apart(mid, a) || TouchesBelow(mid, a, c)) {
      assert Followed(up, a) && Apart(up, a);
    }
    MergeDownKeeps(mid, start, end, c);
  }

  /** free after a malloc that the free list served gives the old heap back, chunk for chunk. */
  lemma FreeUndoesMalloc(l: Layout, start: int, end: int, need: nat, c: int)
    requires WellFormed(l, start, end) && W <= need && Fits(l, need, c)
    ensures Served(l, need, c) in Serve(l, need, c).Live()
    ensures Release(Serve(l, need, c), Served(l, need, c)) == l
  {
    ServeKeeps(l, start, end, need, c);
    var l', r := Serve(l, need, c), Served(l, need, c);
    assert l'.End(r) == l.End(c);
    assert Apart(l, c);
    assert l'.End(r) !in l'.free;
    var mid := l'.(free := l'.free + {r});
    assert MergeUp(l', r) == l';
    if WholeChunk(l, need, c) {
      forall b ensures !TouchesBelow(mid, b, c) {
        assert Apart(l, b);
      }
      assert mid == l;
    } else {
      assert TouchesBelow(mid, c, r);
      assert forall b :: TouchesBelow(mid, b, r) ==> b == c;
      var back := Join(mid, c, r, mid.free - {r});
      assert back.size == l.size;
      assert back.free == l.free;
    }
  }

  // ------------------------------------------------------- what tiling means

  /** The chunks from the one at a upwards cover every address up to the break. */
  lemma {:induction false} CoversFrom(l: Layout, start: int, end: int, a: int, x: int) returns (c: int)
    requires Tiled(l, start, end) && a in l.size && a <= x < l.brk
    ensures c in l.size && c <= x < l.End(c)
    decreases l.brk - a
  {
    if x < l.End(a) {
      c := a;
    } else {
      assert Followed(l, a);
      c := CoversFrom(l, start, end, l.End(a), x);
    }
  }

  /** Every byte of the used heap belongs to exactly one chunk. */
  lemma EveryByteInOneChunk(l: Layout, start: int, end: int, x: int)
    requires Tiled(l, start, end) && start <= x < l.brk
    ensures exists c :: c in l.size && c <= x < l.End(c)
    ensures forall c, d :: c in l.size && c <= x < l.End(c) && d in l.size && d <= x < l.End(d) ==> c == d
  {
    var _ := CoversFrom(l, start, end, start, x);
  }

  ghost predicate OneFreeChunk(l: Layout, start: int) {
    if l.brk == start then
      l.size == map[] && l.free == {}
    else
      l.size.Keys == {start} && l.End(start) == l.brk && l.free == {start}
  }

  /** When nothing is live, one free chunk spans the used heap. */
  lemma NothingLiveOneChunk(l: Layout, start: int, end: int)
    requires WellFormed(l, start, end) && l.Live() == {}
    ensures OneFreeChunk(l, start)
  {
    assert forall a :: a in l.size ==> a in l.free || a in l.Live();
    if l.brk != start {
      assert Followed(l, start) && Apart(l, start);
      assert l.End(start) == l.brk;
      assert forall a :: a in l.size ==> a == start;
    } else {
      assert forall a :: a !in l.size;
    }
  }

  // ------------------------------------------------------------------- runs

  /** The free chunks that would serve a request better than chunk c. */
  ghost function Better(l: Layout, need: nat, c: int): set<int>
    requires c in l.size
  {
    set b | b in l.free && Fits(l, need, b) && (l.size[b] < l.size[c] || (l.size[b] == l.size[c] && b < c))
  }

  lemma {:induction false} BestFitExists(l: Layout, need: nat, c: int) returns (best: int)
    requires Fits(l, need, c)
    ensures BestFit(l, need, best)
    decreases Better(l, need, c)
  {
    if b :| b in Better(l, need, c) {
      assert b !in Better(l, need, b);
      best := BestFitExists(l, need, b);
    } else {
      assert forall b :: Fits(l, need, b) ==> b !in Better(l, need, c);
      best := c;
    }
  }

  /** malloc takes room for a link at least, and less than another header and link more than asked. It
      returns 0 exactly when neither a free chunk nor the rest of the heap can hold that; otherwise it grants
      a new live chunk and disturbs no other. */
  lemma MallocGrants(l: Layout, start: int, end: int, len: nat, l': Layout, r: int)
    requires WellFormed(l, start, end) && Malloc(l, end, len, l', r)
    ensures WellFormed(l', start, end)
    ensures var n := if len < W then W else len;
            && (r == 0 <==> (forall c :: c in l.free && c in l.size ==> l.size[c] < n) && end < l.brk + W + n)
            && (r != 0 ==> r - W in l'.size && n <= l'.size[r - W] < n + 2 * W)
            && (l'.brk != l.brk ==> forall c :: c in l.free && c in l.size ==> l.size[c] < n)
    ensures r == 0 ==> l' == l
    ensures r != 0 ==> r - W !in l.Live() && l'.Live() == l.Live() + {r - W}
    ensures forall a :: a in l.Live() ==> a in l'.Live() && l'.size[a] == l.size[a]
  {
    var n := Need(len);
    if c :| Fits(l, n, c) {
      var best := BestFitExists(l, n, c);
      ServeKeeps(l, start, end, n, best);
    } else {
      assert forall c :: c in l.free && c in l.size ==> !Fits(l, n, c);
      if l.brk + W + n <= end {
        ExtendKeeps(l, start, end, n);
      }
    }
  }

  /** Chunk c is the smallest free chunk of at least n bytes, the lowest of them on a tie. */
  ghost predicate SmallestOf(l: Layout, n: nat, c: int) {
    && c in l.free && c in l.size && n <= l.size[c]
    && forall b :: b in l.free && b in l.size && n <= l.size[b] ==>
         l.size[c] < l.size[b] || (l.size[c] == l.size[b] && c <= b)
  }

  /** Where malloc takes it: from the smallest free chunk that has it, all of it, or the n bytes at its top
      with a header, if what is left can be a chunk; else at the break. */
  lemma MallocPlaces(l: Layout, end: int, len: nat, l': Layout, r: int)
    requires Malloc(l, end, len, l', r)
    ensures var n := if len < W then W else len;
            && (forall c :: SmallestOf(l, n, c) ==>
                  if l.size[c] < n + 2 * W
                  then r == c + W && l' == l.(free := l.free - {c})
                  else r == l.End(c) - n && l' == l.(size := l.size[c := l.size[c] - n - W][r - W := n]))
            && (r != 0 && (forall c :: c in l.free && c in l.size ==> l.size[c] < n) ==>
                  r == l.brk + W && l' == l.(size := l.size[l.brk := n], brk := l.brk + W + n))
  {
    var n := Need(len);
    forall c | SmallestOf(l, n, c) ensures BestFit(l, n, c) {}
  }

  datatype Call = MallocCall(len: nat, result: int) | FreeCall(p: int)

  ghost predicate Step(l: Layout, call: Call, l': Layout, end: int) {
    match call
    case MallocCall(len, r) => Malloc(l, end, len, l', r)
    case FreeCall(p) => if p == 0 then l' == l else p - W in l.Live() && l' == Release(l, p - W)
  }

  /** heaps[i] is the heap before calls[i]. */
  ghost predicate IsRun(heaps: seq<Layout>, calls: seq<Call>, start: int, end: int) {
    && 0 < start <= end
    && |heaps| == |calls| + 1
    && heaps[0] == Layout(map[], {}, start)
    && forall i :: 0 <= i < |calls| ==> Step(heaps[i], calls[i], heaps[i + 1], end)
  }

  function HeldAfter(held: map<int, nat>, call: Call): map<int, nat> {
    match call
    case MallocCall(len, r) => if r == 0 then held else held[r - W := len]
    case FreeCall(p) => if p == 0 then held else held - {p - W}
  }

  /** What the callers of a run hold: for each chunk not yet freed, the length asked for. */
  function Held(calls: seq<Call>): map<int, nat> {
    if calls == [] then map[] else HeldAfter(Held(calls[..|calls| - 1]), calls[|calls| - 1])
  }

  /** The live chunks are those held, each at least as long as asked. */
  ghost predicate Backs(l: Layout, held: map<int, nat>) {
    && held.Keys == l.Live()
    && forall a :: a in held ==> a in l.size && held[a] <= l.size[a]
  }

  lemma FreeBacks(l: Layout, start: int, end: int, held: map<int, nat>, c: int)
    requires WellFormed(l, start, end) && Backs(l, held) && c in l.Live()
    ensures Backs(Release(l, c), held - {c})
  {
    ReleaseKeeps(l, start, end, c);
    var held', l' := held - {c}, Release(l, c);
    assert held'.Keys == l'.Live();
    forall a | a in held' ensures a in l'.size && held'[a] <= l'.size[a] {
      assert a in l.Live() && a in l'.Live();
    }
  }

  lemma MallocBacks(l: Layout, start: int, end: int, held: map<int, nat>, len: nat, l': Layout, r: int)
    requires WellFormed(l, start, end) && Backs(l, held) && Malloc(l, end, len, l', r)
    ensures Backs(l', if r == 0 then held else held[r - W := len])
  {
    MallocGrants(l, start, end, len, l', r);
    forall a | a in held ensures a in l'.Live() && l'.size[a] == l.size[a] && a != r - W {
      assert a in l.Live();
    }
  }

  lemma StepKeeps(l: Layout, call: Call, l': Layout, start: int, end: int, held: map<int, nat>)
    requires WellFormed(l, start, end) && Step(l, call, l', end) && Backs(l, held)
    ensures WellFormed(l', start, end) && Backs(l', HeldAfter(held, call))
  {
    match call
    case MallocCall(len, r) =>
      MallocGrants(l, start, end, len, l', r);
      MallocBacks(l, start, end, held, len, l', r);
    case FreeCall(p) =>
      if p != 0 {
        ReleaseKeeps(l, start, end, p - W);
        FreeBacks(l, start, end, held, p - W);
      }
  }

  /** After any sequence of mallocs and valid frees the chunks tile the used heap with no two free
      neighbours, and the live chunks are exactly those the callers hold, each large enough. */
  lemma {:induction false} RunKeeps(heaps: seq<Layout>, calls: seq<Call>, start: int, end: int)
    requires IsRun(heaps, calls, start, end)
    ensures WellFormed(heaps[|calls|], start, end)
    ensures Backs(heaps[|calls|], Held(calls))
  {
    var n := |calls|;
    if n == 0 {
      forall a ensures Followed(heaps[0], a) && Apart(heaps[0], a) {}
    } else {
      RunKeeps(heaps[..n], calls[..n - 1], start, end);
      StepKeeps(heaps[n - 1], calls[n - 1], heaps[n], start, end, Held(calls[..n - 1]));
    }
  }

  /** However the frees are ordered, a run that ends with everything returned ends with the used
      heap in one free chunk. */
  lemma AllReturned(heaps: seq<Layout>, calls: seq<Call>, start: int, end: int)
    requires IsRun(heaps, calls, start, end) && Held(calls) == map[]
    ensures OneFreeChunk(heaps[|calls|], start)
  {
    RunKeeps(heaps, calls, start, end);
    NothingLiveOneChunk(heaps[|calls|], start, end);
  }
}
