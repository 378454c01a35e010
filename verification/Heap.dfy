/** The kernel heap: malloc and free over raw memory, with size and link words kept inside the
    chunks themselves (src/kernel/malloc.c). */
module Heap {
  import opened Memory
  import opened HeapLayout

  // A chunk starts with its size; a free chunk goes on with the address of the next free one.

  ghost predicate Headed(m: seq<Byte>, l: Layout, a: int) {
    a in l.size ==> 0 <= a && W <= l.size[a] && l.End(a) <= |m| && Word(m, a) == l.size[a]
  }

  ghost predicate Linked(m: seq<Byte>, l: Layout, a: int) {
    a in l.free && 0 <= a && a + 2 * W <= |m| ==> IsNext(l.free, a, Word(m, a + W))
  }

  /** The bytes of m encode layout l, with free list head flp. */
  ghost predicate Represents(m: seq<Byte>, l: Layout, flp: int) {
    && (forall a {:trigger Headed(m, l, a)} :: Headed(m, l, a))
    && (forall a {:trigger Linked(m, l, a)} :: Linked(m, l, a))
    && IsNext(l.free, 0, flp)
  }

  /** If chunk a is live before and after, its contents are untouched. */
  ghost predicate PayloadKept(m: seq<Byte>, l: Layout, m': seq<Byte>, l': Layout, a: int) {
    a in l.Live() && a in l'.Live() ==>
      forall k :: 0 <= k < |m| && k < |m'| && a + W <= k < l.End(a) ==> m'[k] == m[k]
  }

  ghost predicate PayloadsKept(m: seq<Byte>, l: Layout, m': seq<Byte>, l': Layout) {
    forall a {:trigger PayloadKept(m, l, m', l', a)} :: PayloadKept(m, l, m', l', a)
  }

  ghost predicate InLivePayload(l: Layout, k: int) {
    exists a :: a in l.Live() && a + W <= k < l.End(a)
  }

  /** Writing to live payloads does not disturb the heap: its encoding lies wholly outside them. */
  lemma EncodingAvoidsPayloads(m: seq<Byte>, m': seq<Byte>, l: Layout, flp: int, start: int)
    requires Tiled(l, start, |m|) && Represents(m, l, flp) && |m'| == |m|
    requires forall k :: 0 <= k < |m| && !InLivePayload(l, k) ==> m'[k] == m[k]
    ensures Represents(m', l, flp)
  {
    forall a ensures Headed(m', l, a) && Linked(m', l, a) {
      assert Headed(m, l, a) && Linked(m, l, a);
      if a in l.size {
        assert forall k :: a <= k < a + W ==> !InLivePayload(l, k);
        SameBytesSameWord(m, m', a);
        if a in l.free {
          assert forall k :: a + W <= k < a + 2 * W ==> !InLivePayload(l, k);
          SameBytesSameWord(m, m', a + W);
        }
      }
    }
  }

  /** No free chunk at or below address a has exactly size s. */
  ghost predicate NoneOfSize(l: Layout, s: int, a: int) {
    forall b :: b in l.free && b in l.size && b <= a ==> l.size[b] != s
  }

  /** s is the smallest size above len of a free chunk at or below address a, or 0 if there is none. */
  ghost predicate Smallest(l: Layout, len: nat, a: int, s: int) {
    if s == 0 then
      forall b :: b in l.free && b in l.size && b <= a ==> l.size[b] <= len
    else
      && len < s
      && (exists b :: b in l.free && b in l.size && b <= a && l.size[b] == s)
      && (forall b :: b in l.free && b in l.size && b <= a ==> l.size[b] <= len || s <= l.size[b])
  }

  lemma SmallMod(x: nat, m: int)
    requires x < m
    ensures x % m == x
  {
  }

  /** Where the search stands on meeting chunk fp1: an exact match is the best fit, anything else
      extends what is known about the chunks passed. */
  lemma SearchStep(l: Layout, len: nat, fp2: int, fp1: int, s: int)
    requires IsNext(l.free, fp2, fp1) && fp1 != 0 && fp1 in l.size
    requires NoneOfSize(l, len, fp2) && Smallest(l, len, fp2, s)
    ensures l.size[fp1] == len ==> BestFit(l, len, fp1)
    ensures l.size[fp1] != len ==> NoneOfSize(l, len, fp1)
    ensures l.size[fp1] != len ==>
              Smallest(l, len, fp1, if l.size[fp1] > len && (s == 0 || l.size[fp1] < s) then l.size[fp1] else s)
  {
  }

  /** Once no chunk matches exactly, the first one of the smallest larger size is the best fit. */
  lemma SecondSearchStep(l: Layout, len: nat, top: int, s: int, fp2: int, fp1: int)
    requires s != 0 && 0 !in l.free && NoneOfSize(l, len, top) && Smallest(l, len, top, s)
    requires forall b :: b in l.free ==> b <= top
    requires IsNext(l.free, fp2, fp1) && NoneOfSize(l, s, fp2) && (fp1 != 0 ==> fp1 in l.size)
    ensures fp1 != 0
    ensures l.size[fp1] == s ==> BestFit(l, len, fp1)
    ensures l.size[fp1] != s ==> NoneOfSize(l, s, fp1)
  {
  }

  lemma ServedIsMalloc(l: Layout, end: int, len: nat, c: int, l': Layout, p: int)
    requires BestFit(l, Need(len), c) && l' == Serve(l, Need(len), c) && p == Served(l, Need(len), c) + W
    ensures HeapLayout.Malloc(l, end, len, l', p)
  {
    assert forall b :: BestFit(l, Need(len), b) ==> b == c;
    assert Fits(l, Need(len), c);
  }

  lemma TiledBelow(l: Layout, start: int, end: int, end': int)
    requires Tiled(l, start, end) && end <= end'
    ensures Tiled(l, start, end')
    ensures WellFormed(l, start, end) ==> WellFormed(l, start, end')
  {
  }

  // ------------------------------------------------ what each store does to the encoding

  /** A store clear of a chunk's header leaves its size as it was, and likewise for its link. */
  lemma ChunkUntouched(m: seq<Byte>, l: Layout, x: int, v: nat, m': seq<Byte>, a: int)
    requires Stored(m, x, v, m') && Headed(m, l, a) && Linked(m, l, a) && a in l.size
    ensures a + W <= x || x + W <= a ==> Headed(m', l, a)
    ensures a + 2 * W <= x || x + W <= a + W ==> Linked(m', l, a)
    ensures a + 2 * W <= x || x + W <= a + W ==> Word(m', a + W) == Word(m, a + W)
  {
    if a + W <= x || x + W <= a {
      OtherWordKept(m, x, v, m', a);
    }
    if a + 2 * W <= x || x + W <= a + W {
      OtherWordKept(m, x, v, m', a + W);
    }
  }

  /** Skipping free chunk fp1, which follows fp2, in a chain of next addresses. */
  lemma SkipNext(free: set<int>, fp2: int, fp1: int, next: int, a: int, n: int)
    requires fp1 in free && IsNext(free, fp2, fp1) && IsNext(free, fp1, next)
    requires IsNext(free, a, n) && (a in free || a == 0) && (fp2 in free || fp2 == 0) && forall b :: b in free ==> 0 < b
    ensures a == fp2 ==> IsNext(free - {fp1}, a, next)
    ensures a != fp2 && a != fp1 ==> IsNext(free - {fp1}, a, n)
  {
  }

  lemma UnlinkedRest(l: Layout, start: int, end: int, fp1: int)
    requires WellFormed(l, start, end)
    ensures WellFormed(l.(free := l.free - {fp1}), start, end)
  {
    var l' := l.(free := l.free - {fp1});
    forall a ensures Followed(l', a) && Apart(l', a) {
      assert Followed(l, a) && Apart(l, a);
    }
  }

  lemma UnlinkFirst(m: seq<Byte>, l: Layout, start: int, fp1: int, next: int)
    requires Tiled(l, start, |m|) && Represents(m, l, fp1) && fp1 in l.free && next == Word(m, fp1 + W)
    ensures Represents(m, l.(free := l.free - {fp1}), next)
  {
    var l' := l.(free := l.free - {fp1});
    assert Linked(m, l, fp1);
    SkipNext(l.free, 0, fp1, next, 0, fp1);
    forall a ensures Headed(m, l', a) && Linked(m, l', a) {
      assert Headed(m, l, a) && Linked(m, l, a);
      if a in l'.free {
        SkipNext(l.free, 0, fp1, next, a, Word(m, a + W));
      }
    }
  }

  lemma UnlinkLater(m: seq<Byte>, l: Layout, flp: int, start: int, fp2: int, fp1: int, next: int, m': seq<Byte>)
    requires Tiled(l, start, |m|) && Represents(m, l, flp) && fp1 in l.free && fp2 in l.free
    requires IsNext(l.free, fp2, fp1) && next == Word(m, fp1 + W) && Stored(m, fp2 + W, next, m')
    ensures Represents(m', l.(free := l.free - {fp1}), flp)
    ensures PayloadsKept(m, l, m', l.(free := l.free - {fp1}))
  {
    var l' := l.(free := l.free - {fp1});
    assert Linked(m, l, fp1);
    SkipNext(l.free, fp2, fp1, next, 0, flp);
    forall a ensures Headed(m', l', a) && Linked(m', l', a) && PayloadKept(m, l, m', l', a) {
      assert Headed(m, l, a) && Linked(m, l, a);
      if a in l.size {
        assert a == fp2 || l.End(a) <= fp2 || l.End(fp2) <= a;
        ChunkUntouched(m, l, fp2 + W, next, m', a);
        if a in l'.free {
          SkipNext(l.free, fp2, fp1, next, a, Word(m, a + W));
        }
      }
    }
  }

  /** Splitting free chunk c: the two header stores encode the two parts. */
  lemma SplitRepresents(m: seq<Byte>, l: Layout, flp: int, start: int, c: int, need: nat, m1: seq<Byte>, m2: seq<Byte>)
    requires Tiled(l, start, |m|) && Represents(m, l, flp)
    requires W <= need && Fits(l, need, c) && !WholeChunk(l, need, c)
    requires Stored(m, c + l.size[c] - need, need, m1) && Stored(m1, c, l.size[c] - need - W, m2)
    ensures Represents(m2, Serve(l, need, c), flp)
    ensures PayloadsKept(m, l, m2, Serve(l, need, c))
  {
    var l', cp := Serve(l, need, c), Served(l, need, c);
    assert Headed(m, l, c) && Linked(m, l, c);
    OtherWordKept(m1, c, l.size[c] - need - W, m2, cp);
    forall a ensures Headed(m2, l', a) && Linked(m2, l', a) && PayloadKept(m, l, m2, l', a) {
      assert Headed(m, l, a) && Linked(m, l, a);
      if a in l.size {
        assert a == c || l.End(a) <= c || l.End(c) <= a;
        ChunkUntouched(m, l, cp, need, m1, a);
        if a != c {
          ChunkUntouched(m1, l, c, l.size[c] - need - W, m2, a);
        } else {
          OtherWordKept(m1, c, l.size[c] - need - W, m2, c + W);
        }
      }
    }
  }

  lemma ExtendRepresents(m: seq<Byte>, l: Layout, flp: int, start: int, end: int, need: nat, m': seq<Byte>)
    requires Tiled(l, start, end) && Represents(m, l, flp) && end <= |m|
    requires W <= need && l.brk + W + need <= end && Stored(m, l.brk, need, m')
    ensures Represents(m', Extend(l, need), flp)
    ensures PayloadsKept(m, l, m', Extend(l, need))
  {
    var l' := Extend(l, need);
    forall a ensures Headed(m', l', a) && Linked(m', l', a) && PayloadKept(m, l, m', l', a) {
      assert Headed(m, l, a) && Linked(m, l, a);
      if a in l.size {
        ChunkUntouched(m, l, l.brk, need, m', a);
      }
    }
  }

  // -------------------------------------------------------------- the list during a free

  ghost predicate ChainLink(free: set<int>, link: map<int, int>, a: int) {
    a in free ==> a in link && IsNext(free, a, link[a])
  }

  /** For each free chunk a, link[a] is the next one, and flp is the first. */
  ghost predicate Chain(free: set<int>, link: map<int, int>, flp: int) {
    && 0 !in free
    && IsNext(free, 0, flp)
    && forall a {:trigger ChainLink(free, link, a)} :: ChainLink(free, link, a)
  }

  lemma ChainInsert(free: set<int>, link: map<int, int>, flp: int, fp2: int, c: int, fp1: int)
    requires Chain(free, link, flp) && (forall b :: b in free ==> 0 < b)
    requires IsNext(free, fp2, fp1) && (fp2 == 0 || fp2 in free) && fp2 < c && (fp1 == 0 || c < fp1) && c !in free
             && 0 < c
    ensures Chain(free + {c}, link[c := fp1][fp2 := c], if fp2 == 0 then c else flp)
  {
    var free', link' := free + {c}, link[c := fp1][fp2 := c];
    forall a ensures ChainLink(free', link', a) {
      assert ChainLink(free, link, a);
    }
  }

  lemma ChainSkip(free: set<int>, link: map<int, int>, flp: int, p: int, x: int)
    requires Chain(free, link, flp) && (forall b :: b in free ==> 0 < b)
    requires p in free && x in free && p in link && x in link && link[p] == x
    ensures Chain(free - {x}, link[p := link[x]], flp)
  {
    var free', link' := free - {x}, link[p := link[x]];
    assert ChainLink(free, link, p) && ChainLink(free, link, x);
    forall a ensures ChainLink(free', link', a) {
      assert ChainLink(free, link, a);
      if a in free' {
        SkipNext(free, p, x, link[x], a, link[a]);
      }
    }
  }

  /** Live chunk c lies between the free chunks fp2 and fp1, where 0 stands for none. */
  ghost predicate Between(l: Layout, fp2: int, c: int, fp1: int) {
    && c in l.Live()
    && IsNext(l.free, fp2, fp1) && (fp2 == 0 || fp2 in l.free) && fp2 < c && (fp1 == 0 || c < fp1)
  }

  ghost predicate TouchesUp(l: Layout, c: int, fp1: int) {
    fp1 != 0 && c in l.size && l.End(c) == fp1
  }

  ghost predicate TouchesDown(l: Layout, fp2: int, c: int) {
    fp2 != 0 && fp2 in l.size && l.End(fp2) == c
  }

  /** Releasing c concerns its two free neighbours only. */
  ghost function Released(l: Layout, fp2: int, c: int, fp1: int): Layout
    requires c in l.size
  {
    var up := if TouchesUp(l, c, fp1) && fp1 in l.size then Join(l, c, fp1, l.free - {fp1}) else l;
    var mid := up.(free := up.free + {c});
    if TouchesDown(l, fp2, c) && fp2 in mid.size then Join(mid, fp2, c, mid.free - {c}) else mid
  }

  lemma ReleasedIsRelease(l: Layout, start: int, end: int, fp2: int, c: int, fp1: int)
    requires WellFormed(l, start, end) && Between(l, fp2, c, fp1)
    ensures Released(l, fp2, c, fp1) == Release(l, c)
  {
    if l.End(c) in l.free {
      assert fp1 != 0 && fp1 <= l.End(c);
    }
    var up := MergeUp(l, c);
    var mid := up.(free := up.free + {c});
    if TouchesDown(l, fp2, c) {
      assert TouchesBelow(mid, fp2, c);
    }
    forall b | TouchesBelow(mid, b, c) ensures b == fp2 && TouchesDown(l, fp2, c) {
      assert b in l.free && b < c && l.End(b) == c;
      assert !(b < fp2);
    }
  }

  /** What the header and link of c and fp2 must hold for the release to be encoded. */
  ghost predicate FreedWords(m: seq<Byte>, l: Layout, fp2: int, c: int, fp1: int, m': seq<Byte>)
    requires c in l.size && 0 <= c && c + 2 * W <= |m| == |m'|
    requires fp1 != 0 ==> fp1 in l.size && 0 <= fp1 && fp1 + 2 * W <= |m|
    requires fp2 != 0 ==> fp2 in l.size && 0 <= fp2 && fp2 + 2 * W <= |m|
  {
    var up, down := TouchesUp(l, c, fp1), TouchesDown(l, fp2, c);
    var size := if up then l.size[c] + l.size[fp1] + W else l.size[c];
    var link := if up then Word(m, fp1 + W) else fp1;
    && (!down ==> Word(m', c) == size && Word(m', c + W) == link)
    && (fp2 != 0 ==> Word(m', fp2) == if down then l.size[fp2] + size + W else l.size[fp2])
    && (fp2 != 0 ==> Word(m', fp2 + W) == if down then link else c)
  }

  /** Outside the header and link of c and fp2, the two memories agree. */
  ghost predicate OnlyWords(m: seq<Byte>, fp2: int, c: int, m': seq<Byte>) {
    && |m'| == |m|
    && forall k :: 0 <= k < |m| && !(c <= k < c + 2 * W) && !(fp2 != 0 && fp2 <= k < fp2 + 2 * W) ==> m'[k] == m[k]
  }

  ghost predicate InBounds(m: seq<Byte>, l: Layout, a: int) {
    a in l.size ==> 0 <= a && W <= l.size[a] && l.End(a) <= |m|
  }

  /** Everything known when a free has done its stores. */
  ghost predicate Freed(m: seq<Byte>, l: Layout, flp: int, start: int, fp2: int, c: int, fp1: int, m': seq<Byte>) {
    && WellFormed(l, start, |m|) && Represents(m, l, flp) && Between(l, fp2, c, fp1)
    && InBounds(m, l, c) && InBounds(m, l, fp1) && InBounds(m, l, fp2)
    && OnlyWords(m, fp2, c, m')
    && FreedWords(m, l, fp2, c, fp1, m')
  }

  /** Chunk a's words once it has been linked to b, or has swallowed it. */
  ghost predicate LinkedTo(m: seq<Byte>, a: int, b: int, m': seq<Byte>)
    requires 0 <= a && a + 2 * W <= |m| == |m'| && 0 <= b && b + 2 * W <= |m|
  {
    if a + W + Word(m, a) == b then
      Word(m', a) == Word(m, a) + Word(m, b) + W && Word(m', a + W) == Word(m, b + W)
    else
      Word(m', a) == Word(m, a) && Word(m', a + W) == b
  }

  /** c's header and link after the first half of a free, when nothing else has changed. */
  ghost predicate AboveDone(m: seq<Byte>, l: Layout, c: int, fp1: int, m': seq<Byte>) {
    && c in l.size && 0 <= c && c + 2 * W <= |m| && OnlyWords(m, 0, c, m')
    && (fp1 != 0 ==> fp1 in l.size && 0 <= fp1 && fp1 + 2 * W <= |m|)
    && Word(m', c) == (if TouchesUp(l, c, fp1) then l.size[c] + l.size[fp1] + W else l.size[c])
    && Word(m', c + W) == if TouchesUp(l, c, fp1) then Word(m, fp1 + W) else fp1
  }

  lemma BelowDone(m: seq<Byte>, l: Layout, fp2: int, c: int, fp1: int, m2: seq<Byte>, m': seq<Byte>)
    requires AboveDone(m, l, c, fp1, m2) && OnlyWords(m2, 0, fp2, m')
    requires fp2 in l.size && 0 < fp2 && fp2 + 2 * W <= c && Word(m2, fp2) == l.size[fp2]
    requires Word(m', fp2) == if TouchesDown(l, fp2, c) then Word(m2, fp2) + Word(m2, c) + W else Word(m2, fp2)
    requires Word(m', fp2 + W) == if TouchesDown(l, fp2, c) then Word(m2, c + W) else c
    ensures OnlyWords(m, fp2, c, m') && FreedWords(m, l, fp2, c, fp1, m')
  {
    SameBytesSameWord(m2, m', c);
    SameBytesSameWord(m2, m', c + W);
  }

  lemma FarChunkUntouched(m: seq<Byte>, l: Layout, flp: int, start: int, fp2: int, c: int, fp1: int, m': seq<Byte>,
                          a: int)
    requires Freed(m, l, flp, start, fp2, c, fp1, m') && a in l.size && a != c && a != fp2
    ensures 0 <= a && a + 2 * W <= |m| && Word(m', a) == Word(m, a) == l.size[a] && Word(m', a + W) == Word(m, a + W)
    ensures forall k :: a <= k < l.End(a) ==> m'[k] == m[k]
  {
    assert Headed(m, l, a);
    assert l.End(a) <= c || l.End(c) <= a;
    assert fp2 != 0 ==> l.End(a) <= fp2 || l.End(fp2) <= a;
    SameBytesSameWord(m, m', a);
    SameBytesSameWord(m, m', a + W);
  }

  lemma FreedHeadNear(m: seq<Byte>, l: Layout, fp2: int, c: int, fp1: int, m': seq<Byte>, a: int)
    requires c in l.size && c !in l.free && fp2 < c && (fp1 == 0 || c < fp1) && |m'| == |m|
    requires Headed(m, l, c) && Headed(m, l, fp1) && Headed(m, l, fp2)
    requires (fp1 != 0 ==> fp1 in l.size) && (fp2 != 0 ==> fp2 in l.size)
    requires FreedWords(m, l, fp2, c, fp1, m')
    requires a == c || a == fp2 != 0
    ensures Headed(m', Released(l, fp2, c, fp1), a)
  {
  }

  lemma FreedHead(m: seq<Byte>, l: Layout, flp: int, start: int, fp2: int, c: int, fp1: int, m': seq<Byte>, a: int)
    requires Freed(m, l, flp, start, fp2, c, fp1, m')
    ensures Headed(m', Released(l, fp2, c, fp1), a)
    ensures PayloadKept(m, l, m', Released(l, fp2, c, fp1), a)
  {
    if a == c || a == fp2 != 0 {
      assert Headed(m, l, c) && Headed(m, l, fp1) && Headed(m, l, fp2);
      FreedHeadNear(m, l, fp2, c, fp1, m', a);
    } else if a in l.size {
      FarChunkUntouched(m, l, flp, start, fp2, c, fp1, m', a);
      assert a in Released(l, fp2, c, fp1).size ==> Released(l, fp2, c, fp1).size[a] == l.size[a];
    }
  }

  lemma ChainOf(m: seq<Byte>, l: Layout, flp: int, start: int) returns (link: map<int, int>)
    requires Tiled(l, start, |m|) && Represents(m, l, flp)
    ensures Chain(l.free, link, flp)
    ensures forall a :: a in l.free && 0 <= a && a + 2 * W <= |m| ==> a in link && link[a] == Word(m, a + W)
  {
    link := map a | a in l.free :: if 0 <= a && a + 2 * W <= |m| then Word(m, a + W) else 0;
    forall a ensures ChainLink(l.free, link, a) {
      assert Linked(m, l, a);
    }
  }

  function FreedSet(free: set<int>, c: int, fp1: int, up: bool, down: bool): set<int> {
    free + {c} - (if up then {fp1} else {}) - (if down then {c} else {})
  }

  lemma FreedChain(free: set<int>, link: map<int, int>, flp: int, fp2: int, c: int, fp1: int, up: bool, down: bool)
      returns (link': map<int, int>)
    requires Chain(free, link, flp) && (forall b :: b in free ==> 0 < b)
    requires IsNext(free, fp2, fp1) && (fp2 == 0 || fp2 in free) && fp2 < c && (fp1 == 0 || c < fp1) && c !in free
             && 0 < c
    requires (up ==> fp1 in free) && (down ==> fp2 in free)
    ensures Chain(FreedSet(free, c, fp1, up, down), link', if fp2 == 0 then c else flp)
    ensures fp2 in link' && c in link'
    ensures up ==> fp1 in link
    ensures var linkC := if up then link[fp1] else fp1;
            link'[fp2] == (if down then linkC else c) && (!down ==> link'[c] == linkC)
    ensures forall a :: a in free && a != fp2 ==> a in link && a in link' && link'[a] == link[a]
  {
    ChainInsert(free, link, flp, fp2, c, fp1);
    assert ChainLink(free, link, fp1);
    link' := link[c := fp1][fp2 := c];
    var free', flp' := free + {c}, if fp2 == 0 then c else flp;
    if up {
      ChainSkip(free', link', flp', c, fp1);
      link' := link'[c := link'[fp1]];
      free' := free' - {fp1};
    }
    if down {
      ChainSkip(free', link', flp', fp2, c);
      link' := link'[fp2 := link'[c]];
      free' := free' - {c};
    }
    assert free' == FreedSet(free, c, fp1, up, down);
    forall a | a in free && a != fp2 ensures a in link {
      assert ChainLink(free, link, a);
    }
  }

  /** The list the links should form once c is released. */
  ghost predicate FreedLinks(m: seq<Byte>, l: Layout, fp2: int, c: int, fp1: int, link: map<int, int>, a: int)
    requires c in l.size && (fp1 != 0 ==> 0 <= fp1 && fp1 + 2 * W <= |m|)
  {
    var linkC := if TouchesUp(l, c, fp1) then Word(m, fp1 + W) else fp1;
    && ChainLink(Released(l, fp2, c, fp1).free, link, a)
    && (a in link && a == fp2 ==> link[a] == if TouchesDown(l, fp2, c) then linkC else c)
    && (a in link && a == c && !TouchesDown(l, fp2, c) ==> link[a] == linkC)
    && (a in link && a in l.free && a != fp2 && a != c && 0 <= a && a + 2 * W <= |m| ==> link[a] == Word(m, a + W))
  }

  lemma FreedLinksExist(m: seq<Byte>, l: Layout, flp: int, start: int, fp2: int, c: int, fp1: int)
      returns (link: map<int, int>)
    requires WellFormed(l, start, |m|) && Represents(m, l, flp) && Between(l, fp2, c, fp1)
    requires InBounds(m, l, c) && InBounds(m, l, fp1) && InBounds(m, l, fp2)
    ensures IsNext(Released(l, fp2, c, fp1).free, 0, if fp2 == 0 then c else flp)
    ensures forall a {:trigger FreedLinks(m, l, fp2, c, fp1, link, a)} :: FreedLinks(m, l, fp2, c, fp1, link, a)
  {
    var up, down := TouchesUp(l, c, fp1), TouchesDown(l, fp2, c);
    var link0 := ChainOf(m, l, flp, start);
    link := FreedChain(l.free, link0, flp, fp2, c, fp1, up, down);
    assert Released(l, fp2, c, fp1).free == FreedSet(l.free, c, fp1, up, down);
    forall a ensures FreedLinks(m, l, fp2, c, fp1, link, a) {
      assert ChainLink(Released(l, fp2, c, fp1).free, link, a);
    }
  }

  lemma FreedLink(m: seq<Byte>, l: Layout, flp: int, start: int, fp2: int, c: int, fp1: int, m': seq<Byte>,
                  link: map<int, int>, a: int)
    requires Freed(m, l, flp, start, fp2, c, fp1, m')
    requires FreedLinks(m, l, fp2, c, fp1, link, a)
    ensures Linked(m', Released(l, fp2, c, fp1), a)
  {
    if a in Released(l, fp2, c, fp1).free && a != c && a != fp2 {
      FarChunkUntouched(m, l, flp, start, fp2, c, fp1, m', a);
    }
  }

  /** The stores of a free encode the released heap. */
  lemma FreedRepresents(m: seq<Byte>, l: Layout, flp: int, start: int, fp2: int, c: int, fp1: int, m': seq<Byte>)
    requires Freed(m, l, flp, start, fp2, c, fp1, m')
    ensures Represents(m', Release(l, c), if fp2 == 0 then c else flp)
    ensures PayloadsKept(m, l, m', Release(l, c))
  {
    var l' := Released(l, fp2, c, fp1);
    ReleasedIsRelease(l, start, |m|, fp2, c, fp1);
    var link := FreedLinksExist(m, l, flp, start, fp2, c, fp1);
    forall a ensures Headed(m', l', a) && PayloadKept(m, l, m', l', a) {
      FreedHead(m, l, flp, start, fp2, c, fp1, m', a);
    }
    forall a ensures Linked(m', l', a) {
      assert FreedLinks(m, l, fp2, c, fp1, link, a);
      FreedLink(m, l, flp, start, fp2, c, fp1, m', link, a);
    }
  }

  class Allocator {
    const mem: array<Byte>
    const heapStart: int
    const heapEnd: int
    var brkval: int  // 0 until the heap is first extended
    var flp: int     // address of the first free chunk, or 0
    ghost var layout: Layout

    ghost predicate Valid()
      reads this, mem
    {
      && W <= heapStart <= heapEnd <= mem.Length < MODULUS
      && WellFormed(layout, heapStart, heapEnd)
      && layout.brk == (if brkval == 0 then heapStart else brkval)
      && Represents(mem[..], layout, flp)
    }

    /** The boot code places the heap above page zero, in memory that words can address. */
    constructor (mem: array<Byte>, heapStart: int, heapEnd: int)
      requires W <= heapStart <= heapEnd <= mem.Length < MODULUS
      ensures Valid() && this.mem == mem && this.heapStart == heapStart && this.heapEnd == heapEnd
      ensures layout == Layout(map[], {}, heapStart)
    {
      this.mem, this.heapStart, this.heapEnd := mem, heapStart, heapEnd;
      brkval, flp := 0, 0;
      layout := Layout(map[], {}, heapStart);
      new;
      forall a ensures Followed(layout, a) && Apart(layout, a) {}
    }

    /** Disconnects chunk fp1 from the free list; fp2 is the free chunk before it, or 0. */
    method Unlink(fp1: int, fp2: int)
      requires Valid() && fp1 in layout.free
      requires IsNext(layout.free, fp2, fp1) && (fp2 == 0 || fp2 in layout.free)
      modifies this, mem
      ensures Valid() && brkval == old(brkval)
      ensures layout == old(layout).(free := old(layout).free - {fp1})
      ensures PayloadsKept(old(mem[..]), old(layout), mem[..], layout)
    {
      ghost var l, m := layout, mem[..];
      assert Headed(m, l, fp1);
      var next := LoadWord(mem, fp1 + W);
      layout := l.(free := l.free - {fp1});
      UnlinkedRest(l, heapStart, heapEnd, fp1);
      if fp2 != 0 {
        StoreWord(mem, fp2 + W, next);
        UnlinkLater(m, l, flp, heapStart, fp2, fp1, next, mem[..]);
      } else {
        UnlinkFirst(m, l, heapStart, fp1, next);
        flp := next;
      }
    }

    /** Hands out a chunk of at least len0 bytes and returns the address of its payload, or 0. */
    method Malloc(len0: nat) returns (p: int)
      requires Valid() && len0 < MODULUS
      modifies this, mem
      ensures Valid()
      ensures HeapLayout.Malloc(old(layout), heapEnd, len0, layout, p)
      ensures PayloadsKept(old(mem[..]), old(layout), mem[..], layout)
    {
      var len := if len0 < W then W else len0;
      ghost var l, m := layout, mem[..];

      // Step 1: an exact fit; note the smallest larger chunk on the way.
      var s, fp1, fp2 := 0, flp, 0;
      while fp1 != 0
        invariant unchanged(this) && unchanged(mem)
        invariant IsNext(l.free, fp2, fp1) && (fp2 == 0 || fp2 in l.free)
        invariant NoneOfSize(l, len, fp2) && Smallest(l, len, fp2, s)
        decreases heapEnd - fp2
      {
        assert mem[..] == m && Headed(m, l, fp1) && Linked(m, l, fp1);
        SearchStep(l, len, fp2, fp1, s);
        var sz := LoadWord(mem, fp1);
        if sz == len {
          Unlink(fp1, fp2);
          p := fp1 + W;
          ServedIsMalloc(l, heapEnd, len0, fp1, layout, p);
          return;
        }
        if sz > len {
          if s == 0 || sz < s {
            s := sz;
          }
        }
        fp2 := fp1;
        fp1 := LoadWord(mem, fp1 + W);
      }

      assert mem[..] == m && layout == l;
      if s != 0 {
        ghost var c;
        p, c := MallocFromLarger(len, s);
        ServedIsMalloc(l, heapEnd, len0, c, layout, p);
      } else {
        assert forall c :: !Fits(l, len, c);
        p := MallocFromBreak(len);
      }
    }

    /** Step 2 of malloc: looks the chunk of size s up again, and uses all of it or its top. */
    method MallocFromLarger(len0: nat, s: int) returns (p: int, ghost c: int)
      requires Valid() && W <= len0 < s && NoneOfSize(layout, len0, heapEnd) && Smallest(layout, len0, heapEnd, s)
      modifies this, mem
      ensures Valid()
      ensures BestFit(old(layout), len0, c) && layout == Serve(old(layout), len0, c)
      ensures p == Served(old(layout), len0, c) + W
      ensures PayloadsKept(old(mem[..]), old(layout), mem[..], layout)
    {
      c := 0;
      ghost var l, m := layout, mem[..];
      var len := if s - len0 < 2 * W then s else len0;
      var fp1, fp2 := flp, 0;
      while fp1 != 0
        invariant unchanged(this) && unchanged(mem)
        invariant IsNext(l.free, fp2, fp1) && (fp2 == 0 || fp2 in l.free)
        invariant NoneOfSize(l, s, fp2)
        decreases heapEnd - fp2
      {
        assert mem[..] == m && Headed(m, l, fp1) && Linked(m, l, fp1);
        SecondSearchStep(l, len0, heapEnd, s, fp2, fp1);
        var sz := LoadWord(mem, fp1);
        if sz == s {
          if len == s {
            Unlink(fp1, fp2);
            p := fp1 + W;
          } else {
            p := SplitTop(fp1, s, len);
          }
          c := fp1;
          return;
        }
        fp2 := fp1;
        fp1 := LoadWord(mem, fp1 + W);
      }
      SecondSearchStep(l, len0, heapEnd, s, fp2, fp1);
    }

    /** Cuts the top len payload bytes, and a header for them, off free chunk fp1 of size s. */
    method SplitTop(fp1: int, s: int, len: nat) returns (p: int)
      requires Valid() && fp1 in layout.free && s == layout.size[fp1] && W <= len && len + 2 * W <= s
      modifies this`layout, mem
      ensures Valid() && layout == Serve(old(layout), len, fp1)
      ensures p == Served(old(layout), len, fp1) + W
      ensures PayloadsKept(old(mem[..]), old(layout), mem[..], layout)
    {
      ghost var l, m := layout, mem[..];
      assert Headed(m, l, fp1);
      ServeKeeps(l, heapStart, heapEnd, len, fp1);
      var rest := s - len;
      var cp := fp1 + rest;
      StoreWord(mem, cp, len);
      ghost var m1 := mem[..];
      StoreWord(mem, fp1, rest - W);
      layout := Serve(l, len, fp1);
      p := cp + W;
      TiledBelow(l, heapStart, heapEnd, |m|);
      SplitRepresents(m, l, flp, heapStart, fp1, len, m1, mem[..]);
    }

    /** Steps 3 and 4 of malloc: untouched heap, if there is enough. Both tests are needed, since
        the sum may wrap. */
    method MallocFromBreak(len: nat) returns (p: int)
      requires Valid() && W <= len < MODULUS
      modifies this, mem
      ensures Valid()
      ensures if old(layout).brk + W + len <= heapEnd
              then layout == Extend(old(layout), len) && p == old(layout).brk + W
              else layout == old(layout) && p == 0
      ensures PayloadsKept(old(mem[..]), old(layout), mem[..], layout)
    {
      if brkval == 0 {
        brkval := heapStart;
      }
      var avail := heapEnd - brkval;
      if avail >= len {
        SmallMod(len + W, MODULUS);
      }
      if avail >= len && avail >= (len + W) % MODULUS {
        p := TakeFromBreak(len);
      } else {
        p := 0;
      }
    }

    /** Makes a new topmost chunk out of untouched heap. */
    method TakeFromBreak(len: nat) returns (p: int)
      requires Valid() && brkval != 0 && W <= len && brkval + W + len <= heapEnd
      modifies this`layout, this`brkval, mem
      ensures Valid() && layout == Extend(old(layout), len) && p == old(layout).brk + W
      ensures PayloadsKept(old(mem[..]), old(layout), mem[..], layout)
    {
      ghost var l, m := layout, mem[..];
      ExtendKeeps(l, heapStart, heapEnd, len);
      var fp1 := brkval;
      brkval := brkval + (len + W);
      StoreWord(mem, fp1, len);
      layout := Extend(l, len);
      p := fp1 + W;
      ExtendRepresents(m, l, flp, heapStart, heapEnd, len, mem[..]);
    }
  
    // ------------------------------------------------------------------ free

    /** Makes the chunk at a point to the free chunk at b above it, or swallow it if a ends at b.
        free does this twice: with the freed chunk below, then with the freed chunk above. */
    method LinkTo(a: int, b: int)
      requires 0 <= a && a + 2 * W <= b && b + 2 * W <= mem.Length < MODULUS
      requires a + W + Word(mem[..], a) == b ==> b + W + Word(mem[..], b) <= mem.Length
      modifies mem
      ensures OnlyWords(old(mem[..]), 0, a, mem[..])
      ensures LinkedTo(old(mem[..]), a, b, mem[..])
    {
      ghost var m0 := mem[..];
      StoreWord(mem, a + W, b);
      ghost var m1 := mem[..];
      OtherWordKept(m0, a + W, b, m1, a);
      var sz := LoadWord(mem, a);
      if a + W + sz == b {
        OtherWordKept(m0, a + W, b, m1, b);
        OtherWordKept(m0, a + W, b, m1, b + W);
        Swallow(a, b, sz);
      }
    }

    method Swallow(a: int, b: int, sz: int)
      requires 0 <= a && a + 2 * W <= b && b + 2 * W <= mem.Length < MODULUS
      requires sz == Word(mem[..], a) && a + W + sz == b && b + W + Word(mem[..], b) <= mem.Length
      modifies mem
      ensures OnlyWords(old(mem[..]), 0, a, mem[..])
      ensures Word(mem[..], a) == sz + old(Word(mem[..], b)) + W
      ensures Word(mem[..], a + W) == old(Word(mem[..], b + W))
    {
      ghost var m1 := mem[..];
      var above := LoadWord(mem, b);
      StoreWord(mem, a, sz + (above + W));
      ghost var m2 := mem[..];
      OtherWordKept(m1, a, sz + (above + W), m2, b + W);
      var nx := LoadWord(mem, b + W);
      StoreWord(mem, a + W, nx);
      OtherWordKept(m2, a + W, nx, mem[..], a);
    }

    /** Finds the free chunks fp2 and fp1 around live chunk c, whose link has been cleared. */
    method Seek(ghost m: seq<Byte>, c: int) returns (fp2: int, fp1: int)
      requires W <= heapStart <= heapEnd <= mem.Length < MODULUS
      requires WellFormed(layout, heapStart, heapEnd) && Represents(m, layout, flp)
      requires c in layout.Live() && Stored(m, c + W, 0, mem[..])
      ensures Between(layout, fp2, c, fp1)
    {
      ghost var l := layout;
      fp2, fp1 := 0, flp;
      while fp1 != 0 && fp1 < c
        invariant IsNext(l.free, fp2, fp1) && (fp2 == 0 || fp2 in l.free) && fp2 < c
        decreases heapEnd - fp2
      {
        assert Headed(m, l, fp1) && Linked(m, l, fp1);
        assert l.End(fp1) <= c;
        OtherWordKept(m, c + W, 0, mem[..], fp1 + W);
        fp2 := fp1;
        fp1 := LoadWord(mem, fp1 + W);
      }
    }

    /** The first half of putting c between fp2 and fp1: its own header and link. */
    method InsertBefore(ghost m: seq<Byte>, c: int, ghost fp2: int, fp1: int)
      requires mem.Length == |m| < MODULUS
      requires WellFormed(layout, heapStart, |m|) && Represents(m, layout, flp)
      requires Between(layout, fp2, c, fp1) && Stored(m, c + W, 0, mem[..])
      modifies mem
      ensures AboveDone(m, layout, c, fp1, mem[..])
    {
      ghost var l, m1 := layout, mem[..];
      assert Headed(m, l, c) && Headed(m, l, fp1);
      OtherWordKept(m, c + W, 0, m1, c);
      if fp1 != 0 {
        assert l.End(c) <= fp1;
        OtherWordKept(m, c + W, 0, m1, fp1);
        OtherWordKept(m, c + W, 0, m1, fp1 + W);
        LinkTo(c, fp1);
      }
    }

    /** The second half: fp2's header and link, if there is such a chunk, or the list head. */
    method InsertAfter(ghost m: seq<Byte>, c: int, fp2: int, ghost fp1: int)
      requires mem.Length == |m| < MODULUS
      requires WellFormed(layout, heapStart, |m|) && Represents(m, layout, flp)
      requires Between(layout, fp2, c, fp1) && AboveDone(m, layout, c, fp1, mem[..])
      modifies this`flp, mem
      ensures Freed(m, layout, old(flp), heapStart, fp2, c, fp1, mem[..])
      ensures flp == if fp2 == 0 then c else old(flp)
    {
      ghost var l, m2 := layout, mem[..];
      assert Headed(m, l, c) && Headed(m, l, fp1) && Headed(m, l, fp2);
      if fp2 == 0 {
        flp := c;
      } else {
        assert l.End(fp2) <= c;
        SameBytesSameWord(m, m2, fp2);
        LinkTo(fp2, c);
        BelowDone(m, l, fp2, c, fp1, m2, mem[..]);
      }
    }

    /** Puts live chunk c, whose link has been cleared, into the free list. */
    method Insert(ghost m: seq<Byte>, c: int)
      requires W <= heapStart <= heapEnd <= mem.Length == |m| < MODULUS
      requires WellFormed(layout, heapStart, heapEnd) && WellFormed(layout, heapStart, |m|)
      requires Represents(m, layout, flp)
      requires c in layout.Live() && Stored(m, c + W, 0, mem[..])
      modifies this`flp, mem
      ensures Represents(mem[..], Release(layout, c), flp)
      ensures PayloadsKept(m, layout, mem[..], Release(layout, c))
    {
      var fp2, fp1 := Seek(m, c);
      InsertBefore(m, c, fp2, fp1);
      InsertAfter(m, c, fp2, fp1);
      FreedRepresents(m, layout, old(flp), heapStart, fp2, c, fp1, mem[..]);
    }

    /** Takes back the chunk whose payload is at p; 0 is ignored. */
    method Free(p: int)
      requires Valid() && (p == 0 || p - W in layout.Live())
      modifies this, mem
      ensures Valid() && brkval == old(brkval)
      ensures layout == if p == 0 then old(layout) else Release(old(layout), p - W)
      ensures PayloadsKept(old(mem[..]), old(layout), mem[..], layout)
    {
      if p == 0 {
        return;
      }
      ghost var l, m := layout, mem[..];
      var cpnew := p - W;
      assert Headed(m, l, cpnew);
      ReleaseKeeps(l, heapStart, heapEnd, cpnew);
      TiledBelow(l, heapStart, heapEnd, |m|);
      StoreWord(mem, cpnew + W, 0);
      Insert(m, cpnew);
      layout := Release(l, cpnew);
    }
  }
}
