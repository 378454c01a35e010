/** Ranges of blocks in 32-bit arithmetic (range.c, lba.c), and the range of blocks of a page
    (blockdev_pager.c). */
module BlockRanges {
  import opened Common

  // ---------------------------------------------------------------------- powers of two

  function Pow2(k: nat): (r: nat)
    ensures r >= 1
  {
    if k == 0 then 1 else 2 * Pow2(k - 1)
  }

  /** The number of one bits in n. */
  function Ones(n: nat): nat {
    if n == 0 then 0 else n % 2 + Ones(n / 2)
  }

  ghost predicate IsPow2(n: nat) {
    exists k: nat :: n == Pow2(k)
  }

  /** range_bit_count */
  method BitCount(value: nat) returns (count: int)
    requires value < U32
    ensures count == Ones(value)
  {
    var val := value;
    count := 0;
    while val != 0
      invariant count + Ones(val) == Ones(value)
    {
      count := count + val % 2;
      val := val / 2;
    }
  }

  lemma {:induction false} OnesZero(n: nat)
    ensures Ones(n) == 0 <==> n == 0
  {
    if n != 0 {
      OnesZero(n / 2);
    }
  }

  /** One bit is set exactly in the powers of two. */
  lemma {:induction false} OneBit(n: nat)
    ensures Ones(n) == 1 <==> IsPow2(n)
  {
    if n == 0 {
    } else if n % 2 == 1 {
      OnesZero(n / 2);
      if Ones(n) == 1 {
        assert n == Pow2(0);
      }
      if k: nat :| n == Pow2(k) {
        assert k == 0;
      }
    } else {
      OneBit(n / 2);
      if Ones(n) == 1 {
        var k: nat :| n / 2 == Pow2(k);
        assert n == Pow2(k + 1);
      }
      if k: nat :| n == Pow2(k) {
        assert k > 0 && n / 2 == Pow2(k - 1);
      }
    }
  }

  /** range_is_power_of_two accepts exactly the powers of two. */
  method IsPowerOfTwo(value: nat) returns (b: bool)
    requires value < U32
    ensures b <==> IsPow2(value)
  {
    var count := BitCount(value);
    OneBit(value);
    return count == 1;
  }

  lemma {:induction false} Pow2Divides(j: nat, k: nat)
    requires j <= k
    ensures Pow2(k) % Pow2(j) == 0 && Pow2(k) / Pow2(j) * Pow2(j) == Pow2(k)
    decreases k
  {
    if j < k {
      Pow2Divides(j, k - 1);
      var q, d := Pow2(k - 1) / Pow2(j), Pow2(j);
      assert Pow2(k) == (2 * q) * d;
      DivideExact(2 * q, d);
    } else {
      DivideExact(1, Pow2(j));
    }
  }

  lemma DivideExact(q: nat, d: nat)
    requires d > 0
    ensures (q * d) % d == 0 && (q * d) / d == q
  {
    var p, r := (q * d) / d, (q * d) % d;
    assert (q - p) * d == r;
    assert q - p < 1 && q - p > -1 by {
      assert (q - p) >= 1 ==> (q - p) * d >= d;
      assert (q - p) <= -1 ==> (q - p) * d <= 0 - d;
    }
  }

  lemma {:induction false} Pow2Order(j: nat, k: nat)
    requires Pow2(j) <= Pow2(k)
    ensures j <= k
  {
    if j > 0 && k > 0 {
      Pow2Order(j - 1, k - 1);
    }
  }

  /** A block size that is a power of two, and no larger than a page, divides the page. */
  lemma BlocksFillPage(blockSize: nat)
    requires IsPow2(blockSize) && blockSize <= PAGE_SIZE
    ensures PAGE_SIZE / blockSize * blockSize == PAGE_SIZE && 1 <= PAGE_SIZE / blockSize <= PAGE_SIZE
  {
    var j: nat :| blockSize == Pow2(j);
    assert PAGE_SIZE == Pow2(12);
    Pow2Order(j, 12);
    Pow2Divides(j, 12);
    var q := PAGE_SIZE / blockSize;
    if q == 0 {
      assert q * blockSize == 0;
    }
    assert q <= q * blockSize;
  }

  // ---------------------------------------------------------------------- block numbers

  /** range_is_valid_u32 */
  predicate RangeValid(start: nat, num: nat, total: nat) {
    if num > total then false else start <= (total - num) % U32
  }

  /** It says whether start + num <= total, though that sum may not fit in 32 bits. */
  lemma RangeValidExact(start: nat, num: nat, total: nat)
    requires start < U32 && num < U32 && total < U32
    ensures RangeValid(start, num, total) <==> start + num <= total
  {
  }

  /** lba_add_offset, nothing if its KASSERT fails. */
  function AddOffset(start: nat, offset: nat): Option<nat> {
    var dest := (start + offset) % U32;
    if dest >= start then Some(dest) else None
  }

  /** Its KASSERT fails exactly if the sum does not fit. */
  lemma AddOffsetExact(start: nat, offset: nat)
    requires start < U32 && offset < U32
    ensures AddOffset(start, offset) == if start + offset < U32 then Some(start + offset) else None
  {
  }

  /** A pager of num blocks from start on, of a device whose blocks go perPage to a page. */
  datatype Pager = Pager(start: nat, num: nat, perPage: nat)

  /** First block and number of blocks of an I/O request. */
  datatype Range = Range(first: nat, count: nat)

  /** The range of blocks at offset at into the pager, nothing if a KASSERT fails. */
  function RangeAt(pager: Pager, at: nat): Option<Range> {
    var first := AddOffset(pager.start, at);
    if first.None? then None
    else
      var end := AddOffset(first.value, pager.perPage);
      var last := AddOffset(pager.start, pager.num);
      if end.None? || last.None? then None
      else
        var stop := if last.value < end.value then last.value else end.value;
        if first.value <= stop then Some(Range(first.value, stop - first.value)) else None
  }

  /** The range of blocks computed by blockdev_pager_rw_page. */
  function PageRange(pager: Pager, page: nat): Option<Range> {
    RangeAt(pager, (page * pager.perPage) % U32)
  }

  /** The blocks a page should have: perPage of them, or what is left at the end. */
  function Intended(pager: Pager, page: nat): Option<Range> {
    IntendedAt(pager, page * pager.perPage)
  }

  function IntendedAt(pager: Pager, at: nat): Option<Range> {
    if at > pager.num then None
    else Some(Range(pager.start + at, if pager.num - at < pager.perPage then pager.num - at else pager.perPage))
  }

  predicate PagerOk(pager: Pager) {
    pager.start + pager.num < U32 && 1 <= pager.perPage <= PAGE_SIZE
  }

  lemma RangeAtExact(pager: Pager, at: nat)
    requires PagerOk(pager) && at < U32
    ensures IntendedAt(pager, at).Some? && RangeAt(pager, at) == IntendedAt(pager, at) <==>
              at <= pager.num && pager.start + at + pager.perPage < U32
    ensures pager.num < at ==> RangeAt(pager, at).None?
    ensures RangeAt(pager, at).None? <==> !(at <= pager.num && pager.start + at + pager.perPage < U32)
  {
    AddOffsetExact(pager.start, pager.num);
    AddOffsetExact(pager.start, at);
    if pager.start + at < U32 {
      AddOffsetExact(pager.start + at, pager.perPage);
    }
  }

  lemma WrappedRangeExact(pager: Pager, at: nat)
    requires PagerOk(pager)
    ensures IntendedAt(pager, at).Some? && RangeAt(pager, at % U32) == IntendedAt(pager, at) <==>
              at <= pager.num && pager.start + at + pager.perPage < U32
    ensures pager.num < at < U32 ==> RangeAt(pager, at % U32).None?
  {
    if at < U32 {
      RangeAtExact(pager, at);
    }
  }

  /** A page gets the blocks it should have exactly if it begins within the pager's blocks and its end,
      were it not cut off, has a 32-bit block number; a page beyond them gets none as long as the product
      does not wrap around. */
  lemma PageRangeExact(pager: Pager, page: nat)
    requires PagerOk(pager) && page < U32
    ensures Intended(pager, page).Some? && PageRange(pager, page) == Intended(pager, page) <==>
              page * pager.perPage <= pager.num && pager.start + page * pager.perPage + pager.perPage < U32
    ensures pager.num < page * pager.perPage < U32 ==> PageRange(pager, page).None?
  {
    WrappedRangeExact(pager, page * pager.perPage);
  }

  /** A page beyond the pager's blocks, which should be refused, is refused exactly if what the product
      wraps around to is not an offset that a page of the pager could have. */
  lemma BeyondRefused(pager: Pager, page: nat)
    requires PagerOk(pager) && page < U32 && pager.num < page * pager.perPage
    ensures var wrapped := (page * pager.perPage) % U32;
            PageRange(pager, page).None? <==>
              !(wrapped <= pager.num && pager.start + wrapped + pager.perPage < U32)
  {
    RangeAtExact(pager, (page * pager.perPage) % U32);
  }

  /** Beyond the pager's blocks the 32-bit product can wrap around, and a page that does not exist gets
      the blocks of one that does: with 8 blocks to a page, page 2^29 is page 0. */
  lemma PageNumberWraps(pager: Pager)
    requires PagerOk(pager) && pager.perPage == 8
    ensures PageRange(pager, 0x2000_0000) == PageRange(pager, 0)
  {
  }

  /** Within the pager's blocks a page can be refused for the end it would have if it were not cut off: of
      a pager of the 9 blocks before the last that has a 32-bit number, page 1 should get one block. */
  lemma LastPageRefused()
    ensures var pager := Pager(U32 - 10, 9, 8);
            PagerOk(pager) && Intended(pager, 1) == Some(Range(U32 - 2, 1)) && PageRange(pager, 1) == None
  {
  }

  lemma NextMultiple(p: nat, q: nat, d: nat)
    requires p < q
    ensures p * d + d <= q * d
  {
    assert (q - p - 1) * d >= 0;
    assert q * d == p * d + d + (q - p - 1) * d;
  }

  /** The blocks of different pages are disjoint. */
  lemma PagesDisjoint(pager: Pager, p: nat, q: nat)
    requires p < q && Intended(pager, p).Some? && Intended(pager, q).Some?
    ensures var r, t := Intended(pager, p).value, Intended(pager, q).value; r.first + r.count <= t.first
  {
    NextMultiple(p, q, pager.perPage);
  }

  /** Every block of the pager belongs to a page, and every block of a page to the pager. */
  lemma PagesCover(pager: Pager, block: nat)
    requires pager.perPage >= 1
    ensures pager.start <= block < pager.start + pager.num <==>
              exists page: nat :: Intended(pager, page).Some? &&
                var r := Intended(pager, page).value; r.first <= block < r.first + r.count
  {
    if pager.start <= block < pager.start + pager.num {
      var off := block - pager.start;
      var page := off / pager.perPage;
      assert page * pager.perPage <= off < page * pager.perPage + pager.perPage;
      assert Intended(pager, page).Some?;
    }
  }

  /** blockdev_pager_create: the range must be one of the device, and blocks no larger than pages. */
  method CreatePager(start: nat, num: nat, devBlocks: nat, blockSize: nat) returns (rc: int, pager: Pager)
    requires start < U32 && num < U32 && devBlocks < U32 && blockSize < U32 && IsPow2(blockSize)
    ensures rc == 0 <==> start + num <= devBlocks && blockSize <= PAGE_SIZE
    ensures rc != 0 ==> rc == EINVAL
    ensures rc == 0 ==>
              && PagerOk(pager) && pager.start == start && pager.num == num
              && pager.perPage * blockSize == PAGE_SIZE
  {
    pager := Pager(0, 0, 0);
    RangeValidExact(start, num, devBlocks);
    if !RangeValid(start, num, devBlocks) {
      return EINVAL, pager;
    }
    if blockSize > PAGE_SIZE {
      return EINVAL, pager;
    }
    BlocksFillPage(blockSize);
    return 0, Pager(start, num, PAGE_SIZE / blockSize);
  }
}
