/** A pager reading and writing the pages of a ramdisk (ramdisk.c, blockdev_pager.c). Requests are
    handled one at a time; posting them and waiting for them is not part of this model. */
module Ramdisks {
  import opened Common
  import opened BlockRanges

  type Byte = bv8

  const BLOCK_SIZE := 512
  const BLOCKS_PER_PAGE := 8

  /** lba_block_offset_in_bytes and lba_range_size_in_bytes, with a 32-bit size_t */
  function Bytes(blocks: nat): nat {
    (blocks * BLOCK_SIZE) % U32
  }

  /** What a device holds after the blocks from first on have been overwritten with data. */
  function Written(disk: seq<Byte>, at: nat, data: seq<Byte>): (r: seq<Byte>)
    requires at + |data| <= |disk|
    ensures |r| == |disk|
  {
    disk[..at] + data + disk[at + |data|..]
  }

  datatype RequestType = READ | WRITE

  /** Copies size bytes between different buffers. */
  method Memcpy(dst: array<Byte>, at: nat, src: array<Byte>, from: nat, size: nat)
    requires dst != src && at + size <= dst.Length && from + size <= src.Length
    modifies dst
    ensures dst[..] == Written(old(dst[..]), at, src[from..from + size])
  {
    for i := 0 to size
      invariant dst[..at] == old(dst[..at]) && dst[at + i..] == old(dst[at + i..])
      invariant dst[at..at + i] == src[from..from + i]
    {
      dst[at + i] := src[from + i];
    }
  }

  class Ramdisk {
    const buf: array<Byte>

    constructor (buf: array<Byte>)
      requires buf.Length < U32
      ensures this.buf == buf
    {
      this.buf := buf;
    }

    ghost predicate Valid() {
      buf.Length < U32
    }

    function NumBlocks(): nat {
      buf.Length / BLOCK_SIZE
    }

    /** ramdisk_handle_request: rc is 0 exactly if the request lies on the disk; then the blocks are
        copied, from the disk or to it, and nothing else changes. */
    method HandleRequest(kind: RequestType, lba: nat, numBlocks: nat, data: array<Byte>) returns (rc: int)
      requires Valid() && lba < U32 && numBlocks < U32 && data != buf
      requires numBlocks * BLOCK_SIZE <= data.Length
      modifies buf, data
      ensures rc == if lba + numBlocks <= NumBlocks() then 0 else EINVAL
      ensures rc != 0 || kind == READ ==> buf[..] == old(buf[..])
      ensures rc != 0 || kind == WRITE ==> data[..] == old(data[..])
      ensures rc == 0 && kind == READ ==>
                data[..] == buf[lba * BLOCK_SIZE..(lba + numBlocks) * BLOCK_SIZE] + old(data[numBlocks * BLOCK_SIZE..])
      ensures rc == 0 && kind == WRITE ==>
               buf[..] == Written(old(buf[..]), lba * BLOCK_SIZE, old(data[..numBlocks * BLOCK_SIZE]))
    {
      RangeValidExact(lba, numBlocks, NumBlocks());
      if !RangeValid(lba, numBlocks, NumBlocks()) {
        return EINVAL;
      }
      var at, size := Bytes(lba), Bytes(numBlocks);
      assert at == lba * BLOCK_SIZE && size == numBlocks * BLOCK_SIZE && at + size <= buf.Length;
      if kind == READ {
        Memcpy(data, 0, buf, at, size);
      } else {
        Memcpy(buf, at, data, 0, size);
        assert data[0..size] == data[..size];
      }
      return 0;
    }
  }

  // ------------------------------------------------------------------------------ pages

  /** The pager's blocks are blocks of a device of that many bytes. */
  predicate OnDisk(pager: Pager, size: nat) {
    size < U32 && pager.perPage == BLOCKS_PER_PAGE && pager.start + pager.num <= size / BLOCK_SIZE
  }

  /** Where on the disk a page is. */
  function From(r: Range): nat {
    r.first * BLOCK_SIZE
  }

  function To(r: Range): nat {
    (r.first + r.count) * BLOCK_SIZE
  }

  /** On a ramdisk, every page that begins within the pager's blocks gets the blocks it should have. */
  lemma PageOnDisk(pager: Pager, size: nat, page: nat)
    requires OnDisk(pager, size) && Intended(pager, page).Some?
    ensures page < U32 && PageRange(pager, page) == Intended(pager, page)
    ensures var r := Intended(pager, page).value;
            From(r) <= To(r) <= size && r.first + r.count <= pager.start + pager.num && r.count <= BLOCKS_PER_PAGE
  {
    PageRangeExact(pager, page);
  }

  /** The blocks a page gets, if any, are blocks of the pager, although it may not be the page that should
      have them. */
  lemma RangeOnDisk(pager: Pager, size: nat, page: nat)
    requires OnDisk(pager, size) && page < U32 && PageRange(pager, page).Some?
    ensures var r := PageRange(pager, page).value;
            && From(r) <= To(r) <= size && r.count <= BLOCKS_PER_PAGE
            && pager.start <= r.first && r.first + r.count <= pager.start + pager.num
  {
    RangeAtExact(pager, (page * pager.perPage) % U32);
  }

  function PageBytes(disk: seq<Byte>, r: Range): seq<Byte>
    requires To(r) <= |disk|
  {
    disk[From(r)..To(r)]
  }

  class RamdiskPager {
    const dev: Ramdisk
    const pager: Pager

    ghost predicate Valid() {
      dev.Valid() && OnDisk(pager, dev.buf.Length)
    }

    constructor (dev: Ramdisk, pager: Pager)
      requires dev.Valid() && OnDisk(pager, dev.buf.Length)
      ensures Valid() && this.dev == dev && this.pager == pager
    {
      this.dev, this.pager := dev, pager;
    }

    /** blockdev_pager_rw_page: reads the blocks of the page into the page buffer, or writes them from
        there; ok says whether its KASSERTs hold, and nothing changes if they do not. */
    method RwPage(kind: RequestType, data: array<Byte>, page: nat) returns (ok: bool, rc: int)
      requires Valid() && page < U32 && data.Length == PAGE_SIZE && data != dev.buf
      modifies dev.buf, data
      ensures ok <==> PageRange(pager, page).Some?
      ensures !ok ==> dev.buf[..] == old(dev.buf[..]) && data[..] == old(data[..])
      ensures ok ==>
                var r := PageRange(pager, page).value;
                && rc == 0 && From(r) <= To(r) <= dev.buf.Length && r.count * BLOCK_SIZE <= PAGE_SIZE
                && (kind == READ ==>
                     && dev.buf[..] == old(dev.buf[..])
                     && data[..] == PageBytes(dev.buf[..], r) + old(data[r.count * BLOCK_SIZE..]))
                && (kind == WRITE ==>
                     && dev.buf[..] == Written(old(dev.buf[..]), From(r), old(data[..r.count * BLOCK_SIZE]))
                     && data[..] == old(data[..]))
    {
      var range := PageRange(pager, page);
      if range.None? {
        return false, 0;
      }
      RangeOnDisk(pager, dev.buf.Length, page);
      var r := range.value;
      rc := dev.HandleRequest(kind, r.first, r.count, data);
      assert kind == READ ==> dev.buf[From(r)..To(r)] == PageBytes(dev.buf[..], r);
      return true, rc;
    }
  }

  /** A page written and read again gives the data written; the part of the page buffer beyond the end
      of the pager's blocks is neither. */
  lemma ReadAfterWrite(pager: Pager, disk: seq<Byte>, page: nat, data: seq<Byte>)
    requires OnDisk(pager, |disk|) && Intended(pager, page).Some?
    requires |data| == Intended(pager, page).value.count * BLOCK_SIZE
    ensures var r := Intended(pager, page).value;
            To(r) <= |disk| && PageBytes(Written(disk, From(r), data), r) == data
  {
    PageOnDisk(pager, |disk|, page);
  }

  /** Writing a page leaves every other page alone, and every byte outside the pager's blocks. */
  lemma OthersKept(pager: Pager, disk: seq<Byte>, page: nat, data: seq<Byte>, other: nat, i: nat)
    requires OnDisk(pager, |disk|) && Intended(pager, page).Some? && Intended(pager, other).Some? && other != page
    requires |data| == Intended(pager, page).value.count * BLOCK_SIZE
    ensures var r, o := Intended(pager, page).value, Intended(pager, other).value;
            && To(r) <= |disk| && To(o) <= |disk|
            && PageBytes(Written(disk, From(r), data), o) == PageBytes(disk, o)
            && (i < |disk| && !(pager.start * BLOCK_SIZE <= i < (pager.start + pager.num) * BLOCK_SIZE) ==>
                 Written(disk, From(r), data)[i] == disk[i])
  {
    var r, o := Intended(pager, page).value, Intended(pager, other).value;
    PageOnDisk(pager, |disk|, page);
    PageOnDisk(pager, |disk|, other);
    if page < other {
      PagesDisjoint(pager, page, other);
    } else {
      PagesDisjoint(pager, other, page);
    }
    var disk' := Written(disk, From(r), data);
    forall k | From(o) <= k < To(o) ensures disk'[k] == disk[k] {}
    assert PageBytes(disk', o) == PageBytes(disk, o);
  }
}
