/** The page tables the kernel boots with (x86_vm.c), read as the processor reads them (Intel 64 and
    IA-32 Architectures Software Developer's Manual, volume 3A, section 4.3). */
module PageTables {
  import opened Common

  const SPAN := 0x40_0000
  const ENTRIES := 1024
  const MEMORY_MAX := 0x8000_0000

  const VM_WRITE := 1
  const VM_READ := 0
  const VM_EXEC := 0

  /** The fields of a page table or page directory entry that the kernel sets. large is the bit that
      makes a directory entry a 4M page; a page table entry has none. */
  datatype Entry = Entry(present: bool, flags: nat, large: bool, base: nat)

  const ABSENT := Entry(false, 0, false, 0)

  /** Shifts and masks of vm.h */
  function DirIndex(addr: nat): (i: nat)
    ensures i < ENTRIES
  {
    (addr / SPAN) % ENTRIES
  }

  function TableIndex(addr: nat): (i: nat)
    ensures i < ENTRIES
  {
    (addr / PAGE_SIZE) % ENTRIES
  }

  function Base(addr: nat): nat {
    addr / PAGE_SIZE
  }

  datatype Mapping = Mapping(paddr: nat, writable: bool)

  /** 32-bit paging with 4M pages enabled: a directory entry maps 4M itself, or points to the page table
      whose entry maps 4K. tableAt is the address of the one page table there is. */
  function Translate(dir: seq<Entry>, table: seq<Entry>, tableAt: nat, vaddr: nat): Option<Mapping>
    requires |dir| == ENTRIES && |table| == ENTRIES
  {
    var pde := dir[DirIndex(vaddr)];
    if !pde.present then None
    else if pde.large then
      Some(Mapping((pde.base / ENTRIES) * SPAN + vaddr % SPAN, pde.flags % 2 == 1))
    else if pde.base != Base(tableAt) then None
    else
      var pte := table[TableIndex(vaddr)];
      if !pte.present then None
      else Some(Mapping(pte.base * PAGE_SIZE + vaddr % PAGE_SIZE, pde.flags % 2 == 1 && pte.flags % 2 == 1))
  }

  function Max(a: nat, b: nat): nat {
    if a < b then b else a
  }

  function RoundUp(n: nat, unit: nat): nat
    requires unit > 0
  {
    (n + unit - 1) / unit * unit
  }

  /** The memory the kernel maps: what the boot loader found above 1M, in kilobytes, multiplied in 32-bit
      arithmetic, and at most 2G. */
  function MemoryLimit(memUpper: nat): (r: nat)
    ensures r <= MEMORY_MAX
  {
    var mem := (memUpper * 1024) % U32;
    if mem > MEMORY_MAX then MEMORY_MAX else mem
  }

  /** memset of a table to zero */
  method Clear(entries: array<Entry>)
    modifies entries
    ensures forall k :: 0 <= k < entries.Length ==> entries[k] == ABSENT
  {
    for i := 0 to entries.Length
      invariant forall k :: 0 <= k < i ==> entries[k] == ABSENT
    {
      entries[i] := ABSENT;
    }
  }

  /** vm_set_pte */
  method SetPte(table: array<Entry>, flags: nat, vaddr: nat, paddr: nat)
    requires table.Length == ENTRIES && vaddr % PAGE_SIZE == 0 && paddr % PAGE_SIZE == 0
    modifies table
    ensures table[..] == old(table[..])[TableIndex(vaddr) := Entry(true, flags, false, Base(paddr))]
  {
    table[TableIndex(vaddr)] := Entry(true, flags, false, Base(paddr));
  }

  /** vm_set_pde */
  method SetPde(dir: array<Entry>, flags: nat, vaddr: nat, paddr: nat)
    requires dir.Length == ENTRIES && vaddr % SPAN == 0 && paddr % PAGE_SIZE == 0
    modifies dir
    ensures dir[..] == old(dir[..])[DirIndex(vaddr) := Entry(true, flags, false, Base(paddr))]
  {
    dir[DirIndex(vaddr)] := Entry(true, flags, false, Base(paddr));
  }

  /** vm_set_pde_4m */
  method SetPde4M(dir: array<Entry>, flags: nat, vaddr: nat, paddr: nat)
    requires dir.Length == ENTRIES && vaddr % SPAN == 0 && paddr % PAGE_SIZE == 0
    modifies dir
    ensures dir[..] == old(dir[..])[DirIndex(vaddr) := Entry(true, flags, true, Base(paddr))]
  {
    dir[DirIndex(vaddr)] := Entry(true, flags, true, Base(paddr));
  }

  /** The tables as filled: all of the page table but entry 0, and the directory up to the limit. */
  ghost predicate TableFilled(table: seq<Entry>) {
    |table| == ENTRIES && table[0] == ABSENT
    && forall i :: 1 <= i < ENTRIES ==> table[i] == Entry(true, VM_WRITE + VM_READ + VM_EXEC, false, i)
  }

  ghost predicate DirFilled(dir: seq<Entry>, tableAt: nat, limit: nat) {
    |dir| == ENTRIES
    && dir[0] == Entry(true, VM_WRITE + VM_READ + VM_EXEC, false, Base(tableAt))
    && forall i :: 1 <= i < ENTRIES ==>
         dir[i] == if i * SPAN < limit then Entry(true, VM_WRITE + VM_READ + VM_EXEC, true, i * ENTRIES) else ABSENT
  }

  /** Every address from 4096 up to the limit, rounded up to 4M and at least 4M, is mapped to itself and
      writable; page 0, to catch null pointers, and everything above are not mapped. */
  lemma IdentityMapped(dir: seq<Entry>, table: seq<Entry>, tableAt: nat, limit: nat, vaddr: nat)
    requires TableFilled(table) && DirFilled(dir, tableAt, limit) && limit <= MEMORY_MAX && vaddr < U32
    ensures Translate(dir, table, tableAt, vaddr) ==
            if PAGE_SIZE <= vaddr < Max(SPAN, RoundUp(limit, SPAN)) then Some(Mapping(vaddr, true)) else None
  {
    var i := DirIndex(vaddr);
    assert vaddr == i * SPAN + vaddr % SPAN;
    if i == 0 {
      assert TableIndex(vaddr) == vaddr / PAGE_SIZE;
    } else {
      assert i * SPAN < limit <==> vaddr < RoundUp(limit, SPAN);
    }
  }

  function Min(a: nat, b: nat): nat {
    if a < b then a else b
  }

  /** What is mapped is what memory there is, up to 2G, unless there is so much that its size in bytes has
      no 32-bit number, and what that wraps around to is less than 2G. */
  lemma LimitRight(memUpper: nat)
    ensures MemoryLimit(memUpper) == Min(memUpper * 1024, 0x8000_0000) <==>
              memUpper * 1024 < U32 || (memUpper * 1024) % U32 >= 0x8000_0000
  {
  }

  /** With 4G of memory above the first M, nothing is mapped beyond the page table. */
  lemma LimitWraps(dir: seq<Entry>, table: seq<Entry>, tableAt: nat)
    requires TableFilled(table) && DirFilled(dir, tableAt, MemoryLimit(0x40_0000))
    ensures Translate(dir, table, tableAt, SPAN) == None
  {
    IdentityMapped(dir, table, tableAt, 0, SPAN);
  }

  /** The tables map to itself the memory below the limit, rounded up to 4M and at least 4M, but page 0, and
      nothing else. */
  ghost predicate Map(dir: seq<Entry>, table: seq<Entry>, tableAt: nat, limit: nat) {
    |dir| == ENTRIES && |table| == ENTRIES
    && forall vaddr: nat :: vaddr < U32 ==>
         Translate(dir, table, tableAt, vaddr) ==
         if PAGE_SIZE <= vaddr < Max(SPAN, RoundUp(limit, SPAN)) then Some(Mapping(vaddr, true)) else None
  }

  lemma MemoryMapped(dir: seq<Entry>, table: seq<Entry>, tableAt: nat, memUpper: nat)
    requires TableFilled(table) && DirFilled(dir, tableAt, MemoryLimit(memUpper)) && memUpper * 1024 < U32
    ensures Map(dir, table, tableAt, Min(memUpper * 1024, 0x8000_0000))
  {
    LimitRight(memUpper);
    forall vaddr: nat | vaddr < U32
      ensures Translate(dir, table, tableAt, vaddr) ==
               if PAGE_SIZE <= vaddr < Max(SPAN, RoundUp(Min(memUpper * 1024, 0x8000_0000), SPAN))
               then Some(Mapping(vaddr, true)) else None
    {
      IdentityMapped(dir, table, tableAt, MemoryLimit(memUpper), vaddr);
    }
  }

  lemma LargePageIndex(n: nat)
    requires n < ENTRIES
    ensures (n * SPAN) % SPAN == 0 && DirIndex(n * SPAN) == n && Base(n * SPAN) == n * ENTRIES
  {
    assert (n * SPAN) / SPAN == n;
  }

  lemma PageIndex(n: nat)
    requires n < ENTRIES
    ensures (n * PAGE_SIZE) % PAGE_SIZE == 0 && TableIndex(n * PAGE_SIZE) == n && Base(n * PAGE_SIZE) == n
  {
    assert (n * PAGE_SIZE) / PAGE_SIZE == n;
  }

  /** The part of vm_init_paging that fills the page table. */
  method FillTable(table: array<Entry>)
    requires table.Length == ENTRIES
    modifies table
    ensures TableFilled(table[..])
  {
    var flags := VM_WRITE + VM_READ + VM_EXEC;
    Clear(table);
    var paddr := PAGE_SIZE;
    ghost var n := 1;
    while paddr < SPAN
      invariant paddr == n * PAGE_SIZE && 1 <= n <= ENTRIES
      invariant table[0] == ABSENT && forall k :: 1 <= k < n ==> table[k] == Entry(true, flags, false, k)
    {
      PageIndex(n);
      SetPte(table, flags, paddr, paddr);
      paddr := paddr + PAGE_SIZE;
      n := n + 1;
    }
  }

  /** And the part that fills the page directory, whose first entry points to the page table. */
  method FillTables(dir: array<Entry>, table: array<Entry>, tableAt: nat, memUpper: nat)
    requires dir != table && dir.Length == ENTRIES && table.Length == ENTRIES && tableAt % PAGE_SIZE == 0
    modifies dir, table
    ensures TableFilled(table[..]) && DirFilled(dir[..], tableAt, MemoryLimit(memUpper))
  {
    var flags := VM_WRITE + VM_READ + VM_EXEC;
    Clear(dir);
    var memMax := (memUpper * 1024) % U32;
    if memMax > MEMORY_MAX {
      memMax := MEMORY_MAX;
    }
    FillTable(table);
    SetPde(dir, flags, 0, tableAt);
    var paddr := SPAN;
    ghost var n := 1;
    while paddr < memMax
      invariant paddr == n * SPAN && 1 <= n <= ENTRIES / 2 + 1 && (n > 1 ==> (n - 1) * SPAN < memMax)
      invariant dir[0] == Entry(true, flags, false, Base(tableAt))
      invariant forall k :: 1 <= k < n ==> dir[k] == Entry(true, flags, true, k * ENTRIES)
      invariant forall k :: n <= k < ENTRIES ==> dir[k] == ABSENT
      invariant TableFilled(table[..])
      decreases memMax - paddr
    {
      LargePageIndex(n);
      SetPde4M(dir, flags, paddr, paddr);
      paddr := paddr + SPAN;
      n := n + 1;
    }
  }

  const ONE_M := 0x10_0000

  /** Of 65M of memory the last is not mapped. */
  lemma TopUnmapped(dir: seq<Entry>, table: seq<Entry>, tableAt: nat)
    requires TableFilled(table) && DirFilled(dir, tableAt, MemoryLimit(64 * 1024))
    ensures Translate(dir, table, tableAt, 64 * ONE_M) == None
  {
    IdentityMapped(dir, table, tableAt, 64 * ONE_M, 64 * ONE_M);
  }

  /** memUpper leaves out the first M; so all memory, if there are not more than 2G, lies below what is mapped
      if and only if there are not more than 4M, or what is left over of a multiple of 4M is nothing or more
      than 1M. */
  lemma AllMemoryMapped(memUpper: nat)
    ensures var size := ONE_M + memUpper * 1024;
            size <= Max(SPAN, RoundUp(memUpper * 1024, SPAN)) <==>
              size <= SPAN || size % SPAN == 0 || size % SPAN > ONE_M
  {
    var limit := memUpper * 1024;
    var q, r := limit / SPAN, limit % SPAN;
    assert limit == q * SPAN + r;
    if r == 0 {
      assert RoundUp(limit, SPAN) == limit && (ONE_M + limit) % SPAN == ONE_M;
    } else {
      assert (limit + SPAN - 1) / SPAN == q + 1;
      if r + ONE_M < SPAN {
        assert (ONE_M + limit) % SPAN == r + ONE_M;
      } else {
        assert (ONE_M + limit) % SPAN == r + ONE_M - SPAN;
      }
    }
  }

  /** vm_init_paging, for memUpper kilobytes of memory above the first M. */
  method InitPaging(dir: array<Entry>, table: array<Entry>, tableAt: nat, memUpper: nat)
    requires dir != table && dir.Length == ENTRIES && table.Length == ENTRIES && tableAt % PAGE_SIZE == 0
    modifies dir, table
    ensures memUpper * 1024 < U32 ==> Map(dir[..], table[..], tableAt, Min(memUpper * 1024, 0x8000_0000))
  {
    FillTables(dir, table, tableAt, memUpper);
    if memUpper * 1024 < U32 {
      MemoryMapped(dir[..], table[..], tableAt, memUpper);
    }
  }
}
