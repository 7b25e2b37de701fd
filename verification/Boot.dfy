/** How vmm_init (kernel/mm/vmm.c) takes the kernel's memory into the identity
    mapping, 2 MiB at a time, so that every frame the allocator hands out can be
    reached at its own address. */
module Boot {
  import opened Base
  import opened Paging
  import opened Spaces
  import opened Vmm
  import opened Stacks
  import P = Pmm

  const PAGE_2MB: nat := 0x20_0000
  const CANONICAL: nat := 0x1_0000_0000_0000

  function Number(p: Page): nat {
    p.i4 * 0x800_0000 + p.i3 * 0x4_0000 + p.i2 * 512 + p.i1
  }

  /** Every page that the kernel's directories cover is mapped to its own address. */
  ghost predicate Direct(m: Mem, k: nat) {
    forall p :: PdEntry(m, k, p).present ==> Walk(m, k, p) == Mapped(Number(p), true, false)
  }

  /** What a directory covered it still covers, with the same translation. */
  ghost predicate Kept(m: Mem, m': Mem, k: nat) {
    forall p :: PdEntry(m, k, p).present ==> PdEntry(m', k, p).present && Walk(m', k, p) == Walk(m, k, p)
  }

  ghost predicate DirsSame(m: Mem, m': Mem, k: nat) {
    forall p :: PdEntry(m', k, p) == PdEntry(m, k, p) && Walk(m', k, p) == Walk(m, k, p)
  }

  /** The 512 pages around q are mapped to themselves now unless their directory
      entry was in use; no other page changed. */
  ghost predicate DirFilled(m: Mem, m': Mem, k: nat, q: Page) {
    && PdEntry(m', k, q).present
    && (forall p :: SameDir(p, q) && !PdEntry(m, k, q).present ==>
      PdEntry(m', k, p).present && Walk(m', k, p) == Mapped(Number(p), true, false))
    && (forall p :: SameDir(p, q) && PdEntry(m, k, q).present ==>
      PdEntry(m', k, p) == PdEntry(m, k, p) && Walk(m', k, p) == Walk(m, k, p))
    && (forall p :: !SameDir(p, q) ==> PdEntry(m', k, p) == PdEntry(m, k, p) && Walk(m', k, p) == Walk(m, k, p))
  }

  /** map_2mb_identity. It maps the 2 MiB unless their directory entry is in use,
      or changes no translation because memory ran out. */
  method Map2mbIdentity(vm: AddressSpaces, addr: nat)
    requires vm.Valid() && vm.spaces == {} && addr % PAGE_2MB == 0 && addr < CANONICAL
    modifies vm`mem, vm`bytes, vm`shape, vm.pmm, vm.pmm.bitmap
    ensures vm.Valid() && vm.pmm.idleFrees == old(vm.pmm.idleFrees) && vm.pmm.free <= old(vm.pmm.free)
    ensures DirFilled(old(vm.mem), vm.mem, vm.kernelPml4, PageOf(addr))
      || (DirsSame(old(vm.mem), vm.mem, vm.kernelPml4) && vm.pmm.free == {})
  {
    hide P.Agrees, P.LowestRun, P.FreeRun, P.Frames, Sound, SpacesOk, Grown, MadeTable, SamePd, At, PdEntry, Walk,
         PageOf, DirFilled, DirsSame, Fits, Store, FrameOf;
    ghost var a, k, q := vm.Snap(), vm.kernelPml4, PageOf(addr);
    KernelRoot(a, k);
    var pdpt := vm.GetOrCreateTable(vm.kernelPml4, PageOf(addr).i4);
    NoSpaces(vm.Snap(), k);
    GrownDirs(a, vm.Snap(), k);
    if pdpt == 0 {
      return;
    }
    ghost var b := vm.Snap();
    TableMade(a, b, k, q.i4, pdpt);
    var pd := vm.GetOrCreateTable(pdpt, PageOf(addr).i3);
    NoSpaces(vm.Snap(), k);
    GrownDirs(b, vm.Snap(), k);
    SameTwice(a.mem, b.mem, vm.mem, k);
    if pd == 0 {
      return;
    }
    ghost var c := vm.Snap();
    PathToDir(a, b, c, k, q, pdpt, pd);
    if !At(vm.mem, pd, PageOf(addr).i2).present {
      vm.StoreEntry(pd, PageOf(addr).i2, Entry(true, true, false, true, FrameOf(addr)));
      NoSpaces(vm.Snap(), k);
      Filled(c, vm.Snap(), k, addr, pd);
      FilledLater(a.mem, c.mem, vm.mem, k, q);
    } else {
      InUse(a.mem, c.mem, k, q);
    }
  }

  lemma KernelRoot(a: View, k: nat)
    requires Sound(a, k)
    ensures IsTable(a.shape, k, 4)
  {
  }

  lemma NoSpaces(a: View, k: nat)
    ensures SpacesOk(a.mem, a.shape, k, {}, a.free)
  {
  }

  lemma GrownDirs(a: View, b: View, k: nat)
    requires Sound(a, k) && Grown(a, b) && SamePd(a.mem, b.mem, a.shape)
    ensures DirsSame(a.mem, b.mem, k) && b.free <= a.free
  {
  }

  lemma SameTwice(m: Mem, m1: Mem, m2: Mem, k: nat)
    requires DirsSame(m, m1, k) && DirsSame(m1, m2, k)
    ensures DirsSame(m, m2, k)
  {
  }

  lemma TableMade(a: View, b: View, k: nat, i: nat, c: nat)
    requires MadeTable(a, b, k, i, c) && IsTable(a.shape, k, 4)
    ensures c in b.shape.level && b.shape.level[c] == 3
  {
  }

  /** The two links lead from the kernel's root to the page directory. */
  lemma PathToDir(a: View, b: View, c: View, k: nat, q: Page, pdpt: nat, pd: nat)
    requires Sound(a, k) && Sound(b, k) && Sound(c, k) && Grown(b, c) && IsTable(a.shape, k, 4)
    requires MadeTable(a, b, k, q.i4, pdpt) && pdpt in b.shape.level && b.shape.level[pdpt] == 3
      && MadeTable(b, c, pdpt, q.i3, pd)
    ensures DirAt(c.mem, k, q, pd) && IsTable(c.shape, pd, 2) && PdEntry(c.mem, k, q) == At(c.mem, pd, q.i2)
    ensures Fits(c.mem, c.bytes) && pd < |c.mem| && |c.mem[pd]| == ENTRIES
  {
    assert EntryOk(c.mem, c.shape, k, q.i4);
  }

  lemma Filled(c: View, d: View, k: nat, addr: nat, pd: nat)
    requires Sound(c, k) && IsTable(c.shape, pd, 2) && addr % PAGE_2MB == 0 && addr < CANONICAL
    requires DirAt(c.mem, k, PageOf(addr), pd) && !At(c.mem, pd, PageOf(addr).i2).present && pd < |c.mem|
      && |c.mem[pd]| == ENTRIES
    requires PdEntry(c.mem, k, PageOf(addr)) == At(c.mem, pd, PageOf(addr).i2)
    requires d.mem == Store(c.mem, pd, PageOf(addr).i2, Entry(true, true, false, true, FrameOf(addr)))
    requires d.shape == c.shape && d.free == c.free && Fits(d.mem, d.bytes)
    ensures Sound(d, k) && DirFilled(c.mem, d.mem, k, PageOf(addr))
  {
    hide WellFormed, Walk, PdEntry, PageOf, At, Store, FrameOf, DirAt;
    var q, e := PageOf(addr), Entry(true, true, false, true, FrameOf(addr));
    SetHugeKeeps(c.mem, c.shape, k, pd, q.i2, e);
    KernelRoot(c, k);
    SetHugeWalks(c.mem, c.shape, k, k, q, pd, e);
    forall p | SameDir(p, q)
      ensures FrameOf(addr) + p.i1 == Number(p)
    {
      BlockPage(addr, p);
    }
  }

  lemma BlockPage(addr: nat, p: Page)
    requires addr % PAGE_2MB == 0 && addr < CANONICAL && SameDir(p, PageOf(addr))
    ensures FrameOf(addr) + p.i1 == Number(p)
  {
    Digits(addr);
    assert addr / PAGE < 0x100_0000_0000;
    assert addr / PAGE % 512 == 0;
  }

  lemma FilledLater(m: Mem, m1: Mem, m2: Mem, k: nat, q: Page)
    requires DirsSame(m, m1, k) && DirFilled(m1, m2, k, q)
    ensures DirFilled(m, m2, k, q)
  {
    hide Walk, PdEntry, Number;
  }

  lemma InUse(m: Mem, m1: Mem, k: nat, q: Page)
    requires DirsSame(m, m1, k) && PdEntry(m1, k, q).present
    ensures DirFilled(m, m1, k, q)
  {
    hide Walk, PdEntry, Number;
  }

  // ---------------------------------------------------------------------------
  // All usable memory

  /** The blocks of 2 MiB from lo on and below hi are entered in a directory. */
  ghost predicate BlocksDone(m: Mem, k: nat, lo: nat, hi: nat) {
    forall n: nat :: lo <= n * PAGE_2MB < hi ==> PdEntry(m, k, PageOf(n * PAGE_2MB)).present
  }

  /** So is every whole frame of the region. */
  ghost predicate RegionDone(m: Mem, k: nat, r: P.Region) {
    forall f: nat :: P.Inside(r, f) ==> PdEntry(m, k, PageOf(f * PAGE)).present
  }

  /** What entering blocks keeps, from the state a on. */
  ghost predicate Entering(a: View, b: View, k: nat) {
    Kept(a.mem, b.mem, k) && Direct(b.mem, k) && b.free <= a.free
  }

  lemma EnteringStarts(a: View, k: nat, lo: nat)
    requires Direct(a.mem, k)
    ensures Entering(a, a, k) && BlocksDone(a.mem, k, lo, lo)
  {
  }

  lemma EnteringStep(a: View, b: View, c: View, k: nat, q: Page)
    requires Entering(a, b, k) && c.free <= b.free
    requires DirFilled(b.mem, c.mem, k, q) || DirsSame(b.mem, c.mem, k)
    ensures Entering(a, c, k) && Entering(b, c, k)
  {
    hide PdEntry, Walk, Number;
  }

  lemma BlockDone(m: Mem, m': Mem, k: nat, lo: nat, addr: nat)
    requires BlocksDone(m, k, lo, addr) && addr % PAGE_2MB == 0 && Kept(m, m', k) && DirFilled(m, m', k, PageOf(addr))
    ensures BlocksDone(m', k, lo, addr + PAGE_2MB)
  {
    hide PdEntry, Walk, Number, PageOf;
    forall n: nat | lo <= n * PAGE_2MB < addr + PAGE_2MB
      ensures PdEntry(m', k, PageOf(n * PAGE_2MB)).present
    {
      assert n * PAGE_2MB < addr || n * PAGE_2MB == addr;
    }
  }

  lemma BlockOf(f: nat)
    ensures var b := f * PAGE / PAGE_2MB * PAGE_2MB; b <= f * PAGE && SameDir(PageOf(f * PAGE), PageOf(b))
  {
    var a := f * PAGE;
    var b := a / PAGE_2MB * PAGE_2MB;
    assert b / PAGE_2MB == a / PAGE_2MB;
    assert b / 0x4000_0000 == b / PAGE_2MB / 512 && a / 0x4000_0000 == a / PAGE_2MB / 512;
    assert b / 0x80_0000_0000 == b / PAGE_2MB / 0x4_0000 && a / 0x80_0000_0000 == a / PAGE_2MB / 0x4_0000;
  }

  lemma SameDirEntry(m: Mem, k: nat, p: Page, q: Page)
    requires SameDir(p, q)
    ensures PdEntry(m, k, p) == PdEntry(m, k, q)
  {
  }

  lemma RegionEntered(m: Mem, k: nat, r: P.Region, addr: nat)
    requires BlocksDone(m, k, r.base / PAGE_2MB * PAGE_2MB, addr) && addr >= P.RegionEnd(r)
    ensures RegionDone(m, k, r)
  {
    hide PdEntry, PageOf;
    forall f: nat | P.Inside(r, f)
      ensures PdEntry(m, k, PageOf(f * PAGE)).present
    {
      var n := f * PAGE / PAGE_2MB;
      BlockOf(f);
      assert r.base / PAGE_2MB <= n;
      assert r.base / PAGE_2MB * PAGE_2MB <= n * PAGE_2MB < addr;
      SameDirEntry(m, k, PageOf(f * PAGE), PageOf(n * PAGE_2MB));
    }
  }

  /** The inner loop of vmm_init. */
  method MapRegion(vm: AddressSpaces, r: P.Region)
    requires vm.Valid() && vm.spaces == {} && Direct(vm.mem, vm.kernelPml4) && P.RegionEnd(r) <= CANONICAL
    modifies vm`mem, vm`bytes, vm`shape, vm.pmm, vm.pmm.bitmap
    ensures vm.Valid() && vm.pmm.idleFrees == old(vm.pmm.idleFrees)
      && Entering(old(vm.Snap()), vm.Snap(), vm.kernelPml4)
    ensures vm.pmm.free == {} || RegionDone(vm.mem, vm.kernelPml4, r)
  {
    hide P.Agrees, P.LowestRun, P.FreeRun, P.Frames, Sound, SpacesOk, Entering, BlocksDone, RegionDone, DirFilled,
         DirsSame, PageOf, Direct, P.RegionEnd;
    ghost var a, k := vm.Snap(), vm.kernelPml4;
    var addr := r.base / PAGE_2MB * PAGE_2MB;
    ghost var lo := addr;
    EnteringStarts(a, k, lo);
    while addr < P.RegionEnd(r)
      invariant addr % PAGE_2MB == 0 && vm.Valid() && vm.pmm.idleFrees == old(vm.pmm.idleFrees)
      invariant Entering(a, vm.Snap(), k)
      invariant vm.pmm.free == {} || BlocksDone(vm.mem, k, lo, addr)
    {
      ghost var b := vm.Snap();
      Map2mbIdentity(vm, addr);
      EnteringStep(a, b, vm.Snap(), k, PageOf(addr));
      EnteringParts(b, vm.Snap(), k);
      if vm.pmm.free != {} {
        BlockDone(b.mem, vm.mem, k, lo, addr);
      }
      addr := addr + PAGE_2MB;
    }
    if vm.pmm.free != {} {
      RegionEntered(vm.mem, k, r, addr);
    }
  }

  lemma EnteringParts(a: View, b: View, k: nat)
    requires Entering(a, b, k)
    ensures Kept(a.mem, b.mem, k) && Direct(b.mem, k) && b.free <= a.free
  {
  }

  /** The frames of usable regions, and the free ones with them, are mapped to
      themselves, unless memory ran out and there is no free frame. */
  method VmmInit(vm: AddressSpaces, regions: seq<P.Region>)
    requires vm.Valid() && vm.spaces == {} && Direct(vm.mem, vm.kernelPml4)
    requires forall r :: r in regions && r.usable ==> P.RegionEnd(r) <= CANONICAL
    modifies vm`mem, vm`bytes, vm`shape, vm.pmm, vm.pmm.bitmap
    ensures vm.Valid() && vm.pmm.idleFrees == old(vm.pmm.idleFrees) && vm.pmm.free <= old(vm.pmm.free)
    ensures Kept(old(vm.mem), vm.mem, vm.kernelPml4) && Direct(vm.mem, vm.kernelPml4)
    ensures vm.pmm.free == {} || forall f: nat :: P.InsideSome(regions, f) ==> Identity(vm.mem, vm.kernelPml4, f)
  {
    hide P.Agrees, P.LowestRun, P.FreeRun, P.Frames, Sound, SpacesOk, Entering, RegionDone, Direct, Kept, PageOf, Walk,
         P.RegionEnd, P.Inside;
    ghost var a, k := vm.Snap(), vm.kernelPml4;
    EnteringStarts(a, k, 0);
    var i := 0;
    while i < |regions|
      invariant 0 <= i <= |regions| && vm.Valid() && vm.pmm.idleFrees == old(vm.pmm.idleFrees)
      invariant Entering(a, vm.Snap(), k)
      invariant vm.pmm.free == {} || forall r :: r in regions[..i] && r.usable ==> RegionDone(vm.mem, k, r)
    {
      EnteringParts(a, vm.Snap(), k);
      if regions[i].usable {
        ghost var b := vm.Snap();
        MapRegion(vm, regions[i]);
        EnteringParts(b, vm.Snap(), k);
        EnteringChain(a, b, vm.Snap(), k, regions[..i]);
      }
      i := i + 1;
    }
    EnteringParts(a, vm.Snap(), k);
    if vm.pmm.free != {} {
      AllIdentity(vm.mem, k, regions);
    }
  }

  lemma EnteringChain(a: View, b: View, c: View, k: nat, rs: seq<P.Region>)
    requires Entering(a, b, k) && Entering(b, c, k)
    ensures Entering(a, c, k)
    ensures (forall r :: r in rs && r.usable ==> RegionDone(b.mem, k, r)) ==> forall r ::
      r in rs && r.usable ==> RegionDone(c.mem, k, r)
  {
    hide PdEntry, Walk, Number, PageOf, P.Inside;
  }

  lemma AllIdentity(m: Mem, k: nat, regions: seq<P.Region>)
    requires Direct(m, k) && forall r :: r in regions && r.usable ==> RegionDone(m, k, r)
    ensures forall f: nat :: P.InsideSome(regions, f) ==> Identity(m, k, f)
  {
    hide PdEntry, Walk, PageOf, Number;
    forall f: nat | P.InsideSome(regions, f)
      ensures Identity(m, k, f)
    {
      var i :| 0 <= i < |regions| && P.Inside(regions[i], f);
      assert RegionDone(m, k, regions[i]);
      FramePage(f);
    }
  }

  lemma FramePage(f: nat)
    requires f < P.MAX_FRAMES
    ensures Number(PageOf(f * PAGE)) == f
  {
    Digits(f * PAGE);
  }

  /** From the memory map to a kernel that can hand out guarded stacks: the frame
      allocator, the bootloader's tables, then vmm_init. */
  method BootMemoryManagers(regions: seq<P.Region>, kernelEnd: nat) returns (vm: AddressSpaces)
    requires 0x8200 < kernelEnd && forall r :: r in regions && r.usable ==> P.RegionEnd(r) <= CANONICAL
    ensures fresh(vm) && fresh(vm.pmm) && fresh(vm.pmm.bitmap) && vm.Valid() && vm.spaces == {}
    ensures FreeIdentity(vm.Snap(), FrameOf(vm.kernelPml4 * PAGE))
      && IsTable(vm.shape, FrameOf(vm.kernelPml4 * PAGE), 4)
    ensures forall f :: f in vm.pmm.free ==> P.InsideSome(regions, f) && !P.Reserved(kernelEnd, f)
    ensures LowShared(vm.Snap(), vm.kernelPml4, vm.kernelPml4)
  {
    hide LowShared, P.Agrees, P.LowestRun, P.FreeRun, P.Frames, Sound, SpacesOk, Direct, Kept, PageOf, Walk,
         P.RegionEnd, P.InsideSome, BootMemory;
    var pmm := new P.FrameAllocator();
    pmm.Init(regions, kernelEnd);
    BelowKernel(kernelEnd);
    vm := new AddressSpaces(pmm);
    BootDirect(vm.Snap());
    ghost var a := vm.Snap();
    VmmInit(vm, regions);
    LowBranch(a, vm.Snap());
    KernelRoot(vm.Snap(), vm.kernelPml4);
    assert FrameOf(vm.kernelPml4 * PAGE) == vm.kernelPml4;
  }

  lemma LowBranch(a: View, b: View)
    requires a.mem == BootMemory() && a.shape == BootShape() && Kept(a.mem, b.mem, 1)
    ensures LowShared(b, 1, 1)
  {
    hide BootMemory;
    BootEntry(a, 1, 0);
    BootEntry(a, 2, 0);
    BootEntry(a, 3, 0);
    assert PdEntry(a.mem, 1, Page(0, 0, 0, 0)).present;
  }

  lemma BelowKernel(kernelEnd: nat)
    requires 0x8200 < kernelEnd
    ensures forall f :: 0 <= f <= 4 ==> P.Reserved(kernelEnd, f)
  {
  }

  lemma BootDirect(v: View)
    requires v.mem == BootMemory() && v.shape == BootShape()
    ensures Direct(v.mem, 1)
  {
    hide BootMemory;
    forall p | PdEntry(v.mem, 1, p).present
      ensures Walk(v.mem, 1, p) == Mapped(Number(p), true, false)
    {
      BootEntry(v, 1, p.i4);
      BootEntry(v, 2, p.i3);
      BootEntry(v, 3, p.i2);
      BootEntry(v, 4, p.i1);
    }
  }
}
