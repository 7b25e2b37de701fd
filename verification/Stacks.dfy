/** Guarded kernel stacks (kernel/sched/thread.c): three frames in a row, of
    which the lowest is taken out of the identity mapping to catch overruns, and
    their return when a zombie is reaped. */
module Stacks {
  import opened Base
  import opened Paging
  import opened Spaces
  import opened Vmm
  import P = Pmm

  /** Frame f is mapped to its own address, writable, for the kernel. */
  predicate Identity(m: Mem, root: nat, f: nat) {
    Walk(m, root, PageOf(f * PAGE)) == Mapped(f, true, false)
  }

  /** Free frames are mapped to themselves, as the kernel finds them at boot. */
  ghost predicate FreeIdentity(v: View, root: nat) {
    forall f :: f in v.free ==> Identity(v.mem, root, f)
  }

  /** The guard page alone is unmapped, in `root` and where its branch is shared. */
  ghost predicate Guarded(a: View, b: View, root: nat, f: nat) {
    && Remapped(a.mem, b.mem, a.shape, root, PageOf(f * PAGE), Unmapped)
    && Walk(b.mem, root, PageOf(f * PAGE)) == Unmapped
    && SlotOf(b.mem, root, PageOf(f * PAGE)).Slot?
  }

  /** The frames of a stack: its guard and the two above. */
  function Triple(g: nat): set<nat> {
    {g, g + 1, g + 2}
  }

  lemma PagesDiffer(f: nat, g: nat)
    requires f < P.MAX_FRAMES && g < P.MAX_FRAMES && PageOf(f * PAGE) == PageOf(g * PAGE)
    ensures f == g
  {
    PageOfInjective(f * PAGE, g * PAGE);
  }

  /** Frames leave the free set. */
  lemma Taken(a: View, b: View, k: nat, spaces: set<nat>, taken: set<nat>)
    requires Sound(a, k) && SpacesOk(a.mem, a.shape, k, spaces, a.free) && b == a.(free := a.free - taken)
    requires taken <= a.free && forall f :: f in taken ==> f < |a.mem|
    ensures Sound(b, k) && SpacesOk(b.mem, b.shape, k, spaces, b.free)
    ensures forall f :: f in taken ==> Unused(b, k, spaces, f)
  {
    forall r, t, i | r in spaces && OwnedSlot(b.mem, b.shape, k, r, t, i)
      ensures PageOk(b.mem, b.shape, b.free, t, i) && At(b.mem, t, i).frame !in taken
    {
      assert PageOk(a.mem, a.shape, a.free, t, i);
    }
  }

  /** An unused frame joins the free set; the others stay unused. */
  lemma Returned(a: View, b: View, k: nat, spaces: set<nat>, f: nat)
    requires Sound(a, k) && SpacesOk(a.mem, a.shape, k, spaces, a.free)
    requires Unused(a, k, spaces, f) && b == a.(free := a.free + {f})
    ensures Sound(b, k) && SpacesOk(b.mem, b.shape, k, spaces, b.free)
    ensures forall g :: g != f && Unused(a, k, spaces, g) ==> Unused(b, k, spaces, g)
    ensures f !in a.free && f < |a.mem|
  {
    GaveBackSpaces(a, b, k, spaces, f);
  }

  lemma MemorySize(a: View, k: nat)
    requires Sound(a, k)
    ensures |a.mem| == P.MAX_FRAMES && 0 !in a.free
  {
  }

  lemma RunTaken(free: set<nat>, g: nat)
    requires P.LowestRun(free, g, 3)
    ensures g + 2 < P.MAX_FRAMES && {g, g + 1, g + 2} <= free && P.Frames(g, 3) == {g, g + 1, g + 2}
  {
    P.LowestRunFits(free, g, 3);
    assert g in free && g + 1 in free && g + 2 in free;
  }

  lemma NoRunNoStack(free: set<nat>, free': set<nat>, region: nat)
    requires 0 !in free
    requires (forall s :: !P.FreeRun(free, s, 3)) ==> region == 0 && free' == free
    requires (exists s :: P.FreeRun(free, s, 3)) ==> region % PAGE == 0 && P.LowestRun(free, region / PAGE, 3)
    ensures region == 0 ==> free' == free && forall s :: !P.FreeRun(free, s, 3)
    ensures region != 0 ==> region == region / PAGE * PAGE && P.LowestRun(free, region / PAGE, 3)
  {
  }

  lemma GuardMade(a: View, b: View, k: nat, root: nat, g: nat)
    requires IsTable(a.shape, root, 4) && FreeIdentity(a, root) && g in a.free && b.free <= a.free - {g}
    requires forall f :: f in a.free ==> f < P.MAX_FRAMES
    requires Remapped(a.mem, b.mem, a.shape, root, PageOf(g * PAGE), Unmapped)
    ensures FreeIdentity(b, root)
  {
    forall f | f in b.free
      ensures Identity(b.mem, root, f)
    {
      assert Identity(a.mem, root, f);
      if PageOf(f * PAGE) == PageOf(g * PAGE) {
        PagesDiffer(f, g);
      }
    }
  }

  lemma GuardPresent(a: View, root: nat, g: nat)
    requires FreeIdentity(a, root) && g in a.free
    ensures PdEntry(a.mem, root, PageOf(g * PAGE)).present && Walk(a.mem, root, PageOf(g * PAGE)).Mapped?
  {
    assert Identity(a.mem, root, g);
  }

  /** alloc_guarded_stack. A failure gives back all it took and changes no
      translation; a success unmaps the guard page and nothing else. */
  method AllocGuardedStack(vm: AddressSpaces, space: nat) returns (ok: bool, stackLow: nat, guard: nat)
    requires vm.Valid() && IsTable(vm.shape, FrameOf(space), 4) && FreeIdentity(vm.Snap(), FrameOf(space))
    modifies vm`mem, vm`bytes, vm`shape, vm.pmm, vm.pmm.bitmap
    ensures vm.Valid() && vm.pmm.idleFrees == old(vm.pmm.idleFrees) && FreeIdentity(vm.Snap(), FrameOf(space))
    ensures !ok ==> Undone(old(vm.Snap()), vm.Snap())
    ensures ok ==>
      && stackLow == guard + PAGE && guard % PAGE == 0
      && OnGuard(old(vm.Snap()), vm.Snap(), vm.kernelPml4, vm.spaces, FrameOf(space), guard / PAGE)
    ensures ok <==> StackPossible(old(vm.Snap()), FrameOf(space))
    ensures Calm(old(vm.Snap()), vm.Snap(), vm.kernelPml4, vm.spaces, FrameOf(space), {})
  {
    hide P.Agrees, P.LowestRun, P.FreeRun, P.Frames, Sound, SpacesOk, FrameOf, Unused, FreeIdentity, Undone, OnGuard,
         Calm, PdEntry, PageOf;
    ghost var a := vm.Snap();
    MemorySize(a, vm.kernelPml4);
    FramesBelow(vm);
    stackLow, guard := 0, 0;
    var region := vm.pmm.AllocContiguous(3);
    NoRunNoStack(a.free, vm.pmm.free, region);
    SameState(a);
    CalmSame(a, vm.kernelPml4, vm.spaces, FrameOf(space));
    if region == 0 {
      NoStack(a, FrameOf(space));
      return false, 0, 0;
    }
    var g := region / PAGE;
    RunTaken(a.free, g);
    Taken(a, vm.Snap(), vm.kernelPml4, vm.spaces, {g, g + 1, g + 2});
    ok := SetGuard(vm, space, g, a);
    StackAt(a, FrameOf(space), g);
    if !ok {
      return false, 0, 0;
    }
    return true, region + PAGE, region;
  }

  /** There are three free frames in a row, and a frame besides them if the 2 MiB
      page around the lowest of them has to be split. */
  ghost predicate StackPossible(v: View, root: nat) {
    exists g: nat :: P.LowestRun(v.free, g, 3) && !NoSplit(v, root, g)
  }

  predicate NoSplit(v: View, root: nat, g: nat) {
    PdEntry(v.mem, root, PageOf(g * PAGE)).huge && v.free == {g, g + 1, g + 2}
  }

  lemma NoStack(v: View, root: nat)
    requires forall s :: !P.FreeRun(v.free, s, 3)
    ensures !StackPossible(v, root)
  {
  }

  lemma StackAt(v: View, root: nat, g: nat)
    requires P.LowestRun(v.free, g, 3)
    ensures StackPossible(v, root) <==> !NoSplit(v, root, g)
  {
    hide NoSplit;
    forall h: nat | P.LowestRun(v.free, h, 3)
      ensures h == g
    {
    }
  }

  /** Other stacks, spaces and paths do not notice a step from a to b that space
      `root` takes and that gives back the frames `given`. */
  ghost predicate Calm(a: View, b: View, k: nat, spaces: set<nat>, root: nat, given: set<nat>) {
    && SlotsStay(a.mem, b.mem, a.shape) && SameTables(a, b) && TopsFixed(a, b)
    && (forall f :: f !in given && Unused(a, k, spaces, f) ==> Unused(b, k, spaces, f))
    && (LowShared(a, k, root) ==> SameOwned(a, b, k, spaces))
  }

  /** Space `root` has its lowest 512 GiB, where all frames are, from the kernel. */
  predicate LowShared(a: View, k: nat, root: nat) {
    At(a.mem, root, 0).present && At(a.mem, root, 0) == At(a.mem, k, 0)
  }

  lemma CalmSame(a: View, k: nat, spaces: set<nat>, root: nat)
    ensures Calm(a, a, k, spaces, root, {})
  {
    NotDisturbed(a, k, spaces);
  }

  /** Only the free frames changed, and none that was unused became free. */
  lemma CalmFree(a: View, b: View, k: nat, spaces: set<nat>, root: nat)
    requires b == a.(free := b.free) && forall f :: Unused(a, k, spaces, f) ==> f !in b.free
    ensures Calm(a, b, k, spaces, root, {})
  {
    NotDisturbed(a, k, spaces);
  }

  lemma CalmTwice(a: View, b: View, c: View, k: nat, spaces: set<nat>, root: nat, given: set<nat>, given': set<nat>)
    requires Calm(a, b, k, spaces, root, given) && Calm(b, c, k, spaces, root, given')
    requires IsTable(a.shape, root, 4) && IsTable(a.shape, k, 4)
    ensures Calm(a, c, k, spaces, root, given + given')
  {
    hide Unused, Owned, SlotOf;
  }

  lemma LowFrame(g: nat)
    requires g < P.MAX_FRAMES
    ensures PageOf(g * PAGE).i4 == 0
  {
  }

  lemma LowUntracked(a: View, k: nat, spaces: set<nat>, root: nat, p: Page)
    requires p.i4 == 0
    ensures LowShared(a, k, root) ==> !Tracked(a, k, spaces, root, p)
  {
  }

  lemma CalmStep(a: View, b: View, k: nat, spaces: set<nat>, root: nat)
    requires SlotsStay(a.mem, b.mem, a.shape) && SameTables(a, b) && TopsFixed(a, b) && KeepsUnused(a, b, k, spaces, 0)
    requires LowShared(a, k, root) ==> SameOwned(a, b, k, spaces)
    ensures Calm(a, b, k, spaces, root, {})
  {
    hide SlotsStay, SameTables, TopsFixed, SameOwned;
  }

  /** All that was taken is back, and no translation changed. */
  ghost predicate Undone(a: View, b: View) {
    b.free == a.free && SameWalks(a.mem, b.mem, a.shape) && Added(a.shape, b.shape) == {} && TopsStay(a, b)
      && SameTables(a, b)
  }

  ghost predicate SameTables(a: View, b: View) {
    forall t, l :: IsTable(a.shape, t, l) ==> IsTable(b.shape, t, l)
  }

  /** Frames g to g + 2 are taken and used by nobody; page g is unmapped; all
      other frames that left the free set became tables. */
  ghost predicate OnGuard(a: View, b: View, k: nat, spaces: set<nat>, root: nat, g: nat) {
    && {g, g + 1, g + 2} <= a.free && g + 2 < P.MAX_FRAMES
    && Added(a.shape, b.shape) <= a.free - {g, g + 1, g + 2}
    && b.free == a.free - {g, g + 1, g + 2} - Added(a.shape, b.shape)
    && Guarded(a, b, root, g) && TopsStay(a, b) && SameTables(a, b)
    && Unused(b, k, spaces, g) && Unused(b, k, spaces, g + 1) && Unused(b, k, spaces, g + 2)
  }

  lemma SameState(a: View)
    ensures Undone(a, a)
  {
  }

  /** Takes the guard page out of the mapping; when that fails for lack of a frame
      to split a 2 MiB page, the three frames go back. */
  method SetGuard(vm: AddressSpaces, space: nat, g: nat, ghost a: View) returns (ok: bool)
    requires vm.Valid() && IsTable(vm.shape, FrameOf(space), 4) && FreeIdentity(a, FrameOf(space))
    requires vm.Snap() == a.(free := a.free - {g, g + 1, g + 2}) && {g, g + 1, g + 2} <= a.free && g + 2 < P.MAX_FRAMES
      && 0 !in a.free
    requires forall f :: f in a.free ==> f < P.MAX_FRAMES
    requires forall f :: f in {g, g + 1, g + 2} ==> Unused(vm.Snap(), vm.kernelPml4, vm.spaces, f)
    modifies vm`mem, vm`bytes, vm`shape, vm.pmm, vm.pmm.bitmap
    ensures vm.Valid() && vm.pmm.idleFrees == old(vm.pmm.idleFrees) && FreeIdentity(vm.Snap(), FrameOf(space))
    ensures !ok ==> Undone(a, vm.Snap())
    ensures ok ==> OnGuard(a, vm.Snap(), vm.kernelPml4, vm.spaces, FrameOf(space), g)
    ensures ok <==> !NoSplit(a, FrameOf(space), g)
    ensures Calm(a, vm.Snap(), vm.kernelPml4, vm.spaces, FrameOf(space), {})
  {
    hide Calm, SlotsStay, SameOwned, TopsFixed, Tracked, LowShared, SameTables, P.Agrees, Sound, SpacesOk, SameWalks,
         Remapped, Walk, PageOf, FrameOf, PdEntry, SlotOf, Unused, KeepsUnused, FreeIdentity, Identity,
         TopsStay, Undone, OnGuard, Spent;
    ghost var b, root, k, spaces := vm.Snap(), FrameOf(space), vm.kernelPml4, vm.spaces;
    GuardPresent(a, root, g);
    LowFrame(g);
    LowUntracked(b, k, spaces, root, PageOf(g * PAGE));
    NotTriple(a.free, b.free, g);
    TakenCalm(a, b, k, spaces, root);
    var unmapped := vm.UnmapPageIn(space, g * PAGE);
    ghost var c := vm.Snap();
    SpentParts(b, c);
    CalmStep(b, c, k, spaces, root);
    CalmFrom(a, b, c, k, spaces, root);
    StillUnused(b, c, k, spaces, {g, g + 1, g + 2});
    var mapped := vm.IsMappedIn(space, g * PAGE);
    if mapped {
      GiveBack(vm, g);
      GuardFailed(a, b, c, vm.Snap(), root, g);
      CalmBack(a, c, vm.Snap(), k, spaces, root, {g, g + 1, g + 2});
      return false;
    }
    if !unmapped {
      WalkSame(b, c, root, PageOf(g * PAGE));
    }
    GuardDone(a, b, c, k, spaces, root, g);
    return true;
  }

  lemma NotTriple(free: set<nat>, rest: set<nat>, g: nat)
    requires {g, g + 1, g + 2} <= free && rest == free - {g, g + 1, g + 2}
    ensures rest == {} <==> free == {g, g + 1, g + 2}
  {
  }

  lemma TakenCalm(a: View, b: View, k: nat, spaces: set<nat>, root: nat)
    requires b == a.(free := b.free) && b.free <= a.free
    ensures Calm(a, b, k, spaces, root, {})
  {
    CalmFree(a, b, k, spaces, root);
  }

  lemma CalmFrom(a: View, b: View, c: View, k: nat, spaces: set<nat>, root: nat)
    requires Calm(a, b, k, spaces, root, {}) && Calm(b, c, k, spaces, root, {}) && Sound(b, k) && b.shape == a.shape
      && IsTable(b.shape, root, 4)
    ensures Calm(a, c, k, spaces, root, {})
  {
    hide Calm;
    CalmTwice(a, b, c, k, spaces, root, {}, {});
    var none: set<nat> := {};
    assert none + none == none;
  }

  /** Frames that were free in a go back. */
  lemma CalmBack(a: View, c: View, d: View, k: nat, spaces: set<nat>, root: nat, back: set<nat>)
    requires Calm(a, c, k, spaces, root, {}) && d == c.(free := c.free + back) && back <= a.free
    ensures Calm(a, d, k, spaces, root, {})
  {
    hide SlotsStay, Owned;
    forall f | Unused(a, k, spaces, f)
      ensures Unused(d, k, spaces, f)
    {
      assert Unused(c, k, spaces, f);
    }
  }

  lemma GuardFailed(a: View, b: View, c: View, d: View, root: nat, g: nat)
    requires b == a.(free := a.free - {g, g + 1, g + 2}) && {g, g + 1, g + 2} <= a.free && IsTable(a.shape, root, 4)
    requires SameWalks(b.mem, c.mem, b.shape) && Spent(b, c) && TopsStay(b, c) && b.free == c.free == {}
      && FreeIdentity(a, root)
    requires d == c.(free := c.free + {g, g + 1, g + 2})
    ensures Undone(a, d) && FreeIdentity(d, root)
  {
    assert a.free == {g, g + 1, g + 2};
    SameIdentity(a, d, root);
  }

  lemma GuardDone(a: View, b: View, c: View, k: nat, spaces: set<nat>, root: nat, g: nat)
    requires b == a.(free := a.free - {g, g + 1, g + 2}) && {g, g + 1, g + 2} <= a.free && g + 2 < P.MAX_FRAMES
      && IsTable(a.shape, root, 4)
    requires forall f :: f in a.free ==> f < P.MAX_FRAMES
    requires Remapped(b.mem, c.mem, b.shape, root, PageOf(g * PAGE), Unmapped)
      && Walk(c.mem, root, PageOf(g * PAGE)) == Unmapped
    requires SlotOf(c.mem, root, PageOf(g * PAGE)).Slot? && Spent(b, c) && TopsStay(b, c) && FreeIdentity(a, root)
    requires forall f :: f in {g, g + 1, g + 2} ==> Unused(c, k, spaces, f)
    ensures OnGuard(a, c, k, spaces, root, g) && FreeIdentity(c, root)
  {
    hide Walk, PageOf, SlotOf, Unused, Identity, Remapped, FreeIdentity, TopsStay;
    SpentParts(b, c);
    TopsSame(a, b, c);
    GuardMade(a, c, k, root, g);
  }

  lemma SpentParts(a: View, b: View)
    requires Spent(a, b)
    ensures SameTables(a, b) && b.free <= a.free
  {
  }

  lemma TopsSame(a: View, b: View, c: View)
    requires b == a.(free := b.free) && TopsStay(b, c)
    ensures TopsStay(a, c)
  {
  }

  lemma FramesBelow(vm: AddressSpaces)
    requires vm.pmm.Valid()
    ensures forall f :: f in vm.pmm.free ==> f < P.MAX_FRAMES
  {
  }

  lemma WalkSame(a: View, b: View, root: nat, p: Page)
    requires SameWalks(a.mem, b.mem, a.shape) && IsTable(a.shape, root, 4)
    ensures Walk(b.mem, root, p) == Walk(a.mem, root, p)
  {
  }

  lemma SameIdentity(a: View, b: View, root: nat)
    requires SameWalks(a.mem, b.mem, a.shape) && IsTable(a.shape, root, 4) && b.free == a.free && FreeIdentity(a, root)
    ensures FreeIdentity(b, root)
  {
    forall f | f in b.free
      ensures Identity(b.mem, root, f)
    {
      assert Identity(a.mem, root, f);
    }
  }

  lemma StillUnused(a: View, b: View, k: nat, spaces: set<nat>, fs: set<nat>)
    requires KeepsUnused(a, b, k, spaces, 0) && 0 !in fs && forall f :: f in fs ==> Unused(a, k, spaces, f)
    ensures forall f :: f in fs ==> Unused(b, k, spaces, f)
  {
  }

  /** The first i of three frames have joined the free set. */
  function Three(free: set<nat>, g: nat, i: nat): set<nat> {
    free + if i == 0 then {} else if i == 1 then {g} else if i == 2 then {g, g + 1} else {g, g + 1, g + 2}
  }

  /** That is all that changed, and the frames from the i-th on are still unused. */
  ghost predicate Returning(a: View, b: View, k: nat, spaces: set<nat>, g: nat, i: nat) {
    && b == a.(free := Three(a.free, g, i))
    && (i <= 0 ==> Unused(b, k, spaces, g)) && (i <= 1 ==> Unused(b, k, spaces, g + 1))
      && (i <= 2 ==> Unused(b, k, spaces, g + 2))
  }

  lemma ReturningStarts(a: View, k: nat, spaces: set<nat>, g: nat)
    requires forall f :: f in {g, g + 1, g + 2} ==> Unused(a, k, spaces, f)
    ensures Returning(a, a, k, spaces, g, 0)
  {
    hide Unused;
    assert Three(a.free, g, 0) == a.free;
  }

  lemma ReturningNext(a: View, b: View, k: nat, spaces: set<nat>, g: nat, i: nat)
    requires Returning(a, b, k, spaces, g, i) && i < 3
    ensures Unused(b, k, spaces, g + i)
  {
    hide Unused;
  }

  lemma ReturningStep(a: View, b: View, c: View, k: nat, spaces: set<nat>, g: nat, i: nat)
    requires Returning(a, b, k, spaces, g, i) && i < 3
    requires c == b.(free := b.free + {g + i}) && forall f ::
      f != g + i && Unused(b, k, spaces, f) ==> Unused(c, k, spaces, f)
    ensures Returning(a, c, k, spaces, g, i + 1)
  {
    hide Unused;
    assert Three(a.free, g, i) + {g + i} == Three(a.free, g, i + 1);
  }

  lemma ReturningEnds(a: View, b: View, k: nat, spaces: set<nat>, g: nat)
    requires Returning(a, b, k, spaces, g, 3)
    ensures b == a.(free := Three(a.free, g, 3))
  {
  }

  /** Three unused frames go back to the frame allocator. */
  method GiveBack(vm: AddressSpaces, g: nat)
    requires vm.Valid() && forall f :: f in {g, g + 1, g + 2} ==> Unused(vm.Snap(), vm.kernelPml4, vm.spaces, f)
    modifies vm.pmm, vm.pmm.bitmap
    ensures vm.Valid() && vm.pmm.idleFrees == old(vm.pmm.idleFrees)
    ensures vm.Snap() == old(vm.Snap()).(free := Three(old(vm.pmm.free), g, 3))
  {
    hide P.Agrees, P.LowestRun, P.FreeRun, P.Frames, Sound, SpacesOk, Unused, Returning, Three;
    ghost var a, k, spaces := vm.Snap(), vm.kernelPml4, vm.spaces;
    ReturningStarts(a, k, spaces, g);
    var i := 0;
    while i < 3
      invariant 0 <= i <= 3 && vm.Valid() && vm.pmm.idleFrees == old(vm.pmm.idleFrees)
      invariant Returning(a, vm.Snap(), k, spaces, g, i)
    {
      ghost var b := vm.Snap();
      ReturningNext(a, b, k, spaces, g, i);
      ReturnFrame(vm, g + i);
      ReturningStep(a, b, vm.Snap(), k, spaces, g, i);
      i := i + 1;
    }
    ReturningEnds(a, vm.Snap(), k, spaces, g);
  }

  /** The part of reap_zombie that returns a guarded stack: the stack frames are
      freed, the guard page gets its own address back, its frame is freed. */
  method ReapStack(vm: AddressSpaces, space: nat, stackLow: nat, guard: nat)
    requires vm.Valid() && IsTable(vm.shape, FrameOf(space), 4)
    requires stackLow == guard + PAGE && guard % PAGE == 0 && guard / PAGE + 2 < P.MAX_FRAMES
    requires forall f :: f in Triple(guard / PAGE) ==> Unused(vm.Snap(), vm.kernelPml4, vm.spaces, f)
    requires SlotOf(vm.mem, FrameOf(space), PageOf(guard)).Slot?
    modifies vm`mem, vm`bytes, vm`shape, vm.pmm, vm.pmm.bitmap
    ensures vm.Valid() && vm.pmm.idleFrees == old(vm.pmm.idleFrees) && vm.shape == old(vm.shape)
    ensures vm.pmm.free == old(vm.pmm.free) + Triple(guard / PAGE)
    ensures Remapped(old(vm.mem), vm.mem, old(vm.shape), FrameOf(space), PageOf(guard),
      Mapped(guard / PAGE, true, false))
    ensures Identity(vm.mem, FrameOf(space), guard / PAGE) && TopsStay(old(vm.Snap()), vm.Snap())
    ensures Calm(old(vm.Snap()), vm.Snap(), vm.kernelPml4, vm.spaces, FrameOf(space), Triple(guard / PAGE))
  {
    hide P.Agrees, P.Frames, P.LowestRun, P.FreeRun, Sound, SpacesOk, Remapped, Walk, PageOf, FrameOf, SlotOf, Unused,
         Identity, Calm, TopsStay, Triple;
    ghost var a, k, spaces, root := vm.Snap(), vm.kernelPml4, vm.spaces, FrameOf(space);
    var g := guard / PAGE;
    ReturnFrames(vm, g);
    ghost var b := vm.Snap();
    RestoreGuard(vm, space, guard);
    ghost var c := vm.Snap();
    ReturnFrame(vm, g);
    ReapDone(a, b, c, vm.Snap(), k, spaces, root, g);
  }

  /** The two frames of the stack itself. */
  method ReturnFrames(vm: AddressSpaces, g: nat)
    requires vm.Valid() && forall f :: f in Triple(g) ==> Unused(vm.Snap(), vm.kernelPml4, vm.spaces, f)
    modifies vm.pmm, vm.pmm.bitmap
    ensures vm.Valid() && vm.pmm.idleFrees == old(vm.pmm.idleFrees)
    ensures vm.Snap() == old(vm.Snap()).(free := old(vm.pmm.free) + {g + 1} + {g + 2})
    ensures Unused(vm.Snap(), vm.kernelPml4, vm.spaces, g)
  {
    hide P.Agrees, P.Frames, P.LowestRun, P.FreeRun, Sound, SpacesOk, Unused;
    assert g in Triple(g) && g + 1 in Triple(g) && g + 2 in Triple(g);
    ReturnFrame(vm, g + 1);
    ReturnFrame(vm, g + 2);
  }

  lemma ReapDone(a: View, b: View, c: View, d: View, k: nat, spaces: set<nat>, root: nat, g: nat)
    requires b == a.(free := a.free + {g + 1} + {g + 2}) && d == c.(free := c.free + {g}) && c.free == b.free
    requires TopsStay(b, c) && Calm(b, c, k, spaces, root, {}) && Sound(a, k) && IsTable(a.shape, root, 4)
    ensures d.free == a.free + Triple(g) && TopsStay(a, d) && Calm(a, d, k, spaces, root, Triple(g))
  {
    hide Calm, Sound;
    assert b.free == a.free + {g + 1, g + 2};
    CalmGiven(a, b, k, spaces, root, {g + 1, g + 2});
    CalmGiven(c, d, k, spaces, root, {g});
    CalmThrice(a, b, c, d, k, spaces, root, g);
  }

  lemma CalmGiven(a: View, b: View, k: nat, spaces: set<nat>, root: nat, given: set<nat>)
    requires b == a.(free := a.free + given)
    ensures Calm(a, b, k, spaces, root, given)
  {
    NotDisturbed(a, k, spaces);
  }

  lemma CalmThrice(a: View, b: View, c: View, d: View, k: nat, spaces: set<nat>, root: nat, g: nat)
    requires Calm(a, b, k, spaces, root, {g + 1, g + 2}) && Calm(b, c, k, spaces, root, {})
      && Calm(c, d, k, spaces, root, {g})
    requires Sound(a, k) && IsTable(a.shape, root, 4)
    ensures Calm(a, d, k, spaces, root, {g, g + 1, g + 2})
  {
    hide Calm;
    CalmTwice(a, b, c, k, spaces, root, {g + 1, g + 2}, {});
    CalmTwice(a, c, d, k, spaces, root, {g + 1, g + 2} + {}, {g});
    assert {g + 1, g + 2} + {} + {g} == {g, g + 1, g + 2};
  }

  /** The guard page is mapped to its own address again; the path to it is there,
      so no memory is needed. */
  method RestoreGuard(vm: AddressSpaces, space: nat, guard: nat)
    requires vm.Valid() && IsTable(vm.shape, FrameOf(space), 4)
    requires guard % PAGE == 0 && guard / PAGE < P.MAX_FRAMES && SlotOf(vm.mem, FrameOf(space), PageOf(guard)).Slot?
    requires Unused(vm.Snap(), vm.kernelPml4, vm.spaces, guard / PAGE)
    modifies vm`mem, vm`bytes, vm`shape, vm.pmm, vm.pmm.bitmap
    ensures vm.Valid() && vm.pmm.idleFrees == old(vm.pmm.idleFrees) && vm.shape == old(vm.shape)
      && vm.pmm.free == old(vm.pmm.free)
    ensures Unused(vm.Snap(), vm.kernelPml4, vm.spaces, guard / PAGE)
    ensures Remapped(old(vm.mem), vm.mem, old(vm.shape), FrameOf(space), PageOf(guard),
      Mapped(guard / PAGE, true, false))
    ensures Identity(vm.mem, FrameOf(space), guard / PAGE) && TopsStay(old(vm.Snap()), vm.Snap())
    ensures Calm(old(vm.Snap()), vm.Snap(), vm.kernelPml4, vm.spaces, FrameOf(space), {})
  {
    hide Calm, SlotsStay, SameOwned, TopsFixed, Tracked, LowShared, SameTables, TopsStay, Built, Depth, P.Agrees, Sound,
         SpacesOk, SameWalks, Remapped, Walk, PageOf, FrameOf, SlotOf, Unused, KeepsUnused, MayMap, MadePath,
         LeafWritten, Grown;
    ghost var a, k, spaces := vm.Snap(), vm.kernelPml4, vm.spaces;
    AddressOf(guard);
    SlotTop(vm.mem, FrameOf(space), PageOf(guard));
    RootAddress(guard / PAGE);
    var ok, path, pt := vm.MapPageIn(space, guard, guard, true, false);
    KernelMay(a, k, spaces, FrameOf(space), PageOf(guard), Entry(true, true, false, false, FrameOf(guard)));
    UnusedNotZero(a, k, spaces, guard / PAGE);
    StillUnused(a, vm.Snap(), k, spaces, {guard / PAGE});
    LowFrame(guard / PAGE);
    LowUntracked(a, k, spaces, FrameOf(space), PageOf(guard));
    SameShape(a, vm.Snap());
    CalmStep(a, vm.Snap(), k, spaces, FrameOf(space));
  }

  lemma SlotTop(m: Mem, root: nat, p: Page)
    requires SlotOf(m, root, p).Slot?
    ensures At(m, root, p.i4).present
  {
  }

  lemma SameShape(a: View, b: View)
    requires b.shape == a.shape
    ensures SameTables(a, b)
  {
  }

  lemma AddressOf(addr: nat)
    requires addr % PAGE == 0
    ensures addr == addr / PAGE * PAGE
  {
  }

  lemma KernelMay(a: View, k: nat, spaces: set<nat>, root: nat, p: Page, e: Entry)
    requires !e.user
    ensures MayMap(a, k, spaces, root, p, e)
  {
  }

  lemma UnusedNotZero(a: View, k: nat, spaces: set<nat>, f: nat)
    requires Unused(a, k, spaces, f)
    ensures f != 0
  {
  }

  method ReturnFrame(vm: AddressSpaces, f: nat)
    requires vm.Valid() && Unused(vm.Snap(), vm.kernelPml4, vm.spaces, f)
    modifies vm.pmm, vm.pmm.bitmap
    ensures vm.Valid() && vm.pmm.idleFrees == old(vm.pmm.idleFrees)
    ensures vm.Snap() == old(vm.Snap()).(free := old(vm.pmm.free) + {f})
    ensures forall g :: g != f && Unused(old(vm.Snap()), vm.kernelPml4, vm.spaces, g) ==>
      Unused(vm.Snap(), vm.kernelPml4, vm.spaces, g)
  {
    hide P.Agrees, Sound, SpacesOk, Unused;
    ghost var b := vm.Snap();
    Returned(b, b.(free := b.free + {f}), vm.kernelPml4, vm.spaces, f);
    MemorySize(b, vm.kernelPml4);
    assert f * PAGE / PAGE == f;
    vm.pmm.FreeFrame(f * PAGE);
  }

  /** The life of a kernel thread's stack: afterwards every translation in every
      address space is what it was, and the free frames are what they were but
      for those that became page tables when a 2 MiB page was split. */
  method StackLifetime(vm: AddressSpaces, space: nat)
    requires vm.Valid() && IsTable(vm.shape, FrameOf(space), 4) && FreeIdentity(vm.Snap(), FrameOf(space))
    modifies vm`mem, vm`bytes, vm`shape, vm.pmm, vm.pmm.bitmap
    ensures vm.Valid() && vm.pmm.idleFrees == old(vm.pmm.idleFrees)
    ensures SameWalks(old(vm.mem), vm.mem, old(vm.shape))
    ensures vm.pmm.free == old(vm.pmm.free) - Added(old(vm.shape), vm.shape)
  {
    hide P.Agrees, Sound, SpacesOk, SameWalks, Remapped, Walk, PageOf, FrameOf, SlotOf, Unused, FreeIdentity, Identity,
         TopsStay, Undone, OnGuard, Guarded;
    ghost var a, root, k, spaces := vm.Snap(), FrameOf(space), vm.kernelPml4, vm.spaces;
    var ok, stackLow, guard := AllocGuardedStack(vm, space);
    if !ok {
      UndoneParts(a, vm.Snap());
      return;
    }
    AddressOf(guard);
    ghost var b := vm.Snap();
    OnGuardParts(a, b, k, spaces, root, guard / PAGE);
    ReapStack(vm, space, stackLow, guard);
    SameAgain(a, b, vm.Snap(), k, spaces, root, guard / PAGE);
  }

  lemma UndoneParts(a: View, b: View)
    requires Undone(a, b)
    ensures SameWalks(a.mem, b.mem, a.shape) && b.free == a.free - Added(a.shape, b.shape)
  {
  }

  lemma OnGuardParts(a: View, b: View, k: nat, spaces: set<nat>, root: nat, g: nat)
    requires OnGuard(a, b, k, spaces, root, g) && IsTable(a.shape, root, 4)
    ensures IsTable(b.shape, root, 4) && g + 2 < P.MAX_FRAMES && SlotOf(b.mem, root, PageOf(g * PAGE)).Slot?
    ensures forall f :: f in {g, g + 1, g + 2} ==> Unused(b, k, spaces, f)
    ensures g in a.free && b.free + {g, g + 1, g + 2} == a.free - Added(a.shape, b.shape)
  {
  }

  /** In spaces that share a branch the pages of the branch translate alike. */
  lemma SharedBranch(a: View, k: nat, r: nat, root: nat, p: Page)
    requires Sound(a, k) && IsTable(a.shape, r, 4) && IsTable(a.shape, root, 4) && SameBranch(a.mem, r, root, p.i4)
    ensures Walk(a.mem, r, p) == Walk(a.mem, root, p)
  {
    assert EntryOk(a.mem, a.shape, r, p.i4) && EntryOk(a.mem, a.shape, root, p.i4);
  }

  lemma SameAgain(a: View, b: View, c: View, k: nat, spaces: set<nat>, root: nat, g: nat)
    requires Sound(a, k) && IsTable(a.shape, root, 4) && OnGuard(a, b, k, spaces, root, g)
    requires FreeIdentity(a, root) && TopsStay(b, c)
    requires Remapped(b.mem, c.mem, b.shape, root, PageOf(g * PAGE), Mapped(g, true, false))
    ensures SameWalks(a.mem, c.mem, a.shape)
  {
    var q := PageOf(g * PAGE);
    assert Identity(a.mem, root, g);
    forall r, p | IsTable(a.shape, r, 4)
      ensures Walk(c.mem, r, p) == Walk(a.mem, r, p)
    {
      assert IsTable(b.shape, r, 4) && IsTable(b.shape, root, 4);
      if p == q {
        BranchKept(a, b, c, k, r, root, p.i4);
        if SameBranch(a.mem, r, root, p.i4) {
          SharedBranch(a, k, r, root, p);
        }
      }
    }
  }

  lemma BranchKept(a: View, b: View, c: View, k: nat, r: nat, root: nat, i: nat)
    requires Sound(a, k) && IsTable(a.shape, r, 4) && IsTable(a.shape, root, 4) && SameTables(a, b) && TopsStay(a, b)
      && TopsStay(b, c)
    requires At(a.mem, root, i).present && i < ENTRIES
    ensures SameBranch(b.mem, r, root, i) <==> SameBranch(a.mem, r, root, i)
    ensures SameBranch(c.mem, r, root, i) <==> SameBranch(a.mem, r, root, i)
  {
    assert EntryOk(a.mem, a.shape, root, i);
    assert IsTable(b.shape, r, 4) && IsTable(b.shape, root, 4);
  }
}
