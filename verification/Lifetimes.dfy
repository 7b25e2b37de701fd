/** Threads and processes that come and go in any order: guarded stacks are
    allocated and reaped (kernel/sched/thread.c:116-192) while process spaces are
    created, touched and destroyed, by whatever space is current. */
module Lifetimes {
  import opened Base
  import opened Paging
  import opened Spaces
  import opened Vmm
  import opened Stacks
  import B = Boot
  import P = Pmm

  /** Spaces are named by their root frame, stacks by their guard frame. */
  datatype Event =
    | Start(root: nat)
    | Reap(guard: nat, root: nat)
    | Touch(root: nat, va: nat)
    | Open
    | Close(root: nat)

  ghost function StackFrames(live: set<nat>): set<nat> {
    set g, f | g in live && f in Triple(g) :: f
  }

  ghost function SpaceFrames(v: View, k: nat, spaces: set<nat>): set<nat> {
    set r, f | r in spaces && f in Owned(v.mem, v.shape, k, r) :: f
  }

  /** Page p is the guard page of a live stack. */
  ghost predicate IsGuard(live: set<nat>, p: Page) {
    exists g :: g in live && p == PageOf(g * PAGE)
  }

  /** Nobody uses the frames of the stack, and the path to its guard page is there. */
  ghost predicate StackOk(a: View, v: View, k: nat, spaces: set<nat>, g: nat) {
    && g + 2 < P.MAX_FRAMES && Triple(g) <= a.free
    && (forall f :: f in Triple(g) ==> Unused(v, k, spaces, f))
    && SlotOf(v.mem, k, PageOf(g * PAGE)).Slot?
  }

  predicate StacksApart(g: nat, h: nat) {
    g != h ==> Triple(g) !! Triple(h)
  }

  ghost predicate StacksOk(a: View, v: View, k: nat, spaces: set<nat>, live: set<nat>) {
    && (forall g :: g in live ==> StackOk(a, v, k, spaces, g))
    && (forall g, h :: g in live && h in live ==> StacksApart(g, h))
  }

  /** The kernel translates as in a, but for the guard pages of live stacks. */
  ghost predicate KernelWalks(a: View, v: View, k: nat, live: set<nat>) {
    forall p :: Walk(v.mem, k, p) == if IsGuard(live, p) then Unmapped else Walk(a.mem, k, p)
  }

  ghost predicate SharedLow(a: View, v: View, k: nat, spaces: set<nat>) {
    LowShared(v, k, k) && SameKernelTop(a.mem, v.mem, k) && forall r :: r in spaces ==> LowShared(v, k, r)
  }

  /** The frames that were free in a are free, or part of a live stack, or a page
      table that a split took, or owned by a space; and never two of these. */
  ghost predicate FramesOk(a: View, v: View, k: nat, spaces: set<nat>, live: set<nat>, spent: set<nat>) {
    && v.free + StackFrames(live) + spent + SpaceFrames(v, k, spaces) == a.free
    && spent <= v.shape.level.Keys && spent !! v.free && spent !! StackFrames(live)
      && spent !! SpaceFrames(v, k, spaces)
    && v.free !! StackFrames(live) && v.free !! SpaceFrames(v, k, spaces)
      && StackFrames(live) !! SpaceFrames(v, k, spaces)
  }

  ghost predicate Tidy(a: View, v: View, k: nat, spaces: set<nat>, live: set<nat>, spent: set<nat>) {
    StacksOk(a, v, k, spaces, live) && KernelWalks(a, v, k, live) && SharedLow(a, v, k, spaces)
      && FramesOk(a, v, k, spaces, live, spent)
  }

  /** The state to start from, as boot leaves it. */
  ghost predicate AfterBoot(a: View, k: nat) {
    FreeIdentity(a, k) && LowShared(a, k, k) && forall f :: f in a.free ==> f < P.MAX_FRAMES
  }

  lemma TidyAtFirst(a: View, k: nat)
    requires AfterBoot(a, k)
    ensures Tidy(a, a, k, {}, {}, {})
  {
    assert StackFrames({}) == {} && SpaceFrames(a, k, {}) == {};
  }

  // ---------------------------------------------------------------------------
  // Spaces that share the kernel's lowest branch

  lemma LowWalks(v: View, k: nat, r: nat, p: Page)
    requires LowShared(v, k, r) && p.i4 == 0
    ensures Walk(v.mem, r, p) == Walk(v.mem, k, p) && SlotOf(v.mem, r, p) == SlotOf(v.mem, k, p)
      && SameBranch(v.mem, k, r, 0)
  {
  }

  lemma GuardPage(live: set<nat>, g: nat, f: nat)
    requires f < P.MAX_FRAMES && forall h :: h in live ==> h < P.MAX_FRAMES
    ensures IsGuard(live, PageOf(f * PAGE)) <==> f in live
  {
    if IsGuard(live, PageOf(f * PAGE)) {
      var h :| h in live && PageOf(f * PAGE) == PageOf(h * PAGE);
      PagesDiffer(f, h);
    }
  }

  /** Every free frame is mapped to itself in every space that takes a step. */
  lemma FreeIsIdentity(a: View, v: View, k: nat, spaces: set<nat>, live: set<nat>, spent: set<nat>, r: nat)
    requires AfterBoot(a, k) && Tidy(a, v, k, spaces, live, spent) && LowShared(v, k, r)
    ensures FreeIdentity(v, r)
  {
    hide Walk, PageOf, Unused, SlotOf, LowShared;
    forall f | f in v.free
      ensures Identity(v.mem, r, f)
    {
      assert Identity(a.mem, k, f);
      InStackFrames(live);
      LowFrame(f);
      LowWalks(v, k, r, PageOf(f * PAGE));
      GuardBelow(a, v, k, spaces, live);
      GuardPage(live, 0, f);
    }
  }

  lemma InStackFrames(live: set<nat>)
    ensures forall g :: g in live ==> Triple(g) <= StackFrames(live)
  {
  }

  lemma GuardBelow(a: View, v: View, k: nat, spaces: set<nat>, live: set<nat>)
    requires StacksOk(a, v, k, spaces, live)
    ensures forall h :: h in live ==> h < P.MAX_FRAMES
  {
    assert forall g :: g in live ==> StackOk(a, v, k, spaces, g);
  }

  // ---------------------------------------------------------------------------
  // A stack is allocated

  lemma StackAdded(live: set<nat>, g: nat)
    ensures StackFrames(live + {g}) == StackFrames(live) + Triple(g)
  {
  }

  lemma StackGone(live: set<nat>, g: nat)
    requires g in live && forall h :: h in live ==> StacksApart(g, h)
    ensures StackFrames(live - {g}) == StackFrames(live) - Triple(g)
  {
  }

  lemma SpaceFramesSame(v: View, w: View, k: nat, spaces: set<nat>)
    requires SameOwned(v, w, k, spaces)
    ensures SpaceFrames(w, k, spaces) == SpaceFrames(v, k, spaces)
  {
  }

  /** The stacks that stay, through any step. */
  lemma StacksStay(a: View, v: View, w: View, k: nat, spaces: set<nat>, spaces': set<nat>, live: set<nat>,
      rest: set<nat>)
    requires StacksOk(a, v, k, spaces, live) && rest <= live && IsTable(v.shape, k, 4)
      && SlotsStay(v.mem, w.mem, v.shape)
    requires forall g, f :: g in rest && f in Triple(g) && Unused(v, k, spaces, f) ==> Unused(w, k, spaces', f)
    ensures StacksOk(a, w, k, spaces', rest)
  {
    hide Unused, SlotOf, PageOf;
    forall g | g in rest
      ensures StackOk(a, w, k, spaces', g)
    {
      assert StackOk(a, v, k, spaces, g);
    }
  }

  lemma LowStays(a: View, v: View, w: View, k: nat, spaces: set<nat>)
    requires SharedLow(a, v, k, spaces) && TopsFixed(v, w) && IsTable(v.shape, k, 4)
    requires forall r :: r in spaces ==> IsTable(v.shape, r, 4)
    ensures SharedLow(a, w, k, spaces)
  {
  }

  lemma LowKept(v: View, w: View, k: nat, r: nat)
    requires LowShared(v, k, r) && TopsFixed(v, w) && IsTable(v.shape, k, 4) && IsTable(v.shape, r, 4)
    ensures LowShared(w, k, r)
  {
  }

  /** Page g changed to m, in the kernel too. */
  lemma OneRemapped(v: View, w: View, k: nat, r: nat, g: nat, m: Mapping)
    requires Remapped(v.mem, w.mem, v.shape, r, PageOf(g * PAGE), m) && LowShared(w, k, r) && IsTable(v.shape, k, 4)
      && g < P.MAX_FRAMES
    ensures forall p :: Walk(w.mem, k, p) == if p == PageOf(g * PAGE) then m else Walk(v.mem, k, p)
  {
    hide Walk;
    LowFrame(g);
  }

  lemma WalksStarted(a: View, v: View, w: View, k: nat, live: set<nat>, g: nat)
    requires KernelWalks(a, v, k, live)
    requires forall p :: Walk(w.mem, k, p) == if p == PageOf(g * PAGE) then Unmapped else Walk(v.mem, k, p)
    ensures KernelWalks(a, w, k, live + {g})
  {
    hide Walk, PageOf;
    forall p
      ensures Walk(w.mem, k, p) == if IsGuard(live + {g}, p) then Unmapped else Walk(a.mem, k, p)
    {
      if IsGuard(live, p) {
        var h :| h in live && p == PageOf(h * PAGE);
        assert h in live + {g};
      }
      assert g in live + {g};
    }
  }

  lemma Started(a: View, v: View, w: View, k: nat, spaces: set<nat>, live: set<nat>, spent: set<nat>, r: nat, g: nat)
    requires Sound(v, k) && SpacesOk(v.mem, v.shape, k, spaces, v.free) && AfterBoot(a, k)
      && Tidy(a, v, k, spaces, live, spent)
    requires LowShared(v, k, r) && IsTable(v.shape, r, 4)
    requires OnGuard(v, w, k, spaces, r, g) && Calm(v, w, k, spaces, r, {})
    ensures Tidy(a, w, k, spaces, live + {g}, spent + Added(v.shape, w.shape)) && g !in live
  {
    hide Walk, PageOf, SlotOf, SlotsStay, Sound, SpacesOk, LowShared, Unused, KernelWalks, SharedLow, FramesOk, Owned,
         TopsFixed, Remapped, SameOwned,
         AfterBoot, OnGuard, Calm, StacksOk, Added;
    Roots(v, k, spaces);
    StartParts(v, w, k, spaces, r, g);
    LowKept(v, w, k, r);
    OneRemapped(v, w, k, r, g, Unmapped);
    WalksStarted(a, v, w, k, live, g);
    LowStays(a, v, w, k, spaces);
    StacksStay(a, v, w, k, spaces, spaces, live, live);
    FramesStarted(a, v, w, k, spaces, live, spent, g);
    FreeApart(a, v, k, spaces, live, spent);
    LowFrame(g);
    LowWalks(w, k, r, PageOf(g * PAGE));
    StackJoins(a, w, k, spaces, live, g, v.free);
  }

  lemma StartParts(v: View, w: View, k: nat, spaces: set<nat>, r: nat, g: nat)
    requires OnGuard(v, w, k, spaces, r, g) && Calm(v, w, k, spaces, r, {}) && LowShared(v, k, r)
    ensures Triple(g) <= v.free && g + 2 < P.MAX_FRAMES && (forall f :: f in Triple(g) ==> Unused(w, k, spaces, f))
    ensures Added(v.shape, w.shape) <= v.free - Triple(g) && w.free == v.free - Triple(g) - Added(v.shape, w.shape)
    ensures Remapped(v.mem, w.mem, v.shape, r, PageOf(g * PAGE), Unmapped) && SlotOf(w.mem, r, PageOf(g * PAGE)).Slot?
    ensures SlotsStay(v.mem, w.mem, v.shape) && SameTables(v, w) && TopsFixed(v, w) && SameOwned(v, w, k, spaces)
    ensures forall f :: Unused(v, k, spaces, f) ==> Unused(w, k, spaces, f)
  {
    hide Walk, PageOf, SlotOf, SlotsStay, LowShared, Unused, Owned, TopsFixed, Remapped, SameOwned, TopsStay,
         SameTables, Added;
  }

  lemma StackJoins(a: View, w: View, k: nat, spaces: set<nat>, live: set<nat>, g: nat, free: set<nat>)
    requires StacksOk(a, w, k, spaces, live) && StackOk(a, w, k, spaces, g) && Triple(g) <= free
      && free !! StackFrames(live)
    ensures StacksOk(a, w, k, spaces, live + {g}) && g !in live
  {
    hide StackOk;
    InStackFrames(live);
    assert g in Triple(g);
  }

  lemma Roots(v: View, k: nat, spaces: set<nat>)
    requires Sound(v, k) && SpacesOk(v.mem, v.shape, k, spaces, v.free)
    ensures IsTable(v.shape, k, 4) && forall r :: r in spaces ==> IsTable(v.shape, r, 4) && r != k
  {
  }

  lemma FreeApart(a: View, v: View, k: nat, spaces: set<nat>, live: set<nat>, spent: set<nat>)
    requires FramesOk(a, v, k, spaces, live, spent)
    ensures v.free !! StackFrames(live) && v.free <= a.free
  {
  }

  lemma FramesStarted(a: View, v: View, w: View, k: nat, spaces: set<nat>, live: set<nat>, spent: set<nat>, g: nat)
    requires FramesOk(a, v, k, spaces, live, spent) && SameOwned(v, w, k, spaces) && SameTables(v, w) && Sound(v, k)
    requires Triple(g) <= v.free && Added(v.shape, w.shape) <= v.free - Triple(g)
      && w.free == v.free - Triple(g) - Added(v.shape, w.shape)
    ensures FramesOk(a, w, k, spaces, live + {g}, spent + Added(v.shape, w.shape)) && Triple(g) <= a.free
  {
    hide SpaceFrames, StackFrames, SameOwned, Owned;
    SpaceFramesSame(v, w, k, spaces);
    StackAdded(live, g);
    LevelsGrow(v, w, k);
  }

  lemma LevelsGrow(v: View, w: View, k: nat)
    requires Sound(v, k) && SameTables(v, w)
    ensures v.shape.level.Keys <= w.shape.level.Keys
  {
    forall t | t in v.shape.level
      ensures t in w.shape.level
    {
      assert IsTable(v.shape, t, v.shape.level[t]);
    }
  }

  lemma NotStarted(a: View, v: View, w: View, k: nat, spaces: set<nat>, live: set<nat>, spent: set<nat>, r: nat)
    requires Sound(v, k) && SpacesOk(v.mem, v.shape, k, spaces, v.free) && Tidy(a, v, k, spaces, live, spent)
      && LowShared(v, k, r)
    requires Undone(v, w) && Calm(v, w, k, spaces, r, {})
    ensures Tidy(a, w, k, spaces, live, spent)
  {
    hide Walk, PageOf, SlotOf, SlotsStay, Sound, SpacesOk, LowShared, Unused, SharedLow, Owned, TopsFixed, SameOwned,
         TopsStay, IsGuard;
    Roots(v, k, spaces);
    LowStays(a, v, w, k, spaces);
    StacksStay(a, v, w, k, spaces, spaces, live, live);
    SpaceFramesSame(v, w, k, spaces);
    LevelsGrow(v, w, k);
  }

  // ---------------------------------------------------------------------------
  // A stack is reaped

  lemma WalksReaped(a: View, v: View, w: View, k: nat, live: set<nat>, g: nat)
    requires KernelWalks(a, v, k, live) && g in live && Identity(a.mem, k, g) && forall h ::
      h in live ==> h < P.MAX_FRAMES
    requires forall p :: Walk(w.mem, k, p) == if p == PageOf(g * PAGE) then Mapped(g, true, false)
      else Walk(v.mem, k, p)
    ensures KernelWalks(a, w, k, live - {g})
  {
    hide Walk, PageOf;
    forall p
      ensures Walk(w.mem, k, p) == if IsGuard(live - {g}, p) then Unmapped else Walk(a.mem, k, p)
    {
      if p == PageOf(g * PAGE) {
        GuardPage(live - {g}, 0, g);
      } else if IsGuard(live, p) {
        var h :| h in live && p == PageOf(h * PAGE);
        assert h in live - {g};
      }
    }
  }

  lemma Reaped(a: View, v: View, w: View, k: nat, spaces: set<nat>, live: set<nat>, spent: set<nat>, r: nat, g: nat)
    requires Sound(v, k) && SpacesOk(v.mem, v.shape, k, spaces, v.free) && AfterBoot(a, k)
      && Tidy(a, v, k, spaces, live, spent)
    requires LowShared(v, k, r) && IsTable(v.shape, r, 4) && g in live
    requires w.shape == v.shape && w.free == v.free + Triple(g) && Calm(v, w, k, spaces, r, Triple(g))
    requires Remapped(v.mem, w.mem, v.shape, r, PageOf(g * PAGE), Mapped(g, true, false))
    ensures Tidy(a, w, k, spaces, live - {g}, spent)
  {
    hide Walk, PageOf, SlotOf, SlotsStay, Sound, SpacesOk, LowShared, Unused, KernelWalks, SharedLow, FramesOk, Owned,
         TopsFixed, Remapped, SameOwned,
         Identity;
    Roots(v, k, spaces);
    assert StackOk(a, v, k, spaces, g) && Identity(a.mem, k, g);
    LowKept(v, w, k, r);
    OneRemapped(v, w, k, r, g, Mapped(g, true, false));
    GuardBelow(a, v, k, spaces, live);
    WalksReaped(a, v, w, k, live, g);
    LowStays(a, v, w, k, spaces);
    assert forall h :: h in live - {g} ==> StacksApart(g, h);
    StacksStay(a, v, w, k, spaces, spaces, live, live - {g});
    FramesReaped(a, v, w, k, spaces, live, spent, g);
  }

  lemma FramesReaped(a: View, v: View, w: View, k: nat, spaces: set<nat>, live: set<nat>, spent: set<nat>, g: nat)
    requires FramesOk(a, v, k, spaces, live, spent) && SameOwned(v, w, k, spaces) && w.shape == v.shape
    requires g in live && (forall h :: h in live ==> StacksApart(g, h)) && w.free == v.free + Triple(g)
    ensures FramesOk(a, w, k, spaces, live - {g}, spent)
  {
    hide SpaceFrames, StackFrames, SameOwned, Owned;
    SpaceFramesSame(v, w, k, spaces);
    StackGone(live, g);
    InStackFrames(live);
  }

  // ---------------------------------------------------------------------------
  // Spaces are opened, touched and closed

  lemma SpacesAre(v: View, k: nat, spaces: set<nat>, r: nat)
    requires r in spaces
    ensures SpaceFrames(v, k, spaces) == SpaceFrames(v, k, spaces - {r}) + Owned(v.mem, v.shape, k, r)
  {
    hide Owned;
  }

  lemma UnusedNotOwned(v: View, k: nat, spaces: set<nat>, f: nat)
    requires Sound(v, k) && SpacesOk(v.mem, v.shape, k, spaces, v.free) && Unused(v, k, spaces, f)
    ensures f !in SpaceFrames(v, k, spaces)
  {
    forall r | r in spaces
      ensures f !in Owned(v.mem, v.shape, k, r)
    {
    }
  }

  lemma StackNotOwned(a: View, v: View, k: nat, spaces: set<nat>, live: set<nat>)
    requires Sound(v, k) && SpacesOk(v.mem, v.shape, k, spaces, v.free) && StacksOk(a, v, k, spaces, live)
    ensures StackFrames(live) !! SpaceFrames(v, k, spaces) && StackFrames(live) !! v.free
  {
    hide Unused, SpaceFrames, Sound, SpacesOk;
    forall f | f in StackFrames(live)
      ensures f !in SpaceFrames(v, k, spaces) && f !in v.free
    {
      var g :| g in live && f in Triple(g);
      assert StackOk(a, v, k, spaces, g);
      UnusedNotOwned(v, k, spaces, f);
      NotFree(v, k, spaces, f);
    }
  }

  lemma NotFree(v: View, k: nat, spaces: set<nat>, f: nat)
    requires Unused(v, k, spaces, f)
    ensures f !in v.free
  {
  }

  lemma OwnedNotFree(v: View, k: nat, spaces: set<nat>)
    requires Sound(v, k) && SpacesOk(v.mem, v.shape, k, spaces, v.free)
    ensures SpaceFrames(v, k, spaces) !! v.free
  {
    hide Owned, Sound, SpacesOk;
    forall r | r in spaces
      ensures Owned(v.mem, v.shape, k, r) !! v.free
    {
      OwnedIsHeld(v, k, r, spaces);
    }
  }

  /** The page that was touched is in no branch of the kernel. */
  lemma WalksTouched(a: View, v: View, w: View, k: nat, live: set<nat>, r: nat, p: Page, m: Mapping)
    requires KernelWalks(a, v, k, live) && IsTable(v.shape, k, 4)
    requires SameWalks(v.mem, w.mem, v.shape)
      || (Remapped(v.mem, w.mem, v.shape, r, p, m) && !At(w.mem, k, p.i4).present)
    ensures KernelWalks(a, w, k, live)
  {
    hide Walk, IsGuard;
    forall q
      ensures Walk(w.mem, k, q) == Walk(v.mem, k, q)
    {
    }
  }

  lemma LowUndisturbed(a: View, v: View, w: View, k: nat, spaces: set<nat>, spaces': set<nat>)
    requires SharedLow(a, v, k, spaces) && Undisturbed(v, w, k, spaces, spaces') && SameKernelTop(v.mem, w.mem, k)
    requires IsTable(v.shape, k, 4) && (forall r :: r in spaces ==> IsTable(v.shape, r, 4))
    requires forall r :: r in spaces' && r !in spaces ==> LowShared(w, k, r)
    ensures SharedLow(a, w, k, spaces')
  {
    hide Unused, SlotsStay, TablesStay;
    assert At(w.mem, k, 0) == At(v.mem, k, 0);
    forall r | r in spaces'
      ensures LowShared(w, k, r)
    {
    }
  }

  lemma Touched(a: View, v: View, w: View, k: nat, spaces: set<nat>, live: set<nat>, spent: set<nat>, r: nat, p: Page,
      m: Mapping)
    requires Sound(v, k) && SpacesOk(v.mem, v.shape, k, spaces, v.free) && Tidy(a, v, k, spaces, live, spent)
      && r in spaces
    requires Sound(w, k) && SpacesOk(w.mem, w.shape, k, spaces, w.free)
    requires Undisturbed(v, w, k, spaces, spaces) && SameKernelTop(v.mem, w.mem, k) && !At(v.mem, k, p.i4).present
    requires SameWalks(v.mem, w.mem, v.shape) || Remapped(v.mem, w.mem, v.shape, r, p, m)
    requires Conserved(v, w, k, spaces, r, true)
    ensures Tidy(a, w, k, spaces, live, spent)
  {
    hide Walk, SlotOf, SlotsStay, Sound, SpacesOk, LowShared, Unused, KernelWalks, SharedLow, FramesOk, Owned,
         SameWalks, Remapped, Conserved;
    Roots(v, k, spaces);
    WalksTouched(a, v, w, k, live, r, p, m);
    LowUndisturbed(a, v, w, k, spaces, spaces);
    StacksStay(a, v, w, k, spaces, spaces, live, live);
    FramesTouched(a, v, w, k, spaces, live, spent, r);
  }

  lemma FramesTouched(a: View, v: View, w: View, k: nat, spaces: set<nat>, live: set<nat>, spent: set<nat>, r: nat)
    requires FramesOk(a, v, k, spaces, live, spent) && r in spaces && Conserved(v, w, k, spaces, r, true)
    requires Sound(w, k) && SpacesOk(w.mem, w.shape, k, spaces, w.free) && StacksOk(a, w, k, spaces, live)
      && TablesStay(v, w, k, {})
    ensures FramesOk(a, w, k, spaces, live, spent)
  {
    hide SpaceFrames, StackFrames, Owned, Sound, SpacesOk, StacksOk;
    SpacesAre(v, k, spaces, r);
    SpacesAre(w, k, spaces, r);
    OthersSame(v, w, k, spaces, r);
    StackNotOwned(a, w, k, spaces, live);
    OwnedNotFree(w, k, spaces);
  }

  lemma OthersSame(v: View, w: View, k: nat, spaces: set<nat>, r: nat)
    requires Conserved(v, w, k, spaces, r, true)
    ensures SpaceFrames(w, k, spaces - {r}) == SpaceFrames(v, k, spaces - {r})
  {
    hide Owned;
  }

  lemma Opened(a: View, v: View, w: View, k: nat, spaces: set<nat>, live: set<nat>, spent: set<nat>, r: nat)
    requires Sound(v, k) && SpacesOk(v.mem, v.shape, k, spaces, v.free) && Tidy(a, v, k, spaces, live, spent)
    requires Sound(w, k) && SpacesOk(w.mem, w.shape, k, spaces + {r}, w.free) && NewSpace(v, w, k, spaces, r)
    ensures Tidy(a, w, k, spaces + {r}, live, spent)
  {
    hide Walk, SlotOf, SlotsStay, Sound, SpacesOk, Unused, KernelWalks, SharedLow, FramesOk, Owned, SameWalks,
         TablesStay;
    Roots(v, k, spaces);
    WalksTouched(a, v, w, k, live, r, PageOf(0), Unmapped);
    RootCopied(a, v, w, k, spaces, r);
    LowUndisturbed(a, v, w, k, spaces, spaces + {r});
    StacksStay(a, v, w, k, spaces, spaces + {r}, live, live);
    FramesOpened(a, v, w, k, spaces, live, spent, r);
  }

  lemma RootCopied(a: View, v: View, w: View, k: nat, spaces: set<nat>, r: nat)
    requires SharedLow(a, v, k, spaces) && NewSpace(v, w, k, spaces, r) && IsTable(v.shape, k, 4)
    ensures LowShared(w, k, r)
  {
    assert At(w.mem, k, 0) == At(v.mem, k, 0);
  }

  lemma FramesOpened(a: View, v: View, w: View, k: nat, spaces: set<nat>, live: set<nat>, spent: set<nat>, r: nat)
    requires FramesOk(a, v, k, spaces, live, spent) && NewSpace(v, w, k, spaces, r)
      && StacksOk(a, w, k, spaces + {r}, live)
    requires Sound(w, k) && SpacesOk(w.mem, w.shape, k, spaces + {r}, w.free)
    ensures FramesOk(a, w, k, spaces + {r}, live, spent)
  {
    hide SpaceFrames, StackFrames, Owned, Sound, SpacesOk, StacksOk, SlotsStay, Unused, SameWalks, Walk;
    SpacesAre(w, k, spaces + {r}, r);
    assert spaces + {r} - {r} == spaces;
    SpaceFramesSame(v, w, k, spaces);
    StackNotOwned(a, w, k, spaces + {r}, live);
    OwnedNotFree(w, k, spaces + {r});
    assert spaces - (spaces + {r}) == {};
  }

  lemma Closed(a: View, v: View, w: View, k: nat, spaces: set<nat>, live: set<nat>, spent: set<nat>, r: nat)
    requires Sound(v, k) && SpacesOk(v.mem, v.shape, k, spaces, v.free) && Tidy(a, v, k, spaces, live, spent)
      && r in spaces
    requires Sound(w, k) && SpacesOk(w.mem, w.shape, k, spaces - {r}, w.free) && TornDown(v, w, k, r, spaces - {r})
    ensures Tidy(a, w, k, spaces - {r}, live, spent)
  {
    hide Walk, SlotOf, SlotsStay, Sound, SpacesOk, Unused, KernelWalks, SharedLow, FramesOk, Owned, TablesStay,
         OwnedTables;
    assert spaces - {r} + {r} == spaces;
    Roots(v, k, spaces);
    WalksTouched(a, v, w, k, live, r, PageOf(0), Unmapped);
    LowUndisturbed(a, v, w, k, spaces, spaces - {r});
    StacksStay(a, v, w, k, spaces, spaces - {r}, live, live);
    FramesClosed(a, v, w, k, spaces, live, spent, r);
  }

  lemma FramesClosed(a: View, v: View, w: View, k: nat, spaces: set<nat>, live: set<nat>, spent: set<nat>, r: nat)
    requires FramesOk(a, v, k, spaces, live, spent) && r in spaces && TornDown(v, w, k, r, spaces - {r})
      && StacksOk(a, w, k, spaces - {r}, live)
    requires Sound(w, k) && SpacesOk(w.mem, w.shape, k, spaces - {r}, w.free)
    ensures FramesOk(a, w, k, spaces - {r}, live, spent)
  {
    hide SpaceFrames, StackFrames, Owned, Sound, SpacesOk, StacksOk, SlotsStay, Unused, OwnedTables;
    SpacesAre(v, k, spaces, r);
    SpaceFramesSame(v, w, k, spaces - {r});
    StackNotOwned(a, w, k, spaces - {r}, live);
    OwnedNotFree(w, k, spaces - {r});
    assert spaces - {r} + {r} - (spaces - {r}) == {r};
  }

  // ---------------------------------------------------------------------------
  // Runs

  lemma RootFits(v: View, k: nat, spaces: set<nat>, r: nat)
    requires Sound(v, k) && SpacesOk(v.mem, v.shape, k, spaces, v.free) && (r == k || r in spaces)
    ensures FrameOf(r * PAGE) == r && r * PAGE != 0 && IsTable(v.shape, r, 4)
  {
  }

  lemma LowOf(a: View, v: View, k: nat, spaces: set<nat>, live: set<nat>, spent: set<nat>, r: nat)
    requires Tidy(a, v, k, spaces, live, spent) && (r == k || r in spaces)
    ensures LowShared(v, k, r)
  {
  }

  method StartThread(vm: AddressSpaces, r: nat, live: set<nat>, ghost a: View, ghost spent: set<nat>)
    returns (live': set<nat>, ghost spent': set<nat>)
    requires vm.Valid() && AfterBoot(a, vm.kernelPml4) && Tidy(a, vm.Snap(), vm.kernelPml4, vm.spaces, live, spent)
    requires r == vm.kernelPml4 || r in vm.spaces
    modifies vm`mem, vm`bytes, vm`shape, vm.pmm, vm.pmm.bitmap
    ensures vm.Valid() && vm.pmm.idleFrees == old(vm.pmm.idleFrees)
    ensures Tidy(a, vm.Snap(), vm.kernelPml4, vm.spaces, live', spent')
    ensures if StackPossible(old(vm.Snap()), r) then exists g :: g !in live && live' == live + {g} else live' == live
  {
    hide P.Agrees, Sound, SpacesOk, Tidy, AfterBoot, FreeIdentity, OnGuard, Undone, Calm, StackPossible, FrameOf, Added,
         LowShared;
    ghost var v, k, spaces := vm.Snap(), vm.kernelPml4, vm.spaces;
    RootFits(v, k, spaces, r);
    LowOf(a, v, k, spaces, live, spent, r);
    FreeIsIdentity(a, v, k, spaces, live, spent, r);
    var ok, stackLow, guard := AllocGuardedStack(vm, r * PAGE);
    if !ok {
      NotStarted(a, v, vm.Snap(), k, spaces, live, spent, r);
      return live, spent;
    }
    Started(a, v, vm.Snap(), k, spaces, live, spent, r, guard / PAGE);
    return live + {guard / PAGE}, spent + Added(v.shape, vm.shape);
  }

  method ReapThread(vm: AddressSpaces, g: nat, r: nat, live: set<nat>, ghost a: View,
      ghost spent: set<nat>) returns (live': set<nat>)
    requires vm.Valid() && AfterBoot(a, vm.kernelPml4) && Tidy(a, vm.Snap(), vm.kernelPml4, vm.spaces, live, spent)
    requires (r == vm.kernelPml4 || r in vm.spaces) && g in live
    modifies vm`mem, vm`bytes, vm`shape, vm.pmm, vm.pmm.bitmap
    ensures vm.Valid() && vm.pmm.idleFrees == old(vm.pmm.idleFrees)
    ensures live' == live - {g} && Tidy(a, vm.Snap(), vm.kernelPml4, vm.spaces, live', spent)
  {
    hide P.Agrees, Sound, SpacesOk, Tidy, AfterBoot, FreeIdentity, Calm, FrameOf, LowShared, Unused, SlotOf, PageOf,
         Remapped, Identity, TopsStay;
    ghost var v, k, spaces := vm.Snap(), vm.kernelPml4, vm.spaces;
    RootFits(v, k, spaces, r);
    LowOf(a, v, k, spaces, live, spent, r);
    StackReady(a, v, k, spaces, live, spent, r, g);
    ReapStack(vm, r * PAGE, g * PAGE + PAGE, g * PAGE);
    Reaped(a, v, vm.Snap(), k, spaces, live, spent, r, g);
    live' := live - {g};
  }

  lemma StackReady(a: View, v: View, k: nat, spaces: set<nat>, live: set<nat>, spent: set<nat>, r: nat, g: nat)
    requires Tidy(a, v, k, spaces, live, spent) && g in live && LowShared(v, k, r)
    ensures g + 2 < P.MAX_FRAMES && (forall f :: f in {g, g + 1, g + 2} ==> Unused(v, k, spaces, f))
    ensures SlotOf(v.mem, r, PageOf(g * PAGE)).Slot?
  {
    hide Unused, SlotOf, PageOf, LowShared;
    assert StackOk(a, v, k, spaces, g);
    LowFrame(g);
    LowWalks(v, k, r, PageOf(g * PAGE));
  }

  /** A page fault, or a page of the loader, in a slot of the process's own. */
  method TouchPage(vm: AddressSpaces, r: nat, va: nat, ghost live: set<nat>, ghost a: View, ghost spent: set<nat>)
    requires vm.Valid() && Tidy(a, vm.Snap(), vm.kernelPml4, vm.spaces, live, spent) && r in vm.spaces
    modifies vm`mem, vm`bytes, vm`shape, vm.pmm, vm.pmm.bitmap
    ensures vm.Valid() && vm.pmm.idleFrees == old(vm.pmm.idleFrees)
    ensures Tidy(a, vm.Snap(), vm.kernelPml4, vm.spaces, live, spent)
    ensures Walk(vm.mem, r, PageOf(va)).Mapped? <==>
      || Walk(old(vm.mem), r, PageOf(va)).Mapped?
      || (!At(old(vm.mem), vm.kernelPml4, PageOf(va).i4).present
        && Missing(old(vm.mem), r, PageOf(va)) < |old(vm.pmm.free)|)
  {
    hide P.Agrees, Sound, SpacesOk, Tidy, FrameOf, Undisturbed, Remapped, SameWalks, Conserved, SameKernelTop, Tracked,
         Walk, At, PageOf, Depth;
    ghost var v, k, spaces := vm.Snap(), vm.kernelPml4, vm.spaces;
    RootFits(v, k, spaces, r);
    var mapped := vm.IsMappedIn(r * PAGE, va);
    if mapped || At(vm.mem, vm.kernelPml4, PageOf(va).i4).present {
      return;
    }
    PrivateIsTracked(v, k, spaces, r, PageOf(va));
    ghost var ok: bool, f: nat;
    ok, f := vm.MapFreshPage(r * PAGE, va, true);
    if !ok {
      WalkSame(v, vm.Snap(), r, PageOf(va));
    }
    Touched(a, v, vm.Snap(), k, spaces, live, spent, r, PageOf(va), Mapped(f, true, true));
  }

  lemma PrivateIsTracked(v: View, k: nat, spaces: set<nat>, r: nat, p: Page)
    requires r in spaces && !At(v.mem, k, p.i4).present
    ensures Tracked(v, k, spaces, r, p)
  {
  }

  method OpenSpace(vm: AddressSpaces, alive: set<nat>, ghost live: set<nat>, ghost a: View,
      ghost spent: set<nat>) returns (alive': set<nat>)
    requires vm.Valid() && Tidy(a, vm.Snap(), vm.kernelPml4, vm.spaces, live, spent) && alive == vm.spaces
    modifies vm`mem, vm`bytes, vm`shape, vm`spaces, vm.pmm, vm.pmm.bitmap
    ensures vm.Valid() && vm.pmm.idleFrees == old(vm.pmm.idleFrees)
    ensures alive' == vm.spaces && Tidy(a, vm.Snap(), vm.kernelPml4, vm.spaces, live, spent)
    ensures if old(vm.pmm.free) == {} then alive' == alive else exists r :: r !in alive && alive' == alive + {r}
  {
    hide P.Agrees, Sound, SpacesOk, Tidy, FrameOf;
    ghost var v, k := vm.Snap(), vm.kernelPml4;
    var space := vm.CreateAddressSpace();
    if space == 0 {
      return alive;
    }
    Opened(a, v, vm.Snap(), k, alive, live, spent, FrameOf(space));
    alive' := alive + {FrameOf(space)};
  }

  method CloseSpace(vm: AddressSpaces, r: nat, alive: set<nat>, ghost live: set<nat>, ghost a: View,
      ghost spent: set<nat>)
    returns (alive': set<nat>)
    requires vm.Valid() && Tidy(a, vm.Snap(), vm.kernelPml4, vm.spaces, live, spent) && alive == vm.spaces && r in alive
    modifies vm`shape, vm`spaces, vm.pmm, vm.pmm.bitmap
    ensures vm.Valid() && vm.pmm.idleFrees == old(vm.pmm.idleFrees)
    ensures alive' == alive - {r} == vm.spaces && Tidy(a, vm.Snap(), vm.kernelPml4, vm.spaces, live, spent)
  {
    hide P.Agrees, Sound, SpacesOk, Tidy, FrameOf, TornDown, IsTable;
    ghost var v, k := vm.Snap(), vm.kernelPml4;
    RootFits(v, k, alive, r);
    Roots(v, k, alive);
    vm.DestroyAddressSpace(r * PAGE);
    Closed(a, v, vm.Snap(), k, alive, live, spent, r);
    alive' := alive - {r};
  }

  /** Any sequence of events, from the state that boot leaves: at its end the
      kernel translates as at first but for the guard pages of live stacks, and
      every frame is accounted for. Events that name no space or stack do nothing. */
  method Run(vm: AddressSpaces, events: seq<Event>) returns (alive: set<nat>, live: set<nat>, ghost spent: set<nat>)
    requires vm.Valid() && vm.spaces == {} && AfterBoot(vm.Snap(), vm.kernelPml4)
    modifies vm`mem, vm`bytes, vm`shape, vm`spaces, vm.pmm, vm.pmm.bitmap
    ensures vm.Valid() && vm.pmm.idleFrees == old(vm.pmm.idleFrees) && vm.spaces == alive
    ensures Tidy(old(vm.Snap()), vm.Snap(), vm.kernelPml4, alive, live, spent)
  {
    hide P.Agrees, Sound, SpacesOk, Tidy, AfterBoot;
    ghost var a := vm.Snap();
    alive, live, spent := {}, {}, {};
    TidyAtFirst(a, vm.kernelPml4);
    var i := 0;
    while i < |events|
      invariant 0 <= i <= |events| && vm.Valid() && vm.pmm.idleFrees == old(vm.pmm.idleFrees) && vm.spaces == alive
      invariant Tidy(a, vm.Snap(), vm.kernelPml4, alive, live, spent)
    {
      match events[i] {
        case Start(r) =>
          if r == vm.kernelPml4 || r in alive {
            live, spent := StartThread(vm, r, live, a, spent);
          }
        case Reap(g, r) =>
          if g in live && (r == vm.kernelPml4 || r in alive) {
            live := ReapThread(vm, g, r, live, a, spent);
          }
        case Touch(r, va) =>
          if r in alive {
            TouchPage(vm, r, va, live, a, spent);
          }
        case Open =>
          alive := OpenSpace(vm, alive, live, a, spent);
        case Close(r) =>
          if r in alive {
            alive := CloseSpace(vm, r, alive, live, a, spent);
          }
      }
      i := i + 1;
    }
  }

  /** What that says once all stacks are reaped: every page of the kernel, guard
      pages included, translates as at first, in every space that shares it; and
      all frames are back but those that became page tables by splitting and
      those that living processes own. */
  lemma AllReaped(a: View, v: View, k: nat, spaces: set<nat>, spent: set<nat>)
    requires Tidy(a, v, k, spaces, {}, spent)
    ensures forall p :: Walk(v.mem, k, p) == Walk(a.mem, k, p)
    ensures forall r, p: Page :: r in spaces && p.i4 == 0 ==> Walk(v.mem, r, p) == Walk(a.mem, k, p)
    ensures v.free == a.free - spent - SpaceFrames(v, k, spaces) && spent <= v.shape.level.Keys
  {
    hide Walk, SpaceFrames;
    assert StackFrames({}) == {};
    assert forall p :: !IsGuard({}, p);
    forall r, p: Page | r in spaces && p.i4 == 0
      ensures Walk(v.mem, r, p) == Walk(a.mem, k, p)
    {
      LowWalks(v, k, r, p);
    }
  }

  /** The same from power-on: nothing is assumed of the state. */
  method BootAndRun(regions: seq<P.Region>, kernelEnd: nat, events: seq<Event>)
    returns (vm: AddressSpaces, alive: set<nat>, live: set<nat>, ghost spent: set<nat>, ghost a: View)
    requires 0x8200 < kernelEnd && forall r :: r in regions && r.usable ==> P.RegionEnd(r) <= B.CANONICAL
    ensures vm.Valid() && AfterBoot(a, vm.kernelPml4) && Tidy(a, vm.Snap(), vm.kernelPml4, alive, live, spent)
    ensures forall f :: f in a.free ==> P.InsideSome(regions, f) && !P.Reserved(kernelEnd, f)
  {
    hide P.Agrees, Sound, SpacesOk, Tidy, FreeIdentity, P.InsideSome, P.Reserved, P.RegionEnd, LowShared;
    vm := B.BootMemoryManagers(regions, kernelEnd);
    a := vm.Snap();
    FramesBelow(vm);
    RootFits(a, vm.kernelPml4, {}, vm.kernelPml4);
    alive, live, spent := Run(vm, events);
  }
}
