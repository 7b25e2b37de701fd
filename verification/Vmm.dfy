/** The virtual memory manager of kernel/mm/vmm.c. Physical memory is one store
    with two views, page-table entries and bytes: a write through one view
    leaves the other view of that frame arbitrary. */
module Vmm {
  import opened Base
  import opened Paging
  import opened Spaces
  import opened Teardown
  import P = Pmm

  function FrameOf(addr: nat): nat {
    addr / PAGE % 0x100_0000_0000
  }

  /** A snapshot of the parts of the state that building a path changes. */
  datatype View = View(mem: Mem, shape: Shape, bytes: seq<seq<Byte>>, free: set<nat>)

  predicate Fits(mem: Mem, bytes: seq<seq<Byte>>) {
    && |mem| == P.MAX_FRAMES && |bytes| == P.MAX_FRAMES
    && (forall f :: 0 <= f < |mem| ==> |mem[f]| == ENTRIES && |bytes[f]| == PAGE)
  }

  /** Well-formed tables in frames that are not free. */
  ghost predicate Sound(v: View, k: nat) {
    && Fits(v.mem, v.bytes)
    && WellFormed(v.mem, v.shape, k)
    && v.shape.level.Keys !! v.free
    && 0 !in v.free && 0 !in v.shape.level
  }

  lemma SoundTable(v: View, k: nat, t: nat, i: nat)
    requires Sound(v, k) && t in v.shape.level && i < ENTRIES
    ensures Fits(v.mem, v.bytes) && t < |v.mem| && 0 !in v.free && 0 !in v.shape.level
    ensures |v.mem[t]| == ENTRIES
    ensures At(v.mem, t, i).present && v.shape.level[t] >= 3 ==> !At(v.mem, t, i).huge
    ensures At(v.mem, t, i).present && v.shape.level[t] >= 2 && !At(v.mem, t, i).huge ==> At(v.mem, t, i).frame != 0
  {
    assert EntryOk(v.mem, v.shape, t, i);
  }

  /** From a to b the tables were only extended: the added tables came out of
      the free frames, and no frame outside the tables was written. */
  ghost predicate Grown(a: View, b: View) {
    && Extended(a.mem, a.shape, b.mem, b.shape)
    && Added(a.shape, b.shape) <= a.free && b.free == a.free - Added(a.shape, b.shape)
    && |b.bytes| == |a.bytes|
    && (forall f :: 0 <= f < |a.bytes| && f !in b.shape.level ==> b.bytes[f] == a.bytes[f])
  }

  lemma GrownSame(a: View)
    ensures Grown(a, a)
  {
    ExtendedSame(a.mem, a.shape);
  }

  lemma GrownTransitive(a: View, b: View, c: View, k: nat)
    requires Grown(a, b) && Grown(b, c)
    requires TablesOk(a.mem, a.shape) && WellFormed(b.mem, b.shape, k)
    ensures Grown(a, c)
  {
    forall r, i | IsTable(b.shape, r, 4) && At(b.mem, r, i).present
      ensures At(b.mem, r, i).frame in b.shape.level
    {
      assert EntryOk(b.mem, b.shape, r, i);
    }
    assert Added(a.shape, c.shape) == Added(a.shape, b.shape) + Added(b.shape, c.shape);
    ExtendedTransitive(a.mem, a.shape, b.mem, b.shape, c.mem, c.shape);
    forall f | 0 <= f < |a.bytes| && f !in c.shape.level
      ensures c.bytes[f] == a.bytes[f]
    {
      assert f !in b.shape.level;
    }
  }

  lemma NewUnderTransitive(a: View, b: View, c: View, k: nat, x: nat)
    requires Grown(a, b) && Grown(b, c) && WellFormed(b.mem, b.shape, k)
    requires NewUnder(a.shape, b.shape, x) && NewUnder(b.shape, c.shape, x)
    ensures NewUnder(a.shape, c.shape, x)
  {
    forall t | t in c.shape.level && t !in a.shape.level
      ensures Top(c.shape, t) == x
    {
      if t in b.shape.level {
        assert LinkOk(b.mem, b.shape, t);
        assert Top(c.shape, t) == Top(b.shape, t);
      }
    }
  }

  /** Table c hangs, user accessible, at entry i of table t, and every table
      added on the way is under the same top-level branch. */
  ghost predicate MadeTable(a: View, b: View, t: nat, i: nat, c: nat) {
    && t in a.shape.level && t in b.shape.level && a.shape.level[t] >= 2
    && At(b.mem, t, i).present && At(b.mem, t, i).user && At(b.mem, t, i).frame == c
    && IsTable(b.shape, c, a.shape.level[t] - 1)
    && NewUnder(a.shape, b.shape, if a.shape.level[t] == 4 then c else Top(b.shape, t))
  }

  lemma GrownTwice(a: View, b: View, c: View, k: nat, t: nat, i: nat, pt: nat)
    requires Grown(a, b) && Grown(b, c) && Sound(a, k) && Sound(b, k)
    requires MadeTable(a, b, t, i, pt) && MadeTable(b, c, t, i, pt) && a.shape.level[t] <= 3
    ensures Grown(a, c) && MadeTable(a, c, t, i, pt)
  {
    hide Walk, SameWalks, NewLinkOnce, Fits;
    GrownTransitive(a, b, c, k);
    assert LinkOk(a.mem, a.shape, t) && LinkOk(b.mem, b.shape, t);
    NewUnderTransitive(a, b, c, k, Top(c.shape, t));
  }

  lemma GrownByHang(a: View, b: View, k: nat, t: nat, i: nat, c: nat, row: seq<Entry>)
    requires Sound(a, k) && t in a.shape.level && a.shape.level[t] >= 2 && i < ENTRIES
    requires var e := At(a.mem, t, i);
      if e.present then a.shape.level[t] == 2 && e.huge && row == SplitRow(e) else row == Zeros()
    requires c in a.free && c < |a.mem| && b.free == a.free - {c}
    requires b.mem == Hang(a.mem, t, i, c, row) && b.shape == Grow(a.shape, t, i, c)
    requires Fits(b.mem, b.bytes)
    requires forall f :: 0 <= f < |a.bytes| && f != c && f != t ==> b.bytes[f] == a.bytes[f]
    ensures Grown(a, b) && Sound(b, k)
    ensures MadeTable(a, b, t, i, c) && At(b.mem, t, i) == TableLink(c) && c != 0 && t in b.shape.level
  {
    hide WellFormed, Extended, SameWalks, NewUnder;
    SoundTable(a, k, t, i);
    if At(a.mem, t, i).present {
      SplitKeeps(a.mem, a.shape, k, t, i, c);
    } else {
      LinkKeeps(a.mem, a.shape, k, t, i, c);
    }
    HangExtends(a.mem, a.shape, k, t, i, c, row);
    HangNewUnder(a.mem, a.shape, k, t, i, c);
  }

  lemma PdSame(m: Mem, sh: Shape)
    ensures SamePd(m, m, sh)
  {
  }

  lemma PdByHang(a: View, b: View, k: nat, t: nat, i: nat, c: nat)
    requires Sound(a, k) && t in a.shape.level && a.shape.level[t] >= 3 && i < ENTRIES
    requires !At(a.mem, t, i).present && c in a.free && c < |a.mem| && b.mem == Hang(a.mem, t, i, c, Zeros())
    ensures SamePd(a.mem, b.mem, a.shape)
  {
    hide SamePd, Hang, Zeros;
    LinkPd(a.mem, a.shape, k, t, i, c);
  }

  lemma PdByUser(a: View, b: View, k: nat, t: nat, i: nat)
    requires Sound(a, k) && t in a.shape.level && a.shape.level[t] >= 3 && i < ENTRIES
    requires b.mem == Store(a.mem, t, i, At(a.mem, t, i).(user := true))
    ensures SamePd(a.mem, b.mem, a.shape)
  {
    hide SamePd;
    SetUserPd(a.mem, a.shape, k, t, i);
  }

  lemma GrownByUser(a: View, b: View, k: nat, t: nat, i: nat)
    requires Sound(a, k) && t in a.shape.level && a.shape.level[t] >= 2 && i < ENTRIES
    requires At(a.mem, t, i).present && !At(a.mem, t, i).huge
    requires b.mem == Store(a.mem, t, i, At(a.mem, t, i).(user := true)) && b.shape == a.shape && b.free == a.free
    requires Fits(b.mem, b.bytes)
    requires forall f :: 0 <= f < |a.bytes| && f != t ==> b.bytes[f] == a.bytes[f]
    ensures Grown(a, b) && Sound(b, k)
    ensures At(b.mem, t, i) == At(a.mem, t, i).(user := true)
    ensures MadeTable(a, b, t, i, At(a.mem, t, i).frame)
  {
    assert EntryOk(a.mem, a.shape, t, i);
    SetUserKeeps(a.mem, a.shape, k, t, i);
    SetUserExtends(a.mem, a.shape, k, t, i);
  }

  /** Setting the user bit on a link that was just made. */
  lemma GrownAgain(a: View, b: View, c: View, k: nat, t: nat, i: nat, pt: nat)
    requires Grown(a, b) && Sound(a, k) && Sound(b, k) && MadeTable(a, b, t, i, pt) && i < ENTRIES
    requires a.shape.level[t] <= 3 && At(b.mem, t, i) == TableLink(pt)
    requires c.mem == Store(b.mem, t, i, TableLink(pt)) && c.shape == b.shape && c.free == b.free
    requires Fits(c.mem, c.bytes)
    requires forall f :: 0 <= f < |b.bytes| && f != t ==> c.bytes[f] == b.bytes[f]
    ensures Grown(a, c) && Sound(c, k) && MadeTable(a, c, t, i, pt) && !At(c.mem, t, i).huge
  {
    assert At(b.mem, t, i).(user := true) == TableLink(pt);
    GrownByUser(b, c, k, t, i);
    GrownTwice(a, b, c, k, t, i, pt);
  }

  /** The walk from `root` to page p ends at an entry of level-1 table pt, along
      user-accessible links, and all tables added since are under that branch. */
  ghost predicate MadePath(a: View, b: View, root: nat, p: Page, pt: nat) {
    && IsTable(b.shape, pt, 1)
    && SlotOf(b.mem, root, p) == Slot(pt, p.i1)
    && UserPath(b.mem, b.shape, pt)
    && At(b.mem, root, p.i4).present
    && NewUnder(a.shape, b.shape, At(b.mem, root, p.i4).frame)
  }

  /** Nothing happened, or tables were added under the branch of page p. */
  ghost predicate PathOrNothing(a: View, b: View, root: nat, p: Page) {
    a == b || (At(b.mem, root, p.i4).present && NewUnder(a.shape, b.shape, At(b.mem, root, p.i4).frame))
  }

  lemma PathMade(a: View, b: View, c: View, d: View, k: nat, root: nat, p: Page, pdpt: nat, pd: nat, pt: nat)
    requires Sound(a, k) && Sound(b, k) && Sound(c, k) && Sound(d, k)
    requires Grown(a, b) && Grown(b, c) && Grown(c, d)
    requires IsTable(a.shape, root, 4)
    requires MadeTable(a, b, root, p.i4, pdpt) && MadeTable(b, c, pdpt, p.i3, pd) && MadeTable(c, d, pd, p.i2, pt)
    ensures Grown(a, d) && MadePath(a, d, root, p, pt)
  {
    hide Extended, NewUnder, Walk, SameWalks, Fits, UserPath;
    RootLinkStays(a, b, root, p.i4);
    RootLinkStays(b, c, root, p.i4);
    RootLinkStays(c, d, root, p.i4);
    assert EntryOk(b.mem, b.shape, root, p.i4);
    TableStays(b, c, pdpt, p.i3);
    TableStays(c, d, pdpt, p.i3);
    PathLinks(c, d, k, root, p, pdpt, pd, pt);
    GrownTransitive(a, b, c, k);
    NewUnderTransitive(a, b, c, k, pdpt);
    GrownTransitive(a, c, d, k);
    NewUnderTransitive(a, c, d, k, pdpt);
  }

  lemma RootLinkStays(a: View, b: View, root: nat, i: nat)
    requires Grown(a, b) && IsTable(a.shape, root, 4) && TablesOk(b.mem, b.shape)
    ensures IsTable(b.shape, root, 4)
    ensures At(a.mem, root, i).present ==> At(b.mem, root, i) == At(a.mem, root, i)
  {
  }

  lemma TableStays(a: View, b: View, t: nat, i: nat)
    requires Grown(a, b) && IsTable(a.shape, t, 3)
    ensures IsTable(b.shape, t, 3)
    ensures At(a.mem, t, i).present && At(a.mem, t, i).user ==> At(b.mem, t, i).present && At(b.mem, t, i).user
    ensures forall u :: u in a.shape.level && u in a.shape.up ==> u in b.shape.up && b.shape.up[u] == a.shape.up[u]
  {
  }

  /** The last two links of a path that was just made. */
  lemma PathLinks(c: View, d: View, k: nat, root: nat, p: Page, pdpt: nat, pd: nat, pt: nat)
    requires Sound(c, k) && Sound(d, k) && IsTable(c.shape, pdpt, 3) && IsTable(d.shape, root, 4)
      && IsTable(d.shape, pdpt, 3)
    requires At(d.mem, root, p.i4).present && At(d.mem, root, p.i4).frame == pdpt
    requires At(c.mem, pdpt, p.i3).present && At(c.mem, pdpt, p.i3).frame == pd
    requires At(d.mem, pdpt, p.i3).present && At(d.mem, pdpt, p.i3).user
    requires forall u :: u in c.shape.level && u in c.shape.up ==> u in d.shape.up && d.shape.up[u] == c.shape.up[u]
    requires MadeTable(c, d, pd, p.i2, pt)
    ensures IsTable(d.shape, pt, 1) && SlotOf(d.mem, root, p) == Slot(pt, p.i1) && UserPath(d.mem, d.shape, pt)
    ensures Top(d.shape, pd) == pdpt && Top(c.shape, pd) == pdpt
  {
    assert EntryOk(c.mem, c.shape, pdpt, p.i3) && EntryOk(d.mem, d.shape, pdpt, p.i3)
      && EntryOk(d.mem, d.shape, pd, p.i2);
    assert LinkOk(d.mem, d.shape, pd) && LinkOk(d.mem, d.shape, pt);
  }

  /** The link to table c was there already; it only got the user bit. */
  ghost predicate Relinked(a: View, b: View, t: nat, i: nat, c: nat) {
    && c == At(a.mem, t, i).frame && b.shape == a.shape && b.free == a.free
    && forall u, j :: (u != t || j != i) ==> At(b.mem, u, j) == At(a.mem, u, j)
  }

  lemma NotRoot(a: View, k: nat, t: nat, i: nat)
    requires Sound(a, k) && t in a.shape.level && i < ENTRIES && At(a.mem, t, i).present && a.shape.level[t] >= 2
      && !At(a.mem, t, i).huge
    ensures At(a.mem, t, i).frame != 0
    ensures forall b: View ::
      (b.mem == Store(a.mem, t, i, At(a.mem, t, i).(user := true)) && b.shape == a.shape && b.free == a.free) ==>
      Relinked(a, b, t, i, At(a.mem, t, i).frame)
  {
    assert EntryOk(a.mem, a.shape, t, i);
  }

  // ---------------------------------------------------------------------------
  // The frames it takes to build a path

  /** Entry i of table t leads to table c: only its user bit was set, or c was
      taken from the free frames, filled and linked. */
  ghost predicate Linked(a: View, b: View, t: nat, i: nat, c: nat) {
    && t < |a.mem| && i < |a.mem[t]|
    && var e := At(a.mem, t, i);
       if e.present && !e.huge then
         c == e.frame && b.mem == Store(a.mem, t, i, e.(user := true)) && b.free == a.free
       else
         && c in a.free && c < |a.mem| && c != t && b.free == a.free - {c}
         && b.mem == Hang(a.mem, t, i, c, if e.present then SplitRow(e) else Zeros())
  }

  lemma RootKept(a: View, b: View, root: nat)
    requires Grown(a, b) && IsTable(a.shape, root, 4)
    ensures IsTable(b.shape, root, 4)
  {
  }

  lemma GrownOn(a: View, b: View, c: View, k: nat)
    requires Sound(a, k) && Sound(b, k) && Grown(a, b) && Grown(b, c)
    ensures Grown(a, c)
  {
    GrownTransitive(a, b, c, k);
  }

  lemma NewLinked(a: View, b: View, k: nat, t: nat, i: nat, c: nat, row: seq<Entry>)
    requires Sound(a, k) && t in a.shape.level && i < ENTRIES && c in a.free && c < |a.mem| && b.free == a.free - {c}
    requires var e := At(a.mem, t, i); if e.present then e.huge && row == SplitRow(e) else row == Zeros()
    requires b.mem == Hang(a.mem, t, i, c, row)
    ensures Linked(a, b, t, i, c)
  {
    hide SplitRow, Zeros, Hang;
  }

  lemma OldLinked(a: View, b: View, k: nat, t: nat, i: nat)
    requires Sound(a, k) && t in a.shape.level && i < ENTRIES && At(a.mem, t, i).present && !At(a.mem, t, i).huge
    requires b.mem == Store(a.mem, t, i, At(a.mem, t, i).(user := true)) && b.free == a.free
    ensures Linked(a, b, t, i, At(a.mem, t, i).frame)
  {
    hide Store;
  }

  lemma StoreAgain(m: Mem, t: nat, i: nat)
    requires t < |m| && i < |m[t]| && At(m, t, i).user
    ensures Store(m, t, i, At(m, t, i).(user := true)) == m
  {
    assert m[t][i := m[t][i]] == m[t];
  }

  /** The path to page p was built down to depth d, one frame for each table added. */
  ghost predicate Built(a: View, b: View, root: nat, p: Page, d: nat) {
    && Deeper(a.mem, b.mem, root, p, d) && Depth(b.mem, root, p) >= d
    && SlotsStay(a.mem, b.mem, a.shape)
    && |b.free| + Max(d, Depth(a.mem, root, p)) == |a.free| + Depth(a.mem, root, p)
  }

  lemma BuiltStart(a: View, root: nat, p: Page)
    ensures Built(a, a, root, p, 0) && TableOn(a.mem, root, p, 0) == root && IndexOn(p, 0) == p.i4
  {
  }

  lemma BuiltNext(a: View, b: View, c: View, k: nat, root: nat, p: Page, d: nat, t: nat)
    requires Sound(b, k) && Grown(a, b) && IsTable(a.shape, root, 4) && d <= 2
    requires Built(a, b, root, p, d) && Linked(b, c, TableOn(b.mem, root, p, d), IndexOn(p, d), t)
    ensures Built(a, c, root, p, d + 1) && (d < 2 ==> TableOn(c.mem, root, p, d + 1) == t)
  {
    hide Deeper, SlotsStay, Depth, Linked, Hang, Store, Grown, Sound, At, TableOn, IndexOn;
    RootKept(a, b, root);
    StepTable(b, k, root, p, d);
    StepTaken(b, c, k, root, p, d, t);
    SlotsTwice(a, b, c);
    DepthNow(a.mem, b.mem, root, p, d);
    if Depth(b.mem, root, p) == d {
      DeeperNext(a.mem, b.mem, c.mem, root, p, d);
    } else {
      DeeperAlready(a.mem, b.mem, c.mem, root, p, d);
    }
  }

  lemma DepthNow(m: Mem, m': Mem, root: nat, p: Page, d: nat)
    requires Deeper(m, m', root, p, d) && d <= 3
    ensures Depth(m', root, p) == Max(Depth(m, root, p), d)
  {
    assert Common(p, p) == 3;
  }

  lemma DeeperAlready(m: Mem, m1: Mem, m2: Mem, root: nat, p: Page, d: nat)
    requires Deeper(m, m1, root, p, d) && Depth(m1, root, p) > d
    requires forall q :: Depth(m2, root, q) == Depth(m1, root, q)
    ensures Deeper(m, m2, root, p, d + 1)
  {
    hide Depth;
    forall q
      ensures Depth(m2, root, q) == Max(Depth(m, root, q), Min(d + 1, Common(p, q)))
    {
      SharedDepth(m, root, p, q);
      SharedDepth(m1, root, p, q);
    }
  }

  lemma SlotsTwice(a: View, b: View, c: View)
    requires SlotsStay(a.mem, b.mem, a.shape) && SlotsStay(b.mem, c.mem, b.shape) && Grown(a, b)
    ensures SlotsStay(a.mem, c.mem, a.shape)
  {
    forall r, q | IsTable(a.shape, r, 4) && SlotOf(a.mem, r, q).Slot?
      ensures SlotOf(c.mem, r, q) == SlotOf(a.mem, r, q)
    {
      assert IsTable(b.shape, r, 4);
    }
  }

  lemma StepTable(b: View, k: nat, root: nat, p: Page, d: nat)
    requires Sound(b, k) && IsTable(b.shape, root, 4) && d <= 2 && Depth(b.mem, root, p) >= d
    ensures var t := TableOn(b.mem, root, p, d); var e := At(b.mem, t, IndexOn(p, d));
      && IsTable(b.shape, t, 4 - d) && (d < 2 ==> !(e.present && e.huge))
      && (Depth(b.mem, root, p) > d <==> e.present && !e.huge)
  {
    WalkFacts(b.mem, b.shape, k, root, p);
    assert EntryOk(b.mem, b.shape, root, p.i4);
  }

  lemma StepTaken(b: View, c: View, k: nat, root: nat, p: Page, d: nat, t: nat)
    requires Sound(b, k) && IsTable(b.shape, root, 4) && d <= 2 && Depth(b.mem, root, p) >= d
    requires Linked(b, c, TableOn(b.mem, root, p, d), IndexOn(p, d), t)
    ensures SlotsStay(b.mem, c.mem, b.shape) && Depth(c.mem, root, p) >= d + 1
    ensures d < 2 ==> TableOn(c.mem, root, p, d + 1) == t
    ensures Depth(b.mem, root, p) == d ==>
      |c.free| == |b.free| - 1 && forall q ::
        Depth(c.mem, root, q) == if Common(p, q) > d then d + 1 else Depth(b.mem, root, q)
    ensures Depth(b.mem, root, p) > d ==>
      c.free == b.free && forall q :: Depth(c.mem, root, q) == Depth(b.mem, root, q)
  {
    hide SlotsStay, Depth, Extended, WellFormed, Hang, Store;
    StepTable(b, k, root, p, d);
    var u, i := TableOn(b.mem, root, p, d), IndexOn(p, d);
    LinkedOn(b, c, k, root, p, d, t);
    var e := At(b.mem, u, i);
    if e.present && !e.huge {
      SetUserDepth(b.mem, b.shape, k, u, i);
    } else {
      var row := if e.present then SplitRow(e) else Zeros();
      HangSlots(b.mem, b.shape, k, u, i, t, row);
      forall q
        ensures Depth(c.mem, root, q) == if Common(p, q) > d then d + 1 else Depth(b.mem, root, q)
      {
        HangDepth(b.mem, b.shape, k, root, p, d, t, row, q);
      }
      assert Common(p, p) == 3;
    }
  }

  /** The new link is on the path. */
  lemma LinkedOn(b: View, c: View, k: nat, root: nat, p: Page, d: nat, t: nat)
    requires Sound(b, k) && IsTable(b.shape, root, 4) && d <= 2 && Depth(b.mem, root, p) >= d
    requires IsTable(b.shape, TableOn(b.mem, root, p, d), 4 - d)
    requires Linked(b, c, TableOn(b.mem, root, p, d), IndexOn(p, d), t)
    ensures d < 2 ==> TableOn(c.mem, root, p, d + 1) == t
  {
    WalkFacts(b.mem, b.shape, k, root, p);
    assert EntryOk(b.mem, b.shape, root, p.i4);
  }

  /** When the next table cannot be had, too few frames were free. */
  lemma BuiltStops(a: View, b: View, k: nat, root: nat, p: Page, d: nat)
    requires Sound(b, k) && Grown(a, b) && IsTable(a.shape, root, 4) && d <= 2 && Built(a, b, root, p, d)
      && b.free == {}
    requires var e := At(b.mem, TableOn(b.mem, root, p, d), IndexOn(p, d)); !e.present || e.huge
    ensures Missing(a.mem, root, p) > |a.free| && SlotsStay(a.mem, b.mem, a.shape)
  {
    hide Grown, Sound;
    RootKept(a, b, root);
    StepTable(b, k, root, p, d);
    assert Common(p, p) == 3;
  }

  lemma BuiltEnds(a: View, b: View, root: nat, p: Page)
    requires Built(a, b, root, p, 3)
    ensures Missing(a.mem, root, p) <= |a.free| && |b.free| == |a.free| - Missing(a.mem, root, p)
      && SlotsStay(a.mem, b.mem, a.shape)
  {
  }

  /** What the entries on the way to a page say about the way. */
  lemma PathKnown(a: View, k: nat, root: nat, p: Page)
    requires Sound(a, k) && IsTable(a.shape, root, 4)
    ensures PdEntry(a.mem, root, p).present ==>
      && At(a.mem, root, p.i4).present && At(a.mem, At(a.mem, root, p.i4).frame, p.i3).present
    ensures SlotOf(a.mem, root, p).Slot? ==> PdEntry(a.mem, root, p).present && !PdEntry(a.mem, root, p).huge
  {
  }

  lemma HalfRelinked(a: View, b: View, k: nat, root: nat, p: Page, pdpt: nat)
    requires Sound(a, k) && IsTable(a.shape, root, 4)
    requires At(a.mem, root, p.i4).present ==> Relinked(a, b, root, p.i4, pdpt)
    ensures PdEntry(a.mem, root, p).present ==> At(b.mem, pdpt, p.i3).present
  {
    WalkFacts(a.mem, a.shape, k, root, p);
  }

  lemma PathRelinked(a: View, b: View, c: View, k: nat, root: nat, p: Page, pdpt: nat, pd: nat)
    requires Sound(a, k) && IsTable(a.shape, root, 4)
    requires At(a.mem, root, p.i4).present ==> Relinked(a, b, root, p.i4, pdpt)
    requires At(b.mem, pdpt, p.i3).present ==> Relinked(b, c, pdpt, p.i3, pd)
    ensures PdEntry(a.mem, root, p).present ==>
      c.shape == a.shape && c.free == a.free && At(c.mem, pd, p.i2) == PdEntry(a.mem, root, p)
  {
    WalkFacts(a.mem, a.shape, k, root, p);
  }

  /** Paths that stopped half way for lack of memory are harmless. */
  lemma PathBroken(a: View, b: View, c: View, k: nat, root: nat, p: Page, pdpt: nat, pd: nat)
    requires Sound(a, k) && Sound(b, k) && Sound(c, k)
    requires Grown(a, b) && Grown(b, c)
    requires IsTable(a.shape, root, 4)
    requires MadeTable(a, b, root, p.i4, pdpt)
    requires b == c || MadeTable(b, c, pdpt, p.i3, pd)
    ensures Grown(a, c) && At(c.mem, root, p.i4).present && NewUnder(a.shape, c.shape, At(c.mem, root, p.i4).frame)
  {
    hide Walk, SameWalks, NewLinkOnce, Fits;
    assert EntryOk(b.mem, b.shape, root, p.i4);
    assert At(c.mem, root, p.i4) == At(b.mem, root, p.i4);
    GrownTransitive(a, b, c, k);
    if b != c {
      assert IsTable(b.shape, pdpt, 3);
      NewUnderTransitive(a, b, c, k, pdpt);
    }
  }

  // ---------------------------------------------------------------------------
  // Writing the entry at the end of a path

  ghost predicate LeafWritten(b: View, d: View, pt: nat, i: nat, e: Entry) {
    && pt < |b.mem| && i < |b.mem[pt]|
    && d.mem == Store(b.mem, pt, i, e) && d.shape == b.shape && d.free == b.free
    && Fits(d.mem, d.bytes) && |d.bytes| == |b.bytes|
    && (forall f :: 0 <= f < |b.bytes| && f != pt ==> d.bytes[f] == b.bytes[f])
  }

  /** Page p of `root` lies in a branch that a tracked space owns or will own. */
  ghost predicate Tracked(a: View, k: nat, spaces: set<nat>, root: nat, p: Page) {
    root in spaces && !(At(a.mem, root, p.i4).present && At(a.mem, root, p.i4) == At(a.mem, k, p.i4))
  }

  /** What a tracked space may be given: a kernel page, or a fresh frame. */
  ghost predicate MayMap(a: View, k: nat, spaces: set<nat>, root: nat, p: Page, e: Entry) {
    || !(e.present && e.user)
    || !Tracked(a, k, spaces, root, p)
    || FreshPage(a.mem, a.shape, k, spaces, a.free, e.frame)
  }

  /** The entry at the end of a path is no part of any path. */
  lemma LeafBuilt(a: View, path: View, d: View, k: nat, root: nat, p: Page, pt: nat, e: Entry)
    requires Sound(path, k) && Grown(a, path) && IsTable(a.shape, root, 4) && IsTable(path.shape, pt, 1)
    requires Built(a, path, root, p, 3) && LeafWritten(path, d, pt, p.i1, e)
    ensures Built(a, d, root, p, 3) && SlotsStay(a.mem, d.mem, a.shape)
  {
    hide Grown, SlotsStay, Depth, WellFormed, Fits;
    RootKept(a, path, root);
    SetLeafDepth(path.mem, path.shape, k, pt, p.i1, e);
    SlotsTwice(a, path, d);
  }

  lemma PdTop(m: Mem, root: nat, p: Page)
    requires PdEntry(m, root, p).present
    ensures At(m, root, p.i4).present
  {
  }

  lemma SplitMissing(m: Mem, root: nat, p: Page)
    ensures PdEntry(m, root, p).present ==> Missing(m, root, p) == if PdEntry(m, root, p).huge then 1 else 0
  {
  }

  lemma SlotsSame(m: Mem, sh: Shape)
    ensures SlotsStay(m, m, sh)
  {
  }

  lemma NothingToUnmap(m: Mem, sh: Shape, root: nat, p: Page)
    requires !PdEntry(m, root, p).present
    ensures Walk(m, root, p) == Unmapped && Remapped(m, m, sh, root, p, Unmapped)
  {
  }

  lemma PathFits(a: View, b: View, k: nat, root: nat, p: Page, pt: nat)
    requires Sound(b, k) && Grown(a, b) && (pt != 0 ==> MadePath(a, b, root, p, pt))
    ensures SameWalks(a.mem, b.mem, a.shape)
    ensures Fits(b.mem, b.bytes)
    ensures pt != 0 ==> pt < |b.mem| && |b.mem[pt]| == ENTRIES
  {
  }

  lemma PathSpaces(a: View, b: View, k: nat, root: nat, p: Page, spaces: set<nat>)
    requires Sound(a, k) && Sound(b, k) && Grown(a, b) && IsTable(a.shape, root, 4)
    requires PathOrNothing(a, b, root, p)
    requires SpacesOk(a.mem, a.shape, k, spaces, a.free)
    ensures SpacesOk(b.mem, b.shape, k, spaces, b.free)
  {
    if a != b {
      ExtendSpaces(a.mem, a.shape, b.mem, b.shape, k, root, p.i4, spaces, a.free, b.free);
    }
  }

  lemma FreshStays(a: View, b: View, k: nat, root: nat, p: Page, spaces: set<nat>, f: nat)
    requires Sound(a, k) && Sound(b, k) && Grown(a, b) && IsTable(a.shape, root, 4)
    requires At(b.mem, root, p.i4).present && NewUnder(a.shape, b.shape, At(b.mem, root, p.i4).frame)
    requires SpacesOk(a.mem, a.shape, k, spaces, a.free)
    requires FreshPage(a.mem, a.shape, k, spaces, a.free, f)
    ensures FreshPage(b.mem, b.shape, k, spaces, b.free, f)
  {
    forall r, t, i | r in spaces && OwnedSlot(b.mem, b.shape, k, r, t, i)
      ensures At(b.mem, t, i).frame != f
    {
      ExtendOwned(a.mem, a.shape, b.mem, b.shape, k, root, p.i4, r);
      assert OwnedSlot(a.mem, a.shape, k, r, t, i);
      assert At(b.mem, t, i) == At(a.mem, t, i);
    }
  }

  lemma UntrackedBelow(a: View, b: View, k: nat, root: nat, p: Page, pt: nat, spaces: set<nat>, r: nat)
    requires Sound(a, k) && Sound(b, k) && Grown(a, b) && IsTable(a.shape, root, 4)
    requires MadePath(a, b, root, p, pt) && !Tracked(a, k, spaces, root, p)
    requires r in spaces && r != k && IsTable(a.shape, r, 4)
    ensures !Below(b.mem, b.shape, k, r, pt)
  {
    WalkFacts(b.mem, b.shape, k, root, p);
    assert Top(b.shape, pt) == At(b.mem, root, p.i4).frame;
    assert IsTable(b.shape, r, 4) && IsTable(b.shape, root, 4);
    assert EntryOk(b.mem, b.shape, r, p.i4) && EntryOk(b.mem, b.shape, k, p.i4);
    if r != root {
      assert ShareOk(b.mem, b.shape, k, r, root, p.i4);
    }
  }

  lemma LeafDone(a: View, b: View, d: View, k: nat, root: nat, p: Page, pt: nat, e: Entry, spaces: set<nat>)
    requires Sound(a, k) && Sound(b, k) && Grown(a, b) && IsTable(a.shape, root, 4)
    requires MadePath(a, b, root, p, pt) && LeafWritten(b, d, pt, p.i1, e)
    ensures Sound(d, k)
    ensures Remapped(a.mem, d.mem, a.shape, root, p, EntryMapping(e))
    ensures Walk(d.mem, root, p) == EntryMapping(e)
    ensures SpacesOk(a.mem, a.shape, k, spaces, a.free) && MayMap(a, k, spaces, root, p, e) ==>
      SpacesOk(d.mem, d.shape, k, spaces, d.free)
  {
    hide Extended, Remapped, SpacesOk, Grown, Walk, SlotOf, UserPath, Below;
    LeafWalks(a, b, d, k, root, p, pt, e);
    MadeSomething(a, b, root, p, pt);
    if SpacesOk(a.mem, a.shape, k, spaces, a.free) && MayMap(a, k, spaces, root, p, e) {
      PathSpaces(a, b, k, root, p, spaces);
      if e.present && e.user {
        if Tracked(a, k, spaces, root, p) {
          FreshStays(a, b, k, root, p, spaces, e.frame);
        } else {
          forall r | r in spaces
            ensures !Below(b.mem, b.shape, k, r, pt)
          {
            SpaceRoot(a, b, k, spaces, r);
            UntrackedBelow(a, b, k, root, p, pt, spaces, r);
          }
        }
      }
      LeafSpaces(b.mem, b.shape, k, pt, p.i1, e, spaces, b.free);
    }
  }

  lemma LeafWalks(a: View, b: View, d: View, k: nat, root: nat, p: Page, pt: nat, e: Entry)
    requires Sound(b, k) && Grown(a, b) && IsTable(a.shape, root, 4)
    requires MadePath(a, b, root, p, pt) && LeafWritten(b, d, pt, p.i1, e)
    ensures Sound(d, k)
    ensures Remapped(a.mem, d.mem, a.shape, root, p, EntryMapping(e))
    ensures Walk(d.mem, root, p) == EntryMapping(e)
  {
    hide WellFormed, Walk, SlotOf, UserPath, NewUnder, UserAt, NewLinkOnce;
    RootKept(a, b, root);
    LeafRemaps(b.mem, b.shape, k, root, p, pt, e);
    forall r, q | IsTable(a.shape, r, 4)
      ensures Walk(d.mem, r, q) == if q == p && SameBranch(d.mem, r, root, p.i4) then EntryMapping(e)
        else Walk(a.mem, r, q)
    {
      assert IsTable(b.shape, r, 4);
    }
  }

  /** Frame f is allocated, no table, and mapped by no tracked space. */
  ghost predicate Unused(v: View, k: nat, spaces: set<nat>, f: nat) {
    FreshPage(v.mem, v.shape, k, spaces, v.free, f)
  }

  /** Unused frames stay unused, except x. */
  ghost predicate KeepsUnused(a: View, b: View, k: nat, spaces: set<nat>, x: nat) {
    forall f :: f != x && Unused(a, k, spaces, f) ==> Unused(b, k, spaces, f)
  }

  lemma PathKeepsUnused(a: View, b: View, k: nat, root: nat, p: Page, spaces: set<nat>)
    requires Sound(a, k) && Sound(b, k) && Grown(a, b) && IsTable(a.shape, root, 4) && PathOrNothing(a, b, root, p)
    requires SpacesOk(a.mem, a.shape, k, spaces, a.free)
    ensures forall x :: KeepsUnused(a, b, k, spaces, x)
  {
    forall f | Unused(a, k, spaces, f)
      ensures Unused(b, k, spaces, f)
    {
      if a != b {
        FreshStays(a, b, k, root, p, spaces, f);
      }
    }
  }

  lemma LeafKeepsUnused(a: View, b: View, d: View, k: nat, root: nat, p: Page, pt: nat, e: Entry, spaces: set<nat>)
    requires Sound(a, k) && Sound(b, k) && Grown(a, b) && IsTable(a.shape, root, 4)
    requires MadePath(a, b, root, p, pt) && LeafWritten(b, d, pt, p.i1, e)
    requires SpacesOk(a.mem, a.shape, k, spaces, a.free)
    ensures KeepsUnused(a, d, k, spaces, if e.present && e.user then e.frame else 0)
  {
    var x := if e.present && e.user then e.frame else 0;
    forall f | f != x && Unused(a, k, spaces, f)
      ensures Unused(d, k, spaces, f)
    {
      FreshStays(a, b, k, root, p, spaces, f);
      LeafUnused(b, d, k, pt, p.i1, e, spaces, f);
    }
  }

  lemma LeafUnused(b: View, d: View, k: nat, pt: nat, i: nat, e: Entry, spaces: set<nat>, f: nat)
    requires Sound(b, k) && IsTable(b.shape, pt, 1) && i < ENTRIES && LeafWritten(b, d, pt, i, e)
    requires Unused(b, k, spaces, f) && !(e.present && e.user && e.frame == f)
    requires forall r :: r in spaces ==> IsTable(b.shape, r, 4)
    ensures Unused(d, k, spaces, f)
  {
    forall r, t, j | r in spaces && OwnedSlot(d.mem, d.shape, k, r, t, j)
      ensures At(d.mem, t, j).frame != f
    {
      LeafSlots(b.mem, b.shape, k, pt, i, e, r);
    }
  }

  /** Top-level entries in use stay, and new ones point at new tables. */
  ghost predicate TopsStay(a: View, b: View) {
    && (forall r, i :: IsTable(a.shape, r, 4) && At(a.mem, r, i).present ==> At(b.mem, r, i) == At(a.mem, r, i))
    && (forall r, i :: IsTable(a.shape, r, 4) && !At(a.mem, r, i).present && At(b.mem, r, i).present ==>
      At(b.mem, r, i).frame !in a.shape.level)
  }

  lemma TopsKept(a: View, b: View, k: nat)
    requires Grown(a, b)
    ensures TopsStay(a, b)
  {
  }

  lemma PathIsTable(a: View, b: View, root: nat, p: Page, pt: nat)
    requires MadePath(a, b, root, p, pt)
    ensures IsTable(b.shape, pt, 1)
  {
  }

  lemma LeafTops(a: View, b: View, d: View, k: nat, pt: nat, i: nat, e: Entry)
    requires Grown(a, b) && Sound(b, k) && IsTable(b.shape, pt, 1) && LeafWritten(b, d, pt, i, e)
    ensures TopsStay(a, d)
  {
    forall r, j | IsTable(a.shape, r, 4)
      ensures At(d.mem, r, j) == At(b.mem, r, j)
    {
      assert b.shape.level[r] == 4;
    }
  }

  /** Every frame that left the free set became a table; nothing stopped being one. */
  ghost predicate Spent(a: View, b: View) {
    && (forall t, l :: IsTable(a.shape, t, l) ==> IsTable(b.shape, t, l))
    && Added(a.shape, b.shape) <= a.free && b.free == a.free - Added(a.shape, b.shape)
  }

  lemma SpentNothing(a: View, k: nat, spaces: set<nat>)
    ensures Spent(a, a) && KeepsUnused(a, a, k, spaces, 0) && TopsStay(a, a)
  {
  }

  lemma GrownSpent(a: View, b: View, d: View, k: nat)
    requires Grown(a, b) && d.shape == b.shape && d.free == b.free
    ensures Spent(a, d)
  {
  }

  /** Writing the last entry leaves the path to it. */
  lemma PathStays(a: View, b: View, d: View, k: nat, root: nat, p: Page, pt: nat)
    requires Sound(b, k) && IsTable(a.shape, root, 4) && Grown(a, b) && MadePath(a, b, root, p, pt)
    requires pt < |b.mem| && d.mem == Store(b.mem, pt, p.i1, ABSENT)
    ensures SlotOf(d.mem, root, p).Slot?
  {
    assert IsTable(b.shape, root, 4);
    WalkFacts(b.mem, b.shape, k, root, p);
  }

  lemma FrameAddress(c: nat)
    ensures c * PAGE / PAGE == c
  {
  }

  lemma RootAddress(c: nat)
    requires c < P.MAX_FRAMES
    ensures FrameOf(c * PAGE) == c
  {
  }

  /** Everything a space owns is allocated. */
  lemma OwnedIsHeld(a: View, k: nat, r: nat, spaces: set<nat>)
    requires Sound(a, k) && SpacesOk(a.mem, a.shape, k, spaces, a.free) && r in spaces
    ensures Owner(a.mem, a.shape, k, r, spaces, a.free) && |a.mem| == P.MAX_FRAMES && r < P.MAX_FRAMES
    ensures Owned(a.mem, a.shape, k, r) !! a.free
    ensures PrivateFrames(a.mem, k, r, ENTRIES) + {r} == Owned(a.mem, a.shape, k, r)
    ensures r !in PrivateFrames(a.mem, k, r, ENTRIES)
  {
    ReleasedIsOwned(a.mem, a.shape, k, r);
    forall f | f in OwnedPages(a.mem, a.shape, k, r)
      ensures f !in a.free
    {
      var t, i: nat :| t in a.shape.level && i < ENTRIES && OwnedSlot(a.mem, a.shape, k, r, t, i)
        && At(a.mem, t, i).frame == f;
      assert PageOk(a.mem, a.shape, a.free, t, i);
    }
    if r in PrivateFrames(a.mem, k, r, ENTRIES) {
      var t := RootHome(a.mem, a.shape, k, r, ENTRIES, r);
      HomeUnique(a.mem, a.shape, k, r, spaces, a.free, t, r, r);
    }
  }

  // ---------------------------------------------------------------------------
  // What an operation leaves alone

  ghost predicate SameOwned(a: View, b: View, k: nat, spaces: set<nat>) {
    forall r :: r in spaces ==> Owned(b.mem, b.shape, k, r) == Owned(a.mem, a.shape, k, r)
  }

  /** Paths to level-1 tables, top-level entries in use and unused frames stay
      what they were; the spaces changed from `spaces` to `spaces'`. */
  ghost predicate Undisturbed(a: View, b: View, k: nat, spaces: set<nat>, spaces': set<nat>) {
    && SlotsStay(a.mem, b.mem, a.shape)
    && (forall r, i :: IsTable(a.shape, r, 4) && At(a.mem, r, i).present ==> At(b.mem, r, i) == At(a.mem, r, i))
    && (forall f :: Unused(a, k, spaces, f) ==> Unused(b, k, spaces', f))
    && TablesStay(a, b, k, spaces - spaces')
  }

  /** Tables stay tables, except those that the spaces `gone` owned. */
  ghost predicate TablesStay(a: View, b: View, k: nat, gone: set<nat>) {
    forall t :: t in a.shape.level && (forall r :: r in gone ==> t !in Owned(a.mem, a.shape, k, r)) ==>
      t in b.shape.level
  }

  lemma GrownStays(a: View, b: View, k: nat)
    requires forall t :: t in a.shape.level ==> t in b.shape.level
    ensures forall gone :: TablesStay(a, b, k, gone)
  {
  }

  lemma MappedStays(a: View, path: View, d: View, k: nat, ok: bool, pt: nat, i: nat, e: Entry)
    requires Grown(a, path) && if ok then LeafWritten(path, d, pt, i, e) else d == path
    ensures forall t :: t in a.shape.level ==> t in d.shape.level
  {
  }

  /** The top-level entries are the same, in all spaces. */
  ghost predicate TopsFixed(a: View, b: View) {
    forall r, i :: IsTable(a.shape, r, 4) ==>
      (At(b.mem, r, i).present <==> At(a.mem, r, i).present)
        && (At(a.mem, r, i).present ==> At(b.mem, r, i) == At(a.mem, r, i))
  }

  /** A path below a top-level entry in use adds none. */
  lemma PathTops(a: View, b: View, k: nat, root: nat, p: Page)
    requires Sound(a, k) && Sound(b, k) && Grown(a, b) && IsTable(a.shape, root, 4) && PathOrNothing(a, b, root, p)
    requires At(a.mem, root, p.i4).present
    ensures TopsFixed(a, b)
  {
    forall r, i: nat | IsTable(a.shape, r, 4) && i < ENTRIES && At(b.mem, r, i).present && a != b
      ensures At(a.mem, r, i).present
    {
      assert EntryOk(b.mem, b.shape, r, i) && EntryOk(a.mem, a.shape, root, p.i4);
    }
    TableRows(a, b, k);
  }

  lemma TableRows(a: View, b: View, k: nat)
    requires Sound(a, k) && Sound(b, k)
    ensures forall r, i :: IsTable(a.shape, r, 4) && i >= ENTRIES ==>
      && !At(a.mem, r, i).present && !At(b.mem, r, i).present
  {
  }

  lemma LeafTopsFixed(a: View, b: View, d: View, k: nat, pt: nat, i: nat, e: Entry)
    requires TopsFixed(a, b) && Grown(a, b) && Sound(b, k) && IsTable(b.shape, pt, 1) && LeafWritten(b, d, pt, i, e)
    ensures TopsFixed(a, d)
  {
    forall r, j | IsTable(a.shape, r, 4)
      ensures At(d.mem, r, j) == At(b.mem, r, j)
    {
      assert b.shape.level[r] == 4;
    }
  }

  lemma NotDisturbed(a: View, k: nat, spaces: set<nat>)
    ensures Undisturbed(a, a, k, spaces, spaces) && SameOwned(a, a, k, spaces) && TopsFixed(a, a)
  {
  }

  /** Building a path in a branch that the tracked spaces share changes nobody's frames. */
  lemma PathUntracked(a: View, b: View, k: nat, root: nat, p: Page, spaces: set<nat>)
    requires Sound(a, k) && Sound(b, k) && Grown(a, b) && IsTable(a.shape, root, 4) && PathOrNothing(a, b, root, p)
    requires SpacesOk(a.mem, a.shape, k, spaces, a.free) && !Tracked(a, k, spaces, root, p)
    ensures SameOwned(a, b, k, spaces)
  {
    if a != b {
      forall r | r in spaces
        ensures Owned(b.mem, b.shape, k, r) == Owned(a.mem, a.shape, k, r)
      {
        ExtendOwned(a.mem, a.shape, b.mem, b.shape, k, root, p.i4, r);
      }
    }
  }

  lemma LeafUntracked(a: View, b: View, d: View, k: nat, root: nat, p: Page, pt: nat, e: Entry, spaces: set<nat>)
    requires Sound(a, k) && Sound(b, k) && Grown(a, b) && IsTable(a.shape, root, 4)
    requires MadePath(a, b, root, p, pt) && LeafWritten(b, d, pt, p.i1, e)
    requires SpacesOk(a.mem, a.shape, k, spaces, a.free) && !Tracked(a, k, spaces, root, p)
    ensures SameOwned(a, d, k, spaces)
  {
    hide Owned, Grown, Sound, WellFormed, LeafWritten, SpacesOk;
    MadeSomething(a, b, root, p, pt);
    PathUntracked(a, b, k, root, p, spaces);
    forall r | r in spaces
      ensures Owned(d.mem, d.shape, k, r) == Owned(a.mem, a.shape, k, r)
    {
      SpaceRoot(a, b, k, spaces, r);
      UntrackedBelow(a, b, k, root, p, pt, spaces, r);
      LeafElsewhere(b, d, k, pt, p.i1, e, r);
    }
  }

  lemma MadeSomething(a: View, b: View, root: nat, p: Page, pt: nat)
    requires MadePath(a, b, root, p, pt)
    ensures PathOrNothing(a, b, root, p) && IsTable(b.shape, pt, 1)
  {
  }

  lemma SpaceRoot(a: View, b: View, k: nat, spaces: set<nat>, r: nat)
    requires SpacesOk(a.mem, a.shape, k, spaces, a.free) && r in spaces && Grown(a, b)
    ensures r != k && IsTable(a.shape, r, 4) && IsTable(b.shape, r, 4)
  {
  }

  lemma LeafElsewhere(b: View, d: View, k: nat, pt: nat, i: nat, e: Entry, r: nat)
    requires Sound(b, k) && IsTable(b.shape, pt, 1) && i < ENTRIES && IsTable(b.shape, r, 4)
    requires LeafWritten(b, d, pt, i, e) && !Below(b.mem, b.shape, k, r, pt)
    ensures Owned(d.mem, d.shape, k, r) == Owned(b.mem, b.shape, k, r)
  {
    LeafSlots(b.mem, b.shape, k, pt, i, e, r);
    assert forall t, j :: OwnedSlot(b.mem, b.shape, k, r, t, j) ==> At(d.mem, t, j) == At(b.mem, t, j);
  }

  /** Space r is gone: its frames, all of them held before, are free and are no
      tables any more; memory is untouched and the other spaces own what they did. */
  ghost predicate TornDown(a: View, b: View, k: nat, r: nat, others: set<nat>) {
    && b.mem == a.mem && b.bytes == a.bytes
    && b.free == a.free + Owned(a.mem, a.shape, k, r) && Owned(a.mem, a.shape, k, r) !! a.free
    && b.shape == Without(a.shape, OwnedTables(a.mem, a.shape, k, r))
    && (forall s :: s in others ==> Owned(b.mem, b.shape, k, s) == Owned(a.mem, a.shape, k, s))
    && Undisturbed(a, b, k, others + {r}, others)
  }

  lemma DropUndisturbed(a: View, b: View, k: nat, r: nat, others: set<nat>)
    requires Sound(a, k) && SpacesOk(a.mem, a.shape, k, others + {r}, a.free) && r !in others
    requires b.mem == a.mem && b.free == a.free + Owned(a.mem, a.shape, k, r)
    requires b.shape == Without(a.shape, OwnedTables(a.mem, a.shape, k, r))
    ensures Undisturbed(a, b, k, others + {r}, others)
  {
    forall s, t, i | s in others && OwnedSlot(b.mem, b.shape, k, s, t, i)
      ensures OwnedSlot(a.mem, a.shape, k, s, t, i)
    {
      DropOthers(a.mem, a.shape, k, r, s);
    }
    forall f | Unused(a, k, others + {r}, f)
      ensures Unused(b, k, others, f)
    {
    }
  }

  lemma Dropped(a: View, b: View, k: nat, r: nat, spaces: set<nat>)
    requires Sound(a, k) && SpacesOk(a.mem, a.shape, k, spaces, a.free) && r in spaces
    requires b.mem == a.mem && b.bytes == a.bytes && b.free == a.free + Owned(a.mem, a.shape, k, r)
    requires b.shape == Without(a.shape, OwnedTables(a.mem, a.shape, k, r))
    ensures Sound(b, k) && SpacesOk(b.mem, b.shape, k, spaces - {r}, b.free)
    ensures TornDown(a, b, k, r, spaces - {r})
  {
    OwnedIsHeld(a, k, r, spaces);
    DropKeeps(a.mem, a.shape, k, r);
    DropSpaces(a.mem, a.shape, k, r, spaces, a.free);
    forall s | s in spaces - {r}
      ensures Owned(b.mem, b.shape, k, s) == Owned(a.mem, a.shape, k, s)
    {
      DropOthers(a.mem, a.shape, k, r, s);
    }
    assert spaces - {r} + {r} == spaces;
    DropUndisturbed(a, b, k, r, spaces - {r});
    forall f | f in Owned(a.mem, a.shape, k, r)
      ensures f !in b.shape.level && f != 0
    {
      if f in OwnedPages(a.mem, a.shape, k, r) {
        var t, i: nat :| t in a.shape.level && i < ENTRIES && OwnedSlot(a.mem, a.shape, k, r, t, i)
          && At(a.mem, t, i).frame == f;
        assert PageOk(a.mem, a.shape, a.free, t, i);
      }
    }
  }

  // ---------------------------------------------------------------------------
  // Fresh user pages

  /** Writes that miss every table frame are invisible to the page tables. */
  lemma OffTables(a: View, b: View, k: nat, spaces: set<nat>)
    requires Sound(a, k) && Fits(b.mem, b.bytes) && b.shape == a.shape && b.free <= a.free
    requires forall t :: t in a.shape.level ==> b.mem[t] == a.mem[t]
    ensures Sound(b, k) && SameWalks(a.mem, b.mem, a.shape)
    ensures SpacesOk(a.mem, a.shape, k, spaces, a.free) ==> SpacesOk(b.mem, b.shape, k, spaces, b.free)
    ensures forall r :: IsTable(a.shape, r, 4) ==> Owned(b.mem, b.shape, k, r) == Owned(a.mem, a.shape, k, r)
    ensures forall t, i :: t in a.shape.level ==> At(b.mem, t, i) == At(a.mem, t, i)
  {
    assert forall t, i :: t in a.shape.level ==> At(b.mem, t, i) == At(a.mem, t, i);
    OffWellFormed(a, b, k);
    forall r, p | IsTable(a.shape, r, 4)
      ensures Walk(b.mem, r, p) == Walk(a.mem, r, p)
    {
      WalkFacts(a.mem, a.shape, k, r, p);
    }
    forall r, t, i | IsTable(a.shape, r, 4)
      ensures OwnedSlot(b.mem, b.shape, k, r, t, i) <==> OwnedSlot(a.mem, a.shape, k, r, t, i)
    {
    }
    forall r | IsTable(a.shape, r, 4)
      ensures Owned(b.mem, b.shape, k, r) == Owned(a.mem, a.shape, k, r)
    {
      OffOwned(a.mem, b.mem, a.shape, k, r);
    }
    if SpacesOk(a.mem, a.shape, k, spaces, a.free) {
      forall r, t, i | r in spaces && OwnedSlot(b.mem, b.shape, k, r, t, i)
        ensures PageOk(b.mem, b.shape, b.free, t, i)
      {
        assert OwnedSlot(a.mem, a.shape, k, r, t, i) && PageOk(a.mem, a.shape, a.free, t, i);
      }
      forall r, t, i, s, u, j | r in spaces && s in spaces && OwnedSlot(b.mem, b.shape, k, r, t, i)
        && OwnedSlot(b.mem, b.shape, k, s, u, j)
        ensures MappedOnce(b.mem, t, i, u, j)
      {
        assert OwnedSlot(a.mem, a.shape, k, r, t, i) && OwnedSlot(a.mem, a.shape, k, s, u, j)
          && MappedOnce(a.mem, t, i, u, j);
      }
    }
  }

  lemma OffOwned(m: Mem, m': Mem, sh: Shape, k: nat, r: nat)
    requires IsTable(sh, r, 4) && IsTable(sh, k, 4)
    requires forall t, i :: t in sh.level ==> At(m', t, i) == At(m, t, i)
    ensures Owned(m', sh, k, r) == Owned(m, sh, k, r)
  {
    assert forall t :: t in sh.level ==> (Below(m', sh, k, r, t) <==> Below(m, sh, k, r, t));
    assert forall t, i :: OwnedSlot(m', sh, k, r, t, i) <==> OwnedSlot(m, sh, k, r, t, i);
  }

  lemma OffWellFormed(a: View, b: View, k: nat)
    requires Sound(a, k) && Fits(b.mem, b.bytes) && b.shape == a.shape
    requires forall t, i :: t in a.shape.level ==> At(b.mem, t, i) == At(a.mem, t, i)
    ensures WellFormed(b.mem, b.shape, k)
  {
    forall t, i: nat | t in a.shape.level && i < ENTRIES
      ensures EntryOk(b.mem, b.shape, t, i)
    {
      assert EntryOk(a.mem, a.shape, t, i) && LinkOk(a.mem, a.shape, t);
      assert At(b.mem, t, i) == At(a.mem, t, i);
      if a.shape.level[t] == 1 {
        var (pd, i2) := a.shape.up[t];
        assert LinkOk(a.mem, a.shape, pd);
        var (pdpt, i3) := a.shape.up[pd];
        assert At(b.mem, pd, i2) == At(a.mem, pd, i2) && At(b.mem, pdpt, i3) == At(a.mem, pdpt, i3);
      }
    }
    forall t | t in a.shape.level
      ensures LinkOk(b.mem, b.shape, t)
    {
      assert LinkOk(a.mem, a.shape, t);
      if a.shape.level[t] <= 2 {
        var (u, i) := a.shape.up[t];
        assert At(b.mem, u, i) == At(a.mem, u, i);
      }
    }
    forall r, s, i: nat | IsTable(a.shape, r, 4) && IsTable(a.shape, s, 4) && r != s && i < ENTRIES
      ensures ShareOk(b.mem, b.shape, k, r, s, i)
    {
      assert ShareOk(a.mem, a.shape, k, r, s, i);
    }
  }

  /** Building a path for another root adds no top-level entry to the kernel. */
  lemma KernelTopStays(a: View, b: View, k: nat, root: nat, p: Page, i: nat)
    requires Sound(a, k) && Sound(b, k) && Grown(a, b) && IsTable(a.shape, root, 4) && root != k && i < ENTRIES
    requires At(b.mem, root, p.i4).present && NewUnder(a.shape, b.shape, At(b.mem, root, p.i4).frame)
    ensures At(b.mem, k, i).present <==> At(a.mem, k, i).present
  {
    assert EntryOk(b.mem, b.shape, k, i) && EntryOk(b.mem, b.shape, root, p.i4) && EntryOk(a.mem, a.shape, root, p.i4);
    assert IsTable(b.shape, root, 4) && IsTable(a.shape, k, 4);
    assert NewLinkOnce(a.mem, b.mem, root, p.i4, k, i);
    var f := At(b.mem, k, i).frame;
    assert f in b.shape.level && f !in a.shape.level ==> Top(b.shape, f) == At(b.mem, root, p.i4).frame;
  }

  lemma TrackedPrivate(a: View, b: View, k: nat, root: nat, p: Page, spaces: set<nat>)
    requires Sound(a, k) && Sound(b, k) && Grown(a, b) && IsTable(a.shape, root, 4) && root != k
    requires At(b.mem, root, p.i4).present && NewUnder(a.shape, b.shape, At(b.mem, root, p.i4).frame)
    requires Tracked(a, k, spaces, root, p)
    ensures Private(b.mem, k, root, p.i4)
  {
    KernelTopStays(a, b, k, root, p, p.i4);
    assert EntryOk(a.mem, a.shape, root, p.i4) && EntryOk(a.mem, a.shape, k, p.i4);
    assert At(a.mem, k, p.i4).present ==> At(b.mem, k, p.i4) == At(a.mem, k, p.i4);
    assert At(a.mem, root, p.i4).present ==> At(b.mem, root, p.i4) == At(a.mem, root, p.i4);
    assert !At(a.mem, root, p.i4).present ==> At(b.mem, root, p.i4).frame !in a.shape.level;
  }

  /** After building the path: who owns what. */
  lemma PathOwned(a: View, b: View, k: nat, root: nat, p: Page, spaces: set<nat>, r: nat)
    requires Sound(a, k) && Sound(b, k) && Grown(a, b) && IsTable(a.shape, root, 4)
    requires PathOrNothing(a, b, root, p)
    requires SpacesOk(a.mem, a.shape, k, spaces, a.free) && r in spaces
    ensures r != root ==> Owned(b.mem, b.shape, k, r) == Owned(a.mem, a.shape, k, r)
    ensures r == root && Tracked(a, k, spaces, root, p) ==>
      b.free + Owned(b.mem, b.shape, k, r) == a.free + Owned(a.mem, a.shape, k, r)
  {
    if a != b {
      ExtendOwned(a.mem, a.shape, b.mem, b.shape, k, root, p.i4, r);
      if r == root && Tracked(a, k, spaces, root, p) {
        TrackedPrivate(a, b, k, root, p, spaces);
        assert b.free + (Owned(a.mem, a.shape, k, r) + Added(a.shape, b.shape)) == a.free + Owned(a.mem, a.shape, k, r);
      }
    }
  }

  /** Frame accounting across an operation on space `root`: what the other
      spaces own is unchanged, and so are, together, the free frames and what
      `root` owns. */
  ghost predicate Conserved(a: View, b: View, k: nat, spaces: set<nat>, root: nat, tracked: bool) {
    && (forall r :: r in spaces && r != root ==> Owned(b.mem, b.shape, k, r) == Owned(a.mem, a.shape, k, r))
    && (tracked ==> b.free + Owned(b.mem, b.shape, k, root) == a.free + Owned(a.mem, a.shape, k, root))
  }

  /** The kernel uses the same top-level slots. */
  ghost predicate SameKernelTop(m: Mem, m': Mem, k: nat) {
    forall i :: 0 <= i < ENTRIES ==> (At(m', k, i).present <==> At(m, k, i).present)
  }

  /** A fresh user page: taken from a.free, not yet in b, mapped in d. */
  lemma MappedFresh(a: View, b: View, path: View, d: View, k: nat, spaces: set<nat>, root: nat, p: Page, pt: nat,
      e: Entry)
    requires Sound(a, k) && Sound(b, k) && Sound(path, k) && Sound(d, k)
    requires SpacesOk(b.mem, b.shape, k, spaces, b.free) && root in spaces
    requires Conserved(a, b, k, spaces, root, false) && Owned(b.mem, b.shape, k, root) == Owned(a.mem, a.shape, k, root)
    requires e.present && e.user && e.frame in a.free && b.free == a.free - {e.frame}
    requires Tracked(a, k, spaces, root, p) ==> Tracked(b, k, spaces, root, p)
    requires Grown(b, path) && MadePath(b, path, root, p, pt) && LeafWritten(path, d, pt, p.i1, e)
    requires Walk(b.mem, root, p) == Unmapped
    ensures Conserved(a, d, k, spaces, root, Tracked(a, k, spaces, root, p))
  {
    forall r | r in spaces
      ensures r != root ==> Owned(d.mem, d.shape, k, r) == Owned(a.mem, a.shape, k, r)
      ensures r == root && Tracked(a, k, spaces, root, p) ==>
        d.free + Owned(d.mem, d.shape, k, r) == a.free + Owned(a.mem, a.shape, k, r)
    {
      MappedOwned(b, path, d, k, spaces, root, p, pt, e, r);
      if r == root && Tracked(a, k, spaces, root, p) {
        PathOwned(b, path, k, root, p, spaces, root);
        MoveOne(a.free, b.free, path.free, e.frame, Owned(b.mem, b.shape, k, r), Owned(path.mem, path.shape, k, r));
      }
    }
  }

  lemma MoveOne(free: set<nat>, free1: set<nat>, free2: set<nat>, f: nat, own1: set<nat>, own2: set<nat>)
    requires f in free && free1 == free - {f} && free2 + own2 == free1 + own1
    ensures free2 + (own2 + {f}) == free + own1
  {
    assert free2 + (own2 + {f}) == (free2 + own2) + {f};
    assert free + own1 == (free1 + own1) + {f};
  }

  lemma NotMappedYet(b: View, path: View, k: nat, root: nat, p: Page, pt: nat)
    requires Sound(b, k) && Sound(path, k) && Grown(b, path) && MadePath(b, path, root, p, pt)
      && IsTable(b.shape, root, 4)
    requires Walk(b.mem, root, p) == Unmapped
    ensures !UserAt(path.mem, pt, p.i1) && IsTable(path.shape, pt, 1)
  {
    assert IsTable(path.shape, root, 4);
    assert Walk(path.mem, root, p) == Unmapped;
    LeafRights(path.mem, path.shape, k, root, p);
  }

  lemma MappedOwned(b: View, path: View, d: View, k: nat, spaces: set<nat>, root: nat, p: Page, pt: nat, e: Entry,
      r: nat)
    requires Sound(b, k) && Sound(path, k) && Grown(b, path) && MadePath(b, path, root, p, pt)
      && LeafWritten(path, d, pt, p.i1, e)
    requires SpacesOk(b.mem, b.shape, k, spaces, b.free) && root in spaces && r in spaces
    requires Walk(b.mem, root, p) == Unmapped && e.present && e.user
    ensures r != root ==> Owned(d.mem, d.shape, k, r) == Owned(b.mem, b.shape, k, r)
    ensures r == root && Tracked(b, k, spaces, root, p) ==>
      Owned(d.mem, d.shape, k, r) == Owned(path.mem, path.shape, k, r) + {e.frame}
  {
    hide Owned, Extended, Grown, Walk, SlotOf, UserPath, Below, Private, SpacesOk, WellFormed, Fits;
    SpaceRoot(b, path, k, spaces, root);
    SpaceRoot(b, path, k, spaces, r);
    NotMappedYet(b, path, k, root, p, pt);
    MadeSomething(b, path, root, p, pt);
    PathOwned(b, path, k, root, p, spaces, r);
    LeafOwned(path.mem, path.shape, k, pt, p.i1, e, r);
    BelowRoot(path, k, root, p, pt, r);
    if r == root && Tracked(b, k, spaces, root, p) {
      TrackedPrivate(b, path, k, root, p, spaces);
    }
  }

  /** The table at the end of a path belongs to nobody but the path's root. */
  lemma BelowRoot(b: View, k: nat, root: nat, p: Page, pt: nat, r: nat)
    requires Sound(b, k) && IsTable(b.shape, root, 4) && IsTable(b.shape, r, 4) && r != k
    requires SlotOf(b.mem, root, p) == Slot(pt, p.i1)
    ensures pt in b.shape.level
    ensures Below(b.mem, b.shape, k, r, pt) ==> r == root
    ensures Private(b.mem, k, root, p.i4) ==> Below(b.mem, b.shape, k, root, pt)
  {
    WalkFacts(b.mem, b.shape, k, root, p);
    assert r != root ==> ShareOk(b.mem, b.shape, k, r, root, p.i4);
  }

  /** Address addr is a frame that was free in a; in b it is allocated, cleared
      and used by nobody, and nothing else changed. */
  ghost predicate FreshFrame(a: View, b: View, k: nat, spaces: set<nat>, addr: nat) {
    var f := addr / PAGE;
    && addr == f * PAGE && f in a.free && 0 < f < P.MAX_FRAMES && FrameOf(addr) == f
    && b.free == a.free - {f} && b.shape == a.shape && |b.bytes| == |a.bytes| == P.MAX_FRAMES
    && b.bytes == a.bytes[f := seq(PAGE, _ => 0)]
    && (forall t, i :: t in a.shape.level ==> At(b.mem, t, i) == At(a.mem, t, i))
    && SameWalks(a.mem, b.mem, a.shape)
    && FreshPage(b.mem, b.shape, k, spaces, b.free, f)
    && (forall r :: r in spaces ==> Owned(b.mem, b.shape, k, r) == Owned(a.mem, a.shape, k, r))
  }

  lemma FreshLimit(a: View, k: nat, addr: nat)
    requires Sound(a, k) && addr / PAGE in a.free && addr % PAGE == 0
    requires forall f :: f in a.free ==> f < P.MAX_FRAMES
    ensures addr / PAGE < |a.mem| && Fits(a.mem, a.bytes) && addr != 0 && FrameOf(addr) == addr / PAGE
    ensures addr / PAGE !in a.shape.level
  {
  }

  lemma FreshMade(a: View, b: View, k: nat, spaces: set<nat>, addr: nat)
    requires Sound(a, k) && SpacesOk(a.mem, a.shape, k, spaces, a.free)
    requires addr % PAGE == 0 && addr / PAGE in a.free && addr / PAGE < |a.mem|
    requires b.free == a.free - {addr / PAGE} && b.shape == a.shape && Fits(b.mem, b.bytes)
    requires b.bytes == a.bytes[addr / PAGE := seq(PAGE, _ => 0)]
    requires forall g :: 0 <= g < |a.mem| && g != addr / PAGE ==> b.mem[g] == a.mem[g]
    ensures Sound(b, k) && SpacesOk(b.mem, b.shape, k, spaces, b.free) && FreshFrame(a, b, k, spaces, addr)
  {
    var f := addr / PAGE;
    OffTables(a, b, k, spaces);
    forall r, t, i | r in spaces && OwnedSlot(b.mem, b.shape, k, r, t, i)
      ensures At(b.mem, t, i).frame != f
    {
      OwnedSlotStays(a, b, k, r, t, i);
      assert PageOk(a.mem, a.shape, a.free, t, i);
    }
  }

  lemma OwnedSlotStays(a: View, b: View, k: nat, r: nat, t: nat, i: nat)
    requires IsTable(a.shape, r, 4) && IsTable(a.shape, k, 4) && b.shape == a.shape
    requires forall u, j :: u in a.shape.level ==> At(b.mem, u, j) == At(a.mem, u, j)
    requires OwnedSlot(b.mem, b.shape, k, r, t, i)
    ensures OwnedSlot(a.mem, a.shape, k, r, t, i) && At(b.mem, t, i) == At(a.mem, t, i)
  {
    assert At(b.mem, t, i) == At(a.mem, t, i);
    var j := a.shape.up[Top(a.shape, t)].1;
    assert At(b.mem, r, j) == At(a.mem, r, j) && At(b.mem, k, j) == At(a.mem, k, j);
  }

  lemma RootIsTable(a: View, k: nat, spaces: set<nat>, root: nat)
    requires Sound(a, k) && SpacesOk(a.mem, a.shape, k, spaces, a.free) && root in spaces
    ensures IsTable(a.shape, root, 4) && root != k
  {
  }

  lemma NothingMapped(a: View, b: View, k: nat, spaces: set<nat>, root: nat, p: Page)
    requires a == b
    ensures Conserved(a, b, k, spaces, root, Tracked(a, k, spaces, root, p))
    ensures SameKernelTop(a.mem, b.mem, k) && SameWalks(a.mem, b.mem, a.shape)
  {
  }

  lemma FreshFacts(a: View, b: View, k: nat, spaces: set<nat>, root: nat, p: Page, addr: nat)
    requires Sound(a, k) && SpacesOk(a.mem, a.shape, k, spaces, a.free) && root in spaces
    requires FreshFrame(a, b, k, spaces, addr)
    ensures IsTable(b.shape, root, 4) && FrameOf(addr) == addr / PAGE && addr / PAGE < P.MAX_FRAMES
    ensures Walk(b.mem, root, p) == Walk(a.mem, root, p)
    ensures MayMap(b, k, spaces, root, p, Entry(true, true, true, false, FrameOf(addr)))
    ensures MayMap(b, k, spaces, root, p, Entry(true, false, true, false, FrameOf(addr)))
  {
  }

  /** Clearing a fresh frame changes no path. */
  lemma FreshDepth(a: View, b: View, k: nat, spaces: set<nat>, root: nat, addr: nat)
    requires Sound(a, k) && FreshFrame(a, b, k, spaces, addr) && IsTable(a.shape, root, 4)
    ensures (forall p :: Depth(b.mem, root, p) == Depth(a.mem, root, p)) && |b.free| == |a.free| - 1
  {
    forall p
      ensures Depth(b.mem, root, p) == Depth(a.mem, root, p)
    {
      WalkFacts(a.mem, a.shape, k, root, p);
    }
  }

  lemma FreshSlots(a: View, b: View, k: nat, spaces: set<nat>, addr: nat)
    requires Sound(a, k) && FreshFrame(a, b, k, spaces, addr)
    ensures SlotsStay(a.mem, b.mem, a.shape)
  {
    forall r, q | IsTable(a.shape, r, 4)
      ensures SlotOf(b.mem, r, q) == SlotOf(a.mem, r, q)
    {
      WalkFacts(a.mem, a.shape, k, r, q);
    }
  }

  lemma FreshUnused(a: View, b: View, k: nat, spaces: set<nat>, addr: nat)
    requires Sound(a, k) && FreshFrame(a, b, k, spaces, addr) && Fits(b.mem, b.bytes)
    requires SpacesOk(a.mem, a.shape, k, spaces, a.free)
    ensures forall f :: Unused(a, k, spaces, f) ==> Unused(b, k, spaces, f) && f != addr / PAGE
  {
    forall f | Unused(a, k, spaces, f)
      ensures Unused(b, k, spaces, f)
    {
      forall r, t, i | r in spaces && OwnedSlot(b.mem, b.shape, k, r, t, i)
        ensures At(b.mem, t, i).frame != f
      {
        OwnedSlotStays(a, b, k, r, t, i);
      }
    }
  }

  /** Mapping a fresh frame for user code disturbs nothing. */
  lemma FreshUndisturbed(a: View, b: View, d: View, k: nat, spaces: set<nat>, addr: nat)
    requires Sound(a, k) && SpacesOk(a.mem, a.shape, k, spaces, a.free) && FreshFrame(a, b, k, spaces, addr)
      && Sound(b, k)
    requires SlotsStay(b.mem, d.mem, b.shape) && TopsStay(b, d) && KeepsUnused(b, d, k, spaces, addr / PAGE)
    requires forall t :: t in b.shape.level ==> t in d.shape.level
    ensures Undisturbed(a, d, k, spaces, spaces) && forall f :: Unused(a, k, spaces, f) ==> f != addr / PAGE
  {
    hide SlotOf, Unused, Owned;
    FreshSlots(a, b, k, spaces, addr);
    FreshUnused(a, b, k, spaces, addr);
    GrownStays(a, d, k);
  }

  lemma BackUndisturbed(a: View, c: View, d: View, k: nat, spaces: set<nat>, f: nat)
    requires Undisturbed(a, c, k, spaces, spaces) && d == c.(free := c.free + {f})
    requires forall g :: Unused(a, k, spaces, g) ==> g != f
    ensures Undisturbed(a, d, k, spaces, spaces)
  {
    forall g | Unused(a, k, spaces, g)
      ensures Unused(d, k, spaces, g)
    {
      assert Unused(c, k, spaces, g);
    }
  }

  lemma GaveBack(a: View, b: View, path: View, d: View, k: nat, spaces: set<nat>, root: nat, p: Page, addr: nat)
    requires Sound(a, k) && SpacesOk(a.mem, a.shape, k, spaces, a.free) && root in spaces
    requires FreshFrame(a, b, k, spaces, addr) && Sound(b, k) && SpacesOk(b.mem, b.shape, k, spaces, b.free)
    requires Grown(b, path) && Sound(path, k) && SpacesOk(path.mem, path.shape, k, spaces, path.free)
    requires PathOrNothing(b, path, root, p)
    requires d.mem == path.mem && d.bytes == path.bytes && d.shape == path.shape && d.free == path.free + {addr / PAGE}
    ensures Sound(d, k) && SpacesOk(d.mem, d.shape, k, spaces, d.free)
    ensures Conserved(a, d, k, spaces, root, Tracked(a, k, spaces, root, p))
    ensures SameKernelTop(a.mem, d.mem, k) && SameWalks(a.mem, d.mem, a.shape)
  {
    hide WellFormed, Owned, Walk, Conserved, SameKernelTop, Fits, SpacesOk, NewUnder;
    RootIsTable(a, k, spaces, root);
    RootIsTable(b, k, spaces, root);
    KernelIsTable(a, k);
    var f := addr / PAGE;
    GaveBackOwned(a, b, path, d, k, spaces, root, p, f);
    GaveBackTop(a, b, path, d, k, root, p);
    if b != path {
      FreshStays(b, path, k, root, p, spaces, f);
    }
    GaveBackSpaces(path, d, k, spaces, f);
  }

  lemma GaveBackTop(a: View, b: View, path: View, d: View, k: nat, root: nat, p: Page)
    requires Sound(a, k) && Sound(b, k) && Sound(path, k) && Grown(b, path) && PathOrNothing(b, path, root, p)
    requires IsTable(b.shape, root, 4) && root != k && d.mem == path.mem && b.shape == a.shape
    requires forall t, i :: t in a.shape.level ==> At(b.mem, t, i) == At(a.mem, t, i)
    ensures SameKernelTop(a.mem, d.mem, k)
  {
    forall i | 0 <= i < ENTRIES
      ensures At(d.mem, k, i).present <==> At(a.mem, k, i).present
    {
      if b != path {
        KernelTopStays(b, path, k, root, p, i);
      }
    }
  }

  /** A frame that nobody uses may become free again. */
  lemma GaveBackSpaces(path: View, d: View, k: nat, spaces: set<nat>, f: nat)
    requires Sound(path, k) && SpacesOk(path.mem, path.shape, k, spaces, path.free)
    requires FreshPage(path.mem, path.shape, k, spaces, path.free, f)
    requires d == path.(free := path.free + {f})
    ensures Sound(d, k) && SpacesOk(d.mem, d.shape, k, spaces, d.free)
  {
    forall r, t, i | r in spaces && OwnedSlot(d.mem, d.shape, k, r, t, i)
      ensures PageOk(d.mem, d.shape, d.free, t, i)
    {
      assert PageOk(path.mem, path.shape, path.free, t, i);
    }
  }

  lemma GaveBackOwned(a: View, b: View, path: View, d: View, k: nat, spaces: set<nat>, root: nat, p: Page, f: nat)
    requires Sound(b, k) && Sound(path, k) && Grown(b, path) && PathOrNothing(b, path, root, p)
    requires SpacesOk(b.mem, b.shape, k, spaces, b.free) && root in spaces
    requires forall r :: r in spaces ==> Owned(b.mem, b.shape, k, r) == Owned(a.mem, a.shape, k, r)
    requires Tracked(a, k, spaces, root, p) ==> Tracked(b, k, spaces, root, p)
    requires f in a.free && b.free == a.free - {f}
    requires d.mem == path.mem && d.shape == path.shape && d.free == path.free + {f}
    ensures Conserved(a, d, k, spaces, root, Tracked(a, k, spaces, root, p))
  {
    hide Owned, Sound, Grown, SpacesOk, PathOrNothing, Tracked;
    RootIsTable(b, k, spaces, root);
    forall r | r in spaces
      ensures r != root ==> Owned(d.mem, d.shape, k, r) == Owned(a.mem, a.shape, k, r)
      ensures r == root && Tracked(a, k, spaces, root, p) ==>
        d.free + Owned(d.mem, d.shape, k, r) == a.free + Owned(a.mem, a.shape, k, r)
    {
      PathOwned(b, path, k, root, p, spaces, r);
      if r == root && Tracked(a, k, spaces, root, p) {
        MoveOne(a.free, b.free, path.free, f, Owned(b.mem, b.shape, k, r), Owned(path.mem, path.shape, k, r));
        assert d.free + Owned(d.mem, d.shape, k, r) == path.free + (Owned(path.mem, path.shape, k, r) + {f});
      }
    }
  }

  lemma FreshMapped(a: View, b: View, path: View, d: View, k: nat, spaces: set<nat>, root: nat, p: Page, pt: nat,
      addr: nat, writable: bool)
    requires Sound(a, k) && SpacesOk(a.mem, a.shape, k, spaces, a.free) && root in spaces
    requires FreshFrame(a, b, k, spaces, addr) && Sound(b, k) && SpacesOk(b.mem, b.shape, k, spaces, b.free)
    requires Grown(b, path) && Sound(path, k) && Sound(d, k) && MadePath(b, path, root, p, pt)
    requires LeafWritten(path, d, pt, p.i1, Entry(true, writable, true, false, addr / PAGE))
    requires Walk(a.mem, root, p) == Unmapped
    requires Remapped(b.mem, d.mem, b.shape, root, p, Mapped(addr / PAGE, writable, true))
    ensures Conserved(a, d, k, spaces, root, Tracked(a, k, spaces, root, p))
    ensures SameKernelTop(a.mem, d.mem, k)
    ensures Remapped(a.mem, d.mem, a.shape, root, p, Mapped(addr / PAGE, writable, true))
    ensures addr / PAGE < |d.mem| && |d.bytes| == |d.mem| && d.bytes[addr / PAGE] == seq(PAGE, _ => 0)
    ensures addr / PAGE in a.free
  {
    FreshTop(a, b, path, d, k, spaces, root, p, pt, addr, Entry(true, writable, true, false, addr / PAGE));
    MappedFresh(a, b, path, d, k, spaces, root, p, pt, Entry(true, writable, true, false, addr / PAGE));
    assert addr / PAGE !in path.shape.level;
  }

  lemma FreshTop(a: View, b: View, path: View, d: View, k: nat, spaces: set<nat>, root: nat, p: Page, pt: nat,
      addr: nat, e: Entry)
    requires Sound(a, k) && SpacesOk(a.mem, a.shape, k, spaces, a.free) && root in spaces
    requires FreshFrame(a, b, k, spaces, addr) && Sound(b, k) && SpacesOk(b.mem, b.shape, k, spaces, b.free)
    requires Grown(b, path) && Sound(path, k) && MadePath(b, path, root, p, pt)
    requires LeafWritten(path, d, pt, p.i1, e)
    ensures SameKernelTop(a.mem, d.mem, k)
  {
    hide Extended, WellFormed, SpacesOk, Owned, SameWalks, Walk, Fits, FreshPage;
    RootIsTable(a, k, spaces, root);
    RootIsTable(b, k, spaces, root);
    PathIsTable(b, path, root, p, pt);
    KernelRow(path, d, k, pt, p.i1, e);
    KernelIsTable(a, k);
    forall i | 0 <= i < ENTRIES
      ensures At(d.mem, k, i).present <==> At(a.mem, k, i).present
    {
      KernelTopStays(b, path, k, root, p, i);
    }
  }

  lemma KernelIsTable(a: View, k: nat)
    requires Sound(a, k)
    ensures IsTable(a.shape, k, 4)
  {
  }

  lemma KernelRow(path: View, d: View, k: nat, pt: nat, i: nat, e: Entry)
    requires Sound(path, k) && IsTable(path.shape, pt, 1) && LeafWritten(path, d, pt, i, e)
    ensures forall j :: At(d.mem, k, j) == At(path.mem, k, j)
  {
  }

  // ---------------------------------------------------------------------------
  // The life of one process space

  /** Since a, space `root` took all the frames that left the free set. */
  ghost predicate Living(a: View, b: View, k: nat, before: set<nat>, root: nat, touched: seq<nat>) {
    && root !in before && root != k && root != 0
    && b.free + Owned(b.mem, b.shape, k, root) == a.free
    && (forall r :: r in before ==> Owned(b.mem, b.shape, k, r) == Owned(a.mem, a.shape, k, r))
    && (forall va :: va in touched ==> !At(b.mem, k, PageOf(va).i4).present)
  }

  /** A new space `root` in b: it translates as the kernel does, owns its root
      frame only, and disturbs nobody. */
  ghost predicate NewSpace(a: View, b: View, k: nat, spaces: set<nat>, root: nat) {
    && root in a.free && b.free == a.free - {root}
    && root !in spaces && root != k && root != 0 && IsTable(b.shape, root, 4)
    && SameWalks(a.mem, b.mem, a.shape) && SameKernelTop(a.mem, b.mem, k)
    && (forall p :: Walk(b.mem, root, p) == Walk(a.mem, k, p))
    && (forall i :: At(b.mem, root, i) == At(a.mem, k, i))
    && (forall t, i :: t in a.shape.level ==> At(b.mem, t, i) == At(a.mem, t, i))
    && Owned(b.mem, b.shape, k, root) == {root}
    && (forall r :: r in spaces ==> Owned(b.mem, b.shape, k, r) == Owned(a.mem, a.shape, k, r))
    && Undisturbed(a, b, k, spaces, spaces + {root})
  }

  lemma SpaceMade(a: View, b: View, k: nat, spaces: set<nat>, c: nat)
    requires Sound(a, k) && SpacesOk(a.mem, a.shape, k, spaces, a.free)
    requires c in a.free && c < |a.mem| && b.free == a.free - {c}
    requires k < |a.mem| && b.mem == a.mem[c := a.mem[k]] && b.shape == WithRoot(a.shape, c) && Fits(b.mem, b.bytes)
    ensures Sound(b, k) && SpacesOk(b.mem, b.shape, k, spaces + {c}, b.free)
    ensures NewSpace(a, b, k, spaces, c)
  {
    hide WellFormed, Undisturbed, Owned, Walk, SpacesOk;
    CopyRootWalks(a.mem, a.shape, k, c);
    CopyRootSpaces(a.mem, a.shape, k, c, spaces, a.free);
    CopyEntries(a, b, k, spaces, c);
    SpaceUndisturbed(a, b, k, spaces, c);
  }

  lemma CopyEntries(a: View, b: View, k: nat, spaces: set<nat>, c: nat)
    requires Sound(a, k) && SpacesOk(a.mem, a.shape, k, spaces, a.free) && c in a.free && c < |a.mem|
    requires k < |a.mem| && b.mem == a.mem[c := a.mem[k]]
    ensures forall i :: At(b.mem, k, i) == At(a.mem, k, i) && At(b.mem, c, i) == At(a.mem, k, i)
    ensures forall t, i :: t in a.shape.level ==> At(b.mem, t, i) == At(a.mem, t, i)
    ensures c != 0 && c != k && c !in spaces && c !in a.shape.level
  {
  }

  lemma SpaceUndisturbed(a: View, b: View, k: nat, spaces: set<nat>, c: nat)
    requires Sound(a, k) && c in a.free && c < |a.mem| && b.free == a.free - {c}
    requires k < |a.mem| && b.mem == a.mem[c := a.mem[k]] && b.shape == WithRoot(a.shape, c)
    requires forall r, t, i :: r in spaces + {c} && OwnedSlot(b.mem, b.shape, k, r, t, i) ==>
      && r in spaces && OwnedSlot(a.mem, a.shape, k, r, t, i)
    ensures Undisturbed(a, b, k, spaces, spaces + {c})
  {
    forall r, q | IsTable(a.shape, r, 4)
      ensures SlotOf(b.mem, r, q) == SlotOf(a.mem, r, q)
    {
      WalkFacts(a.mem, a.shape, k, r, q);
    }
    forall f | Unused(a, k, spaces, f)
      ensures Unused(b, k, spaces + {c}, f)
    {
      forall r, t, i | r in spaces + {c} && OwnedSlot(b.mem, b.shape, k, r, t, i)
        ensures At(b.mem, t, i).frame != f
      {
        assert At(b.mem, t, i) == At(a.mem, t, i);
      }
    }
  }

  lemma LivingStart(a: View, b: View, k: nat, before: set<nat>, root: nat, touched: seq<nat>)
    requires NewSpace(a, b, k, before, root)
    requires forall va :: va in touched ==> !At(a.mem, k, PageOf(va).i4).present
    ensures Living(a, b, k, before, root, touched) && root != 0 && root != k
  {
  }

  lemma SpaceIsAddress(space: nat)
    requires FrameOf(space) != 0
    ensures space != 0
  {
  }

  lemma LivingStep(a: View, b: View, c: View, k: nat, before: set<nat>, root: nat, touched: seq<nat>, va: nat)
    requires Living(a, b, k, before, root, touched) && va in touched
    requires Conserved(b, c, k, before + {root}, root, Tracked(b, k, before + {root}, root, PageOf(va)))
    requires SameKernelTop(b.mem, c.mem, k)
    ensures Living(a, c, k, before, root, touched)
  {
  }

  lemma LivingEnd(a: View, b: View, c: View, k: nat, before: set<nat>, root: nat, touched: seq<nat>)
    requires Living(a, b, k, before, root, touched) && TornDown(b, c, k, root, before)
    ensures c.free == a.free && before + {root} - {root} == before
    ensures forall r :: r in before ==> Owned(c.mem, c.shape, k, r) == Owned(a.mem, a.shape, k, r)
  {
  }

  // ---------------------------------------------------------------------------
  // The bootloader's tables

  function BootRow(f: nat): (row: seq<Entry>)
    ensures |row| == ENTRIES
  {
    if f == 1 then Zeros()[0 := TableLink(2)]
    else if f == 2 || f == 3 then Zeros()[0 := TableLink(f + 1).(user := false)]
    else if f == 4 then seq(ENTRIES, (i: nat) => Entry(true, true, false, false, i))
    else Zeros()
  }

  function BootMemory(): (m: Mem)
    ensures |m| == P.MAX_FRAMES && forall f :: 0 <= f < |m| ==> m[f] == BootRow(f)
  {
    seq(P.MAX_FRAMES, (f: nat) => BootRow(f))
  }

  function BootShape(): Shape {
    Shape(map[1 := 4, 2 := 3, 3 := 2, 4 := 1], map[1 := (0, 0), 2 := (1, 0), 3 := (2, 0), 4 := (3, 0)])
  }

  lemma BootEntry(v: View, t: nat, i: nat)
    requires v.mem == BootMemory() && v.shape == BootShape()
    requires 1 <= t <= 4 && i < ENTRIES
    ensures At(v.mem, t, i) ==
      if t == 4 then Entry(true, true, false, false, i) else if i == 0 then TableLink(t + 1).(user := t == 1)
        else ABSENT
    ensures EntryOk(v.mem, v.shape, t, i)
  {
    assert v.mem[t] == BootRow(t);
  }

  lemma BootWellFormed(v: View)
    requires v.mem == BootMemory() && v.shape == BootShape()
    ensures WellFormed(v.mem, v.shape, 1)
  {
    forall t, i: nat | 1 <= t <= 4 && i < ENTRIES
      ensures At(v.mem, t, i) == if t == 4 then Entry(true, true, false, false, i) else if i == 0 then
        TableLink(t + 1).(user := t == 1) else ABSENT
      ensures EntryOk(v.mem, v.shape, t, i)
    {
      BootEntry(v, t, i);
    }
    hide BootMemory, EntryOk;
    assert forall t :: t in v.shape.level <==> 1 <= t <= 4;
    assert LinkOk(v.mem, v.shape, 2) && LinkOk(v.mem, v.shape, 3) && LinkOk(v.mem, v.shape, 4);
    assert forall r, s :: IsTable(v.shape, r, 4) && IsTable(v.shape, s, 4) ==> r == s;
  }

  lemma BootSound(v: View)
    requires v.mem == BootMemory() && v.shape == BootShape()
    requires v.bytes == seq(P.MAX_FRAMES, _ => seq(PAGE, _ => 0)) && {0, 1, 2, 3, 4} !! v.free
    ensures Sound(v, 1) && SpacesOk(v.mem, v.shape, 1, {}, v.free)
  {
    hide WellFormed;
    BootWellFormed(v);
    assert forall t :: t in v.shape.level <==> 1 <= t <= 4;
  }

  /** The boot tables map the first 2 MiB to themselves. */
  lemma BootWalks(v: View)
    requires v.mem == BootMemory() && v.shape == BootShape()
    ensures forall i: Index :: Walk(v.mem, 1, Page(0, 0, 0, i)) == Mapped(i, true, false)
  {
    forall i: Index
      ensures Walk(v.mem, 1, Page(0, 0, 0, i)) == Mapped(i, true, false)
    {
      BootEntry(v, 1, 0);
      BootEntry(v, 2, 0);
      BootEntry(v, 3, 0);
      BootEntry(v, 4, i);
    }
  }

  class AddressSpaces {
    const pmm: P.FrameAllocator
    var mem: Mem
    var bytes: seq<seq<Byte>>
    var kernelPml4: nat
    ghost var shape: Shape
    /** The process address spaces alive now. */
    ghost var spaces: set<nat>

    /** The address space the bootloader hands over: one table per level in
        frames 1 to 4, the first 2 MiB mapped to themselves, with the user bit
        that vmm_init sets on the top-level entry in use. */
    constructor (pmm: P.FrameAllocator)
      requires pmm.Valid() && {0, 1, 2, 3, 4} !! pmm.free
      ensures Valid() && this.pmm == pmm && spaces == {} && kernelPml4 == 1
      ensures mem == BootMemory() && shape == BootShape()
      ensures forall i: Index :: Walk(mem, 1, Page(0, 0, 0, i)) == Mapped(i, true, false)
    {
      this.pmm := pmm;
      mem := BootMemory();
      bytes := seq(P.MAX_FRAMES, _ => seq(PAGE, _ => 0));
      kernelPml4, shape, spaces := 1, BootShape(), {};
      new;
      BootSound(Snap());
      BootWalks(Snap());
    }

    ghost function Snap(): View
      reads this, pmm
    {
      View(mem, shape, bytes, pmm.free)
    }

    ghost predicate Core()
      reads this, pmm, pmm.bitmap
    {
      pmm.Valid() && Sound(Snap(), kernelPml4)
    }

    ghost predicate Valid()
      reads this, pmm, pmm.bitmap
    {
      Core() && SpacesOk(mem, shape, kernelPml4, spaces, pmm.free)
    }

    /** Writes one table entry; the bytes of that frame become arbitrary. */
    method StoreEntry(f: nat, i: nat, e: Entry)
      requires Fits(mem, bytes) && f < |mem| && i < ENTRIES
      modifies this`mem, this`bytes
      ensures Fits(mem, bytes) && mem == Store(old(mem), f, i, e)
      ensures forall g :: 0 <= g < |mem| && g != f ==> bytes[g] == old(bytes)[g]
    {
      mem := mem[f := mem[f][i := e]];
      var junk: seq<Byte> := *;
      if |junk| != PAGE {
        junk := seq(PAGE, _ => 0);
      }
      bytes := bytes[f := junk];
    }

    /** Writes one byte; the entries of that frame become arbitrary. */
    method StoreByte(f: nat, o: nat, b: Byte)
      requires Fits(mem, bytes) && f < |mem| && o < PAGE
      modifies this`mem, this`bytes
      ensures Fits(mem, bytes) && bytes == old(bytes)[f := old(bytes)[f][o := b]]
      ensures forall g :: 0 <= g < |mem| && g != f ==> mem[g] == old(mem)[g]
    {
      bytes := bytes[f := bytes[f][o := b]];
      var junk: seq<Entry> := *;
      if |junk| != ENTRIES {
        junk := Zeros();
      }
      mem := mem[f := junk];
    }

    /** Overwrites a whole frame with the given entries, one by one. */
    method FillTable(f: nat, row: seq<Entry>)
      requires Fits(mem, bytes) && f < |mem| && |row| == ENTRIES
      modifies this`mem, this`bytes
      ensures Fits(mem, bytes) && mem == old(mem)[f := row]
      ensures forall g :: 0 <= g < |mem| && g != f ==> bytes[g] == old(bytes)[g]
    {
      var i := 0;
      while i < ENTRIES
        invariant 0 <= i <= ENTRIES && Fits(mem, bytes)
        invariant forall g :: 0 <= g < |mem| && g != f ==> mem[g] == old(mem)[g] && bytes[g] == old(bytes)[g]
        invariant mem[f][..i] == row[..i]
      {
        StoreEntry(f, i, row[i]);
        i := i + 1;
      }
      assert mem[f] == row;
    }

    /** A free frame, overwritten with the given entries; 0 when none is left. */
    method AllocTable(row: seq<Entry>) returns (c: nat)
      requires pmm.Valid() && 0 !in pmm.free && Fits(mem, bytes) && |row| == ENTRIES
      modifies this`mem, this`bytes, pmm, pmm.bitmap
      ensures pmm.Valid() && Fits(mem, bytes) && pmm.idleFrees == old(pmm.idleFrees)
      ensures c == 0 ==> Snap() == old(Snap()) && pmm.free == {}
      ensures c != 0 ==>
        && c in old(pmm.free) && pmm.free == old(pmm.free) - {c}
        && c < |mem| == |old(mem)| && mem == old(mem)[c := row]
        && (forall f :: 0 <= f < |mem| && f != c ==> bytes[f] == old(bytes)[f])
    {
      hide P.Agrees, P.FirstFree;
      var addr := pmm.AllocFrame();
      if addr == 0 {
        return 0;
      }
      c := addr / PAGE;
      assert c < P.MAX_FRAMES;
      FillTable(c, row);
    }

    /** The frame of the table at entry i of table t, made when absent; 0 when
        memory ran out. The link is given the user bit either way. */
    method GetOrCreateTable(t: nat, i: nat) returns (c: nat)
      requires Core() && t in shape.level && shape.level[t] >= 3 && i < ENTRIES
      modifies this`mem, this`bytes, this`shape, pmm, pmm.bitmap
      ensures Core() && pmm.idleFrees == old(pmm.idleFrees)
      ensures Grown(old(Snap()), Snap())
      ensures c == 0 ==> Snap() == old(Snap()) && pmm.free == {}
      ensures c != 0 ==> MadeTable(old(Snap()), Snap(), t, i, c)
      ensures At(old(mem), t, i).present ==> c != 0 && Relinked(old(Snap()), Snap(), t, i, c)
      ensures c != 0 ==> Linked(old(Snap()), Snap(), t, i, c)
      ensures SamePd(old(mem), mem, old(shape))
    {
      hide Sound, Grown, MadeTable, P.Agrees, P.Frames, P.LowestRun, P.FreeRun, Zeros, SplitRow, Fits, At, Store, Grow,
           SpacesOk, SamePd;
      ghost var a := Snap();
      SoundTable(a, kernelPml4, t, i);
      PdSame(mem, shape);
      if !At(mem, t, i).present {
        c := AllocTable(Zeros());
        if c == 0 {
          GrownSame(a);
          return;
        }
        StoreTwice(mem, t, i, Entry(true, true, false, false, c), TableLink(c));
        StoreEntry(t, i, Entry(true, true, false, false, c));
        StoreEntry(t, i, At(mem, t, i).(user := true));
        shape := Grow(shape, t, i, c);
        GrownByHang(a, Snap(), kernelPml4, t, i, c, Zeros());
        PdByHang(a, Snap(), kernelPml4, t, i, c);
        NewLinked(a, Snap(), kernelPml4, t, i, c, Zeros());
      } else {
        c := At(mem, t, i).frame;
        StoreEntry(t, i, At(mem, t, i).(user := true));
        GrownByUser(a, Snap(), kernelPml4, t, i);
        PdByUser(a, Snap(), kernelPml4, t, i);
        OldLinked(a, Snap(), kernelPml4, t, i);
        NotRoot(a, kernelPml4, t, i);
      }
    }

    /** Allocates a level-1 table, fills it and links it at entry i of a page
        directory: with zeros at an absent entry, or with the equivalent small
        entries in place of a 2 MiB page. 0 when memory ran out. */
    method HangPt(pd: nat, i: nat, row: seq<Entry>) returns (pt: nat)
      requires Core() && IsTable(shape, pd, 2) && i < ENTRIES
      requires var e := At(mem, pd, i); if e.present then e.huge && row == SplitRow(e) else row == Zeros()
      modifies this`mem, this`bytes, this`shape, pmm, pmm.bitmap
      ensures Core() && pmm.idleFrees == old(pmm.idleFrees)
      ensures Grown(old(Snap()), Snap())
      ensures pt == 0 ==> Snap() == old(Snap()) && pmm.free == {}
      ensures pt != 0 ==>
        && MadeTable(old(Snap()), Snap(), pd, i, pt) && At(mem, pd, i) == TableLink(pt) && pd in shape.level
      ensures pt != 0 ==> Linked(old(Snap()), Snap(), pd, i, pt)
    {
      hide Sound, Grown, MadeTable, P.Agrees, P.Frames, P.LowestRun, P.FreeRun, Zeros, SplitRow, Fits, At, Store, Grow,
           SpacesOk;
      ghost var a := Snap();
      SoundTable(a, kernelPml4, pd, i);
      pt := AllocTable(row);
      if pt == 0 {
        GrownSame(a);
        return;
      }
      StoreEntry(pd, i, TableLink(pt));
      shape := Grow(shape, pd, i, pt);
      GrownByHang(a, Snap(), kernelPml4, pd, i, pt, row);
      NewLinked(a, Snap(), kernelPml4, pd, i, pt, row);
    }

    /** The level-1 table at entry i of a page directory: made when absent, and
        filled with the equivalent small entries when it was a 2 MiB page. */
    method GetOrSplitPt(pd: nat, i: nat) returns (pt: nat)
      requires Core() && IsTable(shape, pd, 2) && i < ENTRIES
      modifies this`mem, this`bytes, this`shape, pmm, pmm.bitmap
      ensures Core() && pmm.idleFrees == old(pmm.idleFrees)
      ensures Grown(old(Snap()), Snap())
      ensures pt == 0 ==> Snap() == old(Snap()) && pmm.free == {}
      ensures pt != 0 ==> MadeTable(old(Snap()), Snap(), pd, i, pt) && !At(mem, pd, i).huge
      ensures At(old(mem), pd, i).present && !At(old(mem), pd, i).huge ==>
        && pt != 0 && shape == old(shape) && pmm.free == old(pmm.free)
      ensures pt != 0 ==> Linked(old(Snap()), Snap(), pd, i, pt)
    {
      hide Sound, Grown, MadeTable, P.Agrees, P.Frames, P.LowestRun, P.FreeRun, Zeros, SplitRow, Fits, At, Hang, Store,
           Grow, SpacesOk;
      ghost var a := Snap();
      SoundTable(a, kernelPml4, pd, i);
      var e := At(mem, pd, i);
      if e.present && !e.huge {
        pt := e.frame;
        StoreEntry(pd, i, e.(user := true));
        GrownByUser(a, Snap(), kernelPml4, pd, i);
        OldLinked(a, Snap(), kernelPml4, pd, i);
        NotRoot(a, kernelPml4, pd, i);
      } else {
        pt := HangPt(pd, i, if e.present then SplitRow(e) else Zeros());
        if pt != 0 {
          ghost var b := Snap();
          SoundTable(b, kernelPml4, pd, i);
          StoreEntry(pd, i, At(mem, pd, i).(user := true));
          GrownAgain(a, b, Snap(), kernelPml4, pd, i, pt);
          StoreAgain(b.mem, pd, i);
        }
      }
    }

    /** Builds the path to a page and returns its level-1 table, or 0 when
        memory ran out; either way no translation changes. */
    method GetOrSplitPtEntry(root: nat, p: Page) returns (pt: nat)
      requires Core() && IsTable(shape, root, 4)
      modifies this`mem, this`bytes, this`shape, pmm, pmm.bitmap
      ensures Core() && pmm.idleFrees == old(pmm.idleFrees)
      ensures Grown(old(Snap()), Snap())
      ensures pt == 0 ==> pmm.free == {}
      ensures pt == 0 ==> PathOrNothing(old(Snap()), Snap(), root, p)
      ensures pt != 0 ==> MadePath(old(Snap()), Snap(), root, p, pt)
      ensures PdEntry(old(mem), root, p).present && pt == 0 ==> shape == old(shape) && pmm.free == old(pmm.free)
      ensures SlotOf(old(mem), root, p).Slot? ==> pt != 0 && shape == old(shape) && pmm.free == old(pmm.free)
      ensures pt != 0 <==> Missing(old(mem), root, p) <= |old(pmm.free)|
      ensures pt != 0 ==> Built(old(Snap()), Snap(), root, p, 3)
      ensures SlotsStay(old(mem), mem, old(shape))
    {
      hide Sound, Grown, MadePath, P.Agrees, Relinked, PdEntry, SlotOf, SamePd, Linked, Built, SlotsStay, Depth,
           TableOn;
      ghost var a := Snap();
      PathKnown(a, kernelPml4, root, p);
      BuiltStart(a, root, p);
      GrownSame(a);
      var pdpt := GetOrCreateTable(root, p.i4);
      if pdpt == 0 {
        BuiltStops(a, a, kernelPml4, root, p, 0);
        return 0;
      }
      ghost var b := Snap();
      BuiltNext(a, a, b, kernelPml4, root, p, 0, pdpt);
      HalfRelinked(a, b, kernelPml4, root, p, pdpt);
      var pd := GetOrCreateTable(pdpt, p.i3);
      if pd == 0 {
        PathBroken(a, b, Snap(), kernelPml4, root, p, pdpt, pd);
        BuiltStops(a, b, kernelPml4, root, p, 1);
        return 0;
      }
      ghost var c := Snap();
      BuiltNext(a, b, c, kernelPml4, root, p, 1, pd);
      GrownOn(a, b, c, kernelPml4);
      PathRelinked(a, b, c, kernelPml4, root, p, pdpt, pd);
      pt := GetOrSplitPt(pd, p.i2);
      if pt == 0 {
        PathBroken(a, b, c, kernelPml4, root, p, pdpt, pd);
        BuiltStops(a, c, kernelPml4, root, p, 2);
        return;
      }
      BuiltNext(a, c, Snap(), kernelPml4, root, p, 2, pt);
      BuiltEnds(a, Snap(), root, p);
      PathMade(a, b, c, Snap(), kernelPml4, root, p, pdpt, pd, pt);
    }

    /** Maps one page. On success exactly that page of that branch changes its
        translation; on failure none does, and memory is exhausted. */
    method MapPageIn(space: nat, va: nat, phys: nat, writable: bool, user: bool)
      returns (ok: bool, ghost path: View, ghost pt: nat)
      requires Valid() && IsTable(shape, FrameOf(space), 4)
      modifies this`mem, this`bytes, this`shape, pmm, pmm.bitmap
      ensures Core() && pmm.idleFrees == old(pmm.idleFrees)
      ensures var root, p, e := FrameOf(space), PageOf(va), Entry(true, writable, user, false, FrameOf(phys));
        && Grown(old(Snap()), path) && Sound(path, kernelPml4)
        && (ok ==>
          && MadePath(old(Snap()), path, root, p, pt) && LeafWritten(path, Snap(), pt, p.i1, e)
          && Walk(mem, root, p) == Mapped(FrameOf(phys), writable, user)
          && Remapped(old(mem), mem, old(shape), root, p, Mapped(FrameOf(phys), writable, user))
          && (MayMap(old(Snap()), kernelPml4, spaces, root, p, e) ==> Valid()))
        && (!ok ==> Snap() == path && PathOrNothing(old(Snap()), path, root, p)
                    && SameWalks(old(mem), mem, old(shape)) && pmm.free == {} && Valid()
                    && KeepsUnused(old(Snap()), Snap(), kernelPml4, spaces, 0))
      ensures SlotOf(old(mem), FrameOf(space), PageOf(va)).Slot? ==>
        && ok && shape == old(shape) && pmm.free == old(pmm.free)
      ensures KeepsUnused(old(Snap()), Snap(), kernelPml4, spaces, if user then FrameOf(phys) else 0)
      ensures TopsStay(old(Snap()), Snap())
      ensures ok <==> Missing(old(mem), FrameOf(space), PageOf(va)) <= |old(pmm.free)|
      ensures ok ==> Built(old(Snap()), Snap(), FrameOf(space), PageOf(va), 3)
      ensures SlotsStay(old(mem), mem, old(shape))
      ensures !Tracked(old(Snap()), kernelPml4, spaces, FrameOf(space), PageOf(va)) ==>
        SameOwned(old(Snap()), Snap(), kernelPml4, spaces)
      ensures At(old(mem), FrameOf(space), PageOf(va).i4).present ==> TopsFixed(old(Snap()), Snap())
    {
      hide TopsFixed, Tracked, SameOwned, KeepsUnused, TopsStay, Sound, Grown, MadePath, Remapped, SameWalks, SpacesOk,
           MayMap, P.Agrees, At, SlotOf, Built, SlotsStay, Depth,
           PathOrNothing;
      var root, p := FrameOf(space), PageOf(va);
      ghost var a := Snap();
      var table := GetOrSplitPtEntry(root, p);
      path, pt := Snap(), table;
      PathFits(a, path, kernelPml4, root, p, table);
      if table == 0 {
        PathSpaces(a, path, kernelPml4, root, p, spaces);
        PathKeepsUnused(a, path, kernelPml4, root, p, spaces);
        TopsKept(a, path, kernelPml4);
        if !Tracked(a, kernelPml4, spaces, root, p) {
          PathUntracked(a, path, kernelPml4, root, p, spaces);
        }
        if At(a.mem, root, p.i4).present {
          PathTops(a, path, kernelPml4, root, p);
        }
        ok := false;
        return;
      }
      ghost var e := Entry(true, writable, user, false, FrameOf(phys));
      StoreEntry(table, p.i1, Entry(true, writable, user, false, FrameOf(phys)));
      LeafDone(a, path, Snap(), kernelPml4, root, p, pt, e, spaces);
      LeafKeepsUnused(a, path, Snap(), kernelPml4, root, p, pt, e, spaces);
      PathIsTable(a, path, root, p, pt);
      LeafTops(a, path, Snap(), kernelPml4, pt, p.i1, e);
      LeafBuilt(a, path, Snap(), kernelPml4, root, p, pt, e);
      if !Tracked(a, kernelPml4, spaces, root, p) {
        LeafUntracked(a, path, Snap(), kernelPml4, root, p, pt, e, spaces);
      }
      if At(a.mem, root, p.i4).present {
        MadeSomething(a, path, root, p, pt);
        PathTops(a, path, kernelPml4, root, p);
        LeafTopsFixed(a, path, Snap(), kernelPml4, pt, p.i1, e);
      }
      ok := true;
    }

    /** Unmaps one page; absent paths are left alone. */
    method UnmapPageIn(space: nat, va: nat) returns (ok: bool)
      requires Valid() && IsTable(shape, FrameOf(space), 4)
      modifies this`mem, this`bytes, this`shape, pmm, pmm.bitmap
      ensures Valid() && pmm.idleFrees == old(pmm.idleFrees)
      ensures ok ==> Remapped(old(mem), mem, old(shape), FrameOf(space), PageOf(va), Unmapped)
      ensures ok ==> Walk(mem, FrameOf(space), PageOf(va)) == Unmapped
      ensures !ok ==> SameWalks(old(mem), mem, old(shape)) && pmm.free == old(pmm.free) == {}
      ensures Spent(old(Snap()), Snap()) && KeepsUnused(old(Snap()), Snap(), kernelPml4, spaces, 0)
        && TopsStay(old(Snap()), Snap())
      ensures ok && PdEntry(old(mem), FrameOf(space), PageOf(va)).present ==>
        SlotOf(mem, FrameOf(space), PageOf(va)).Slot?
      ensures !ok <==>
        var e := PdEntry(old(mem), FrameOf(space), PageOf(va)); e.present && e.huge && old(pmm.free) == {}
      ensures SlotsStay(old(mem), mem, old(shape))
      ensures !Tracked(old(Snap()), kernelPml4, spaces, FrameOf(space), PageOf(va)) ==>
        SameOwned(old(Snap()), Snap(), kernelPml4, spaces)
      ensures TopsFixed(old(Snap()), Snap())
    {
      hide TopsFixed, Tracked, SameOwned, Sound, Grown, MadePath, Remapped, SameWalks, SpacesOk, P.Agrees, At, Walk,
           PdEntry, SlotOf, Spent, KeepsUnused, TopsStay, Built, SlotsStay,
           Depth, PathOrNothing;
      var root, p := FrameOf(space), PageOf(va);
      ghost var a := Snap();
      SlotsSame(mem, shape);
      NotDisturbed(a, kernelPml4, spaces);
      SplitMissing(mem, root, p);
      SpentNothing(a, kernelPml4, spaces);
      var e2 := PdEntry(mem, root, p);
      if !e2.present {
        NothingToUnmap(mem, shape, root, p);
        return true;
      }
      PdTop(mem, root, p);
      var table := GetOrSplitPtEntry(root, p);
      ghost var path := Snap();
      PathFits(a, path, kernelPml4, root, p, table);
      if table == 0 {
        PathSpaces(a, path, kernelPml4, root, p, spaces);
        GrownSpent(a, path, Snap(), kernelPml4);
        PathKeepsUnused(a, path, kernelPml4, root, p, spaces);
        TopsKept(a, path, kernelPml4);
        if !Tracked(a, kernelPml4, spaces, root, p) {
          PathUntracked(a, path, kernelPml4, root, p, spaces);
        }
        PathTops(a, path, kernelPml4, root, p);
        return false;
      }
      StoreEntry(table, p.i1, ABSENT);
      GrownSpent(a, path, Snap(), kernelPml4);
      PathStays(a, path, Snap(), kernelPml4, root, p, table);
      LeafDone(a, path, Snap(), kernelPml4, root, p, table, ABSENT, spaces);
      LeafKeepsUnused(a, path, Snap(), kernelPml4, root, p, table, ABSENT, spaces);
      PathIsTable(a, path, root, p, table);
      LeafTops(a, path, Snap(), kernelPml4, table, p.i1, ABSENT);
      LeafBuilt(a, path, Snap(), kernelPml4, root, p, table, ABSENT);
      if !Tracked(a, kernelPml4, spaces, root, p) {
        LeafUntracked(a, path, Snap(), kernelPml4, root, p, table, ABSENT, spaces);
      }
      MadeSomething(a, path, root, p, table);
      PathTops(a, path, kernelPml4, root, p);
      LeafTopsFixed(a, path, Snap(), kernelPml4, table, p.i1, ABSENT);
      ok := true;
    }

    /** Whether a page translates at all. */
    method IsMappedIn(space: nat, va: nat) returns (mapped: bool)
      ensures mapped <==> Walk(mem, FrameOf(space), PageOf(va)).Mapped?
    {
      var e2 := PdEntry(mem, FrameOf(space), PageOf(va));
      if !e2.present {
        return false;
      }
      if e2.huge {
        return true;
      }
      return At(mem, e2.frame, PageOf(va).i1).present;
    }

    /** Whether user code may touch a page. */
    method IsUserAccessibleIn(space: nat, va: nat) returns (accessible: bool)
      ensures accessible <==> var w := Walk(mem, FrameOf(space), PageOf(va)); w.Mapped? && w.user
    {
      var p := PageOf(va);
      var l4 := At(mem, FrameOf(space), p.i4);
      if !l4.present || !l4.user {
        return false;
      }
      var l3 := At(mem, l4.frame, p.i3);
      if !l3.present || !l3.user {
        return false;
      }
      var l2 := At(mem, l3.frame, p.i2);
      if !l2.present || !l2.user {
        return false;
      }
      if l2.huge {
        return true;
      }
      var l1 := At(mem, l2.frame, p.i1);
      return l1.present && l1.user;
    }

    /** The system-call check of a user buffer: it passes exactly when no byte of
        the buffer is outside user-accessible pages or past the last address. */
    method UserRangeOk(space: nat, vaddr: nat, len: nat) returns (good: bool)
      requires vaddr < U64 && len < U64
      ensures good <==> len == 0 || (vaddr + len <= U64 && UserBytes(mem, FrameOf(space), vaddr, vaddr + len))
    {
      if len == 0 {
        return true;
      }
      if len - 1 > U64 - 1 - vaddr {
        return false;
      }
      var start, end := vaddr / PAGE * PAGE, (vaddr + len - 1) / PAGE * PAGE;
      var page := start;
      ghost var n := vaddr / PAGE;
      hide UserByte;
      while true
        invariant page == n * PAGE && vaddr / PAGE <= n <= (vaddr + len - 1) / PAGE
        invariant UserBytes(mem, FrameOf(space), start, page)
        decreases end - page
      {
        var accessible := IsUserAccessibleIn(space, page);
        SamePage(mem, FrameOf(space), page);
        if !accessible {
          assert !UserByte(mem, FrameOf(space), if page < vaddr then vaddr else page);
          return false;
        }
        if page == end {
          break;
        }
        page := page + PAGE;
        n := n + 1;
      }
      return true;
    }

    /** Clears the bytes of a frame that is no table. */
    method ZeroFrame(f: nat)
      requires Fits(mem, bytes) && f < |mem|
      modifies this`mem, this`bytes
      ensures Fits(mem, bytes) && bytes == old(bytes)[f := seq(PAGE, _ => 0)]
      ensures forall g :: 0 <= g < |mem| && g != f ==> mem[g] == old(mem)[g]
    {
      var i := 0;
      while i < PAGE
        invariant 0 <= i <= PAGE && Fits(mem, bytes)
        invariant forall g :: 0 <= g < |mem| && g != f ==> mem[g] == old(mem)[g] && bytes[g] == old(bytes)[g]
        invariant forall j :: 0 <= j < i ==> bytes[f][j] == 0
      {
        StoreByte(f, i, 0);
        i := i + 1;
      }
      assert bytes[f] == seq(PAGE, _ => 0);
    }

    lemma FreeFrames(k: nat)
      requires pmm.Valid() && Sound(Snap(), k)
      ensures 0 !in pmm.free && forall f :: f in pmm.free ==> f < P.MAX_FRAMES
    {
    }

    /** A free frame with its bytes cleared; nobody owns or maps it yet. */
    method AllocZeroedFrame() returns (addr: nat)
      requires Valid()
      modifies this`mem, this`bytes, pmm, pmm.bitmap
      ensures Valid() && pmm.idleFrees == old(pmm.idleFrees)
      ensures addr == 0 ==> Snap() == old(Snap()) && pmm.free == {}
      ensures addr != 0 ==> FreshFrame(old(Snap()), Snap(), kernelPml4, spaces, addr)
    {
      hide P.Agrees, P.FirstFree, Sound, SpacesOk, FreshFrame;
      ghost var a := Snap();
      FreeFrames(kernelPml4);
      addr := pmm.AllocFrame();
      if addr == 0 {
        return;
      }
      FreshLimit(a, kernelPml4, addr);
      ZeroFrame(addr / PAGE);
      FreshMade(a, Snap(), kernelPml4, spaces, addr);
    }

    /** Gives a space a new zeroed page where none is mapped, as the page-fault
        handler does for a growing stack. */
    method MapFreshPage(space: nat, va: nat, writable: bool) returns (ok: bool, ghost frame: nat)
      requires Valid() && FrameOf(space) in spaces && Walk(mem, FrameOf(space), PageOf(va)) == Unmapped
      modifies this`mem, this`bytes, this`shape, pmm, pmm.bitmap
      ensures Valid() && pmm.idleFrees == old(pmm.idleFrees)
      ensures Conserved(old(Snap()), Snap(), kernelPml4, spaces, FrameOf(space),
                        Tracked(old(Snap()), kernelPml4, spaces, FrameOf(space), PageOf(va)))
      ensures SameKernelTop(old(mem), mem, kernelPml4)
      ensures !ok ==> SameWalks(old(mem), mem, old(shape))
      ensures ok ==>
        && frame in old(pmm.free) && frame < |mem| && bytes[frame] == seq(PAGE, _ => 0)
        && Walk(mem, FrameOf(space), PageOf(va)) == Mapped(frame, writable, true)
        && Remapped(old(mem), mem, old(shape), FrameOf(space), PageOf(va), Mapped(frame, writable, true))
      ensures ok <==> Missing(old(mem), FrameOf(space), PageOf(va)) < |old(pmm.free)|
      ensures Undisturbed(old(Snap()), Snap(), kernelPml4, spaces, spaces)
    {
      hide Undisturbed, SlotsStay, KeepsUnused, TopsStay, Depth, Built, SameOwned, PathOrNothing, P.Agrees, Sound,
           SpacesOk, FreshFrame, Conserved, SameKernelTop, SameWalks, Remapped, Tracked, MayMap, MadePath, LeafWritten,
           Grown;
      ghost var a, root, p := Snap(), FrameOf(space), PageOf(va);
      RootIsTable(a, kernelPml4, spaces, root);
      NotDisturbed(a, kernelPml4, spaces);
      var addr := AllocZeroedFrame();
      if addr == 0 {
        NothingMapped(a, a, kernelPml4, spaces, root, p);
        ok, frame := false, 0;
        return;
      }
      ghost var b := Snap();
      FreshFacts(a, b, kernelPml4, spaces, root, p, addr);
      FreshDepth(a, b, kernelPml4, spaces, root, addr);
      ghost var path: View, pt: nat;
      ok, path, pt := MapPageIn(space, va, addr, writable, true);
      frame := addr / PAGE;
      MappedStays(b, path, Snap(), kernelPml4, ok, pt, p.i1, Entry(true, writable, true, false, FrameOf(addr)));
      FreshUndisturbed(a, b, Snap(), kernelPml4, spaces, addr);
      if !ok {
        pmm.FreeFrame(addr);
        GaveBack(a, b, path, Snap(), kernelPml4, spaces, root, p, addr);
        BackUndisturbed(a, path, Snap(), kernelPml4, spaces, frame);
        return;
      }
      FreshMapped(a, b, path, Snap(), kernelPml4, spaces, root, p, pt, addr, writable);
    }

    /** A copy of the kernel's top-level table, or 0 when memory ran out. The new
        space translates as the kernel does and owns one frame, its root. */
    method CreateAddressSpace() returns (space: nat)
      requires Valid()
      modifies this`mem, this`bytes, this`shape, this`spaces, pmm, pmm.bitmap
      ensures Valid() && pmm.idleFrees == old(pmm.idleFrees)
      ensures space == 0 <==> old(pmm.free) == {}
      ensures space == 0 ==> Snap() == old(Snap()) && spaces == old(spaces)
      ensures space != 0 ==>
        spaces == old(spaces) + {FrameOf(space)}
          && NewSpace(old(Snap()), Snap(), kernelPml4, old(spaces), FrameOf(space))
    {
      hide P.Agrees, Sound, SpacesOk, NewSpace;
      var c := CopyKernelRoot();
      if c == 0 {
        return 0;
      }
      RootAddress(c);
      space := c * PAGE;
    }

    method CopyKernelRoot() returns (c: nat)
      requires Valid()
      modifies this`mem, this`bytes, this`shape, this`spaces, pmm, pmm.bitmap
      ensures Valid() && pmm.idleFrees == old(pmm.idleFrees)
      ensures c == 0 <==> old(pmm.free) == {}
      ensures c == 0 ==> Snap() == old(Snap()) && spaces == old(spaces)
      ensures c != 0 ==>
        && c < P.MAX_FRAMES && spaces == old(spaces) + {c} && NewSpace(old(Snap()), Snap(), kernelPml4, old(spaces), c)
    {
      ghost var a := Snap();
      SoundTable(a, kernelPml4, kernelPml4, 0);
      hide P.Agrees, Sound, SpacesOk, NewSpace, WithRoot, Fits, At, Zeros;
      c := AllocTable(mem[kernelPml4]);
      if c == 0 {
        return;
      }
      ghost var more := spaces + {c};
      shape, spaces := WithRoot(shape, c), more;
      SpaceMade(a, Snap(), kernelPml4, old(spaces), c);
    }

    /** Releases the user pages a level-1 table maps. */
    method FreePages(pt: nat, ghost r: nat, ghost free0: set<nat>)
      requires pmm.Valid() && |mem| == P.MAX_FRAMES
      requires Owner(mem, shape, kernelPml4, r, spaces, free0) && IsTable(shape, pt, 1)
        && Below(mem, shape, kernelPml4, r, pt)
      requires PagesOf(mem, pt, ENTRIES) !! pmm.free
      modifies pmm, pmm.bitmap
      ensures pmm.Valid() && pmm.idleFrees == old(pmm.idleFrees)
      ensures pmm.free == old(pmm.free) + PagesOf(mem, pt, ENTRIES)
    {
      hide P.Agrees, Owner, Below, PagesOf;
      var i := 0;
      PagesStep(mem, pt, 0, At(mem, pt, 0));
      while i < ENTRIES
        invariant 0 <= i <= ENTRIES
        invariant pmm.Valid() && pmm.idleFrees == old(pmm.idleFrees)
        invariant pmm.free == old(pmm.free) + PagesOf(mem, pt, i)
      {
        var pte := At(mem, pt, i);
        PagesStep(mem, pt, i, pte);
        if pte.present && pte.user {
          PageOnce(mem, shape, kernelPml4, r, spaces, free0, pt, i);
          PagesReach(mem, pt, ENTRIES, i);
          FrameAddress(pte.frame);
          assert pte.frame !in pmm.free;
          pmm.FreeFrame(pte.frame * PAGE);
          Round(old(pmm.free), PagesOf(mem, pt, i), {}, pte.frame, PagesOf(mem, pt, i + 1));
        }
        i := i + 1;
      }
    }

    /** Releases everything below a page directory. */
    method FreePd(pd: nat, ghost r: nat, ghost free0: set<nat>)
      requires pmm.Valid() && |mem| == P.MAX_FRAMES
      requires Owner(mem, shape, kernelPml4, r, spaces, free0) && IsTable(shape, pd, 2)
        && Below(mem, shape, kernelPml4, r, pd)
      requires PdFrames(mem, pd, ENTRIES) !! pmm.free
      modifies pmm, pmm.bitmap
      ensures pmm.Valid() && pmm.idleFrees == old(pmm.idleFrees)
      ensures pmm.free == old(pmm.free) + PdFrames(mem, pd, ENTRIES)
    {
      hide P.Agrees, Owner, Below, PdFrames, PagesOf;
      var i := 0;
      PdStep(mem, pd, 0, At(mem, pd, 0));
      while i < ENTRIES
        invariant 0 <= i <= ENTRIES
        invariant pmm.Valid() && pmm.idleFrees == old(pmm.idleFrees)
        invariant pmm.free == old(pmm.free) + PdFrames(mem, pd, i)
      {
        var l2 := At(mem, pd, i);
        PdStep(mem, pd, i, l2);
        if l2.present && !l2.huge {
          PdOnce(mem, shape, kernelPml4, r, spaces, free0, pd, i);
          PdReach(mem, pd, ENTRIES, i);
          FreePages(l2.frame, r, free0);
          FrameAddress(l2.frame);
          assert l2.frame !in pmm.free;
          pmm.FreeFrame(l2.frame * PAGE);
          Round(old(pmm.free), PdFrames(mem, pd, i), PagesOf(mem, l2.frame, ENTRIES), l2.frame,
            PdFrames(mem, pd, i + 1));
        }
        i := i + 1;
      }
    }

    /** Releases everything below a level-3 table. */
    method FreePdpt(pdpt: nat, ghost r: nat, ghost free0: set<nat>)
      requires pmm.Valid() && |mem| == P.MAX_FRAMES
      requires Owner(mem, shape, kernelPml4, r, spaces, free0) && IsTable(shape, pdpt, 3)
        && Below(mem, shape, kernelPml4, r, pdpt)
      requires PdptFrames(mem, pdpt, ENTRIES) !! pmm.free
      modifies pmm, pmm.bitmap
      ensures pmm.Valid() && pmm.idleFrees == old(pmm.idleFrees)
      ensures pmm.free == old(pmm.free) + PdptFrames(mem, pdpt, ENTRIES)
    {
      hide P.Agrees, Owner, Below, PdFrames, PdptFrames;
      var i := 0;
      PdptStep(mem, pdpt, 0, At(mem, pdpt, 0));
      while i < ENTRIES
        invariant 0 <= i <= ENTRIES
        invariant pmm.Valid() && pmm.idleFrees == old(pmm.idleFrees)
        invariant pmm.free == old(pmm.free) + PdptFrames(mem, pdpt, i)
      {
        var l3 := At(mem, pdpt, i);
        PdptStep(mem, pdpt, i, l3);
        if l3.present {
          PdptOnce(mem, shape, kernelPml4, r, spaces, free0, pdpt, i);
          PdptReach(mem, pdpt, ENTRIES, i);
          FreePd(l3.frame, r, free0);
          FrameAddress(l3.frame);
          assert l3.frame !in pmm.free;
          pmm.FreeFrame(l3.frame * PAGE);
          Round(old(pmm.free), PdptFrames(mem, pdpt, i), PdFrames(mem, l3.frame, ENTRIES), l3.frame,
            PdptFrames(mem, pdpt, i + 1));
        }
        i := i + 1;
      }
    }

    /** Releases everything below the private branches of a root. */
    method FreePrivate(root: nat, ghost free0: set<nat>)
      requires pmm.Valid() && |mem| == P.MAX_FRAMES
      requires Owner(mem, shape, kernelPml4, root, spaces, free0)
      requires PrivateFrames(mem, kernelPml4, root, ENTRIES) !! pmm.free
      modifies pmm, pmm.bitmap
      ensures pmm.Valid() && pmm.idleFrees == old(pmm.idleFrees)
      ensures pmm.free == old(pmm.free) + PrivateFrames(mem, kernelPml4, root, ENTRIES)
    {
      hide P.Agrees, Owner, Below, PdptFrames, PrivateFrames;
      var i := 0;
      RootStep(mem, kernelPml4, root, 0, At(mem, root, 0));
      while i < ENTRIES
        invariant 0 <= i <= ENTRIES
        invariant pmm.Valid() && pmm.idleFrees == old(pmm.idleFrees)
        invariant pmm.free == old(pmm.free) + PrivateFrames(mem, kernelPml4, root, i)
      {
        var l4 := At(mem, root, i);
        RootStep(mem, kernelPml4, root, i, l4);
        if l4.present && l4 != At(mem, kernelPml4, i) {
          RootOnce(mem, shape, kernelPml4, root, spaces, free0, i);
          RootReach(mem, kernelPml4, root, ENTRIES, i);
          FreePdpt(l4.frame, root, free0);
          FrameAddress(l4.frame);
          assert l4.frame !in pmm.free;
          pmm.FreeFrame(l4.frame * PAGE);
          Round(old(pmm.free), PrivateFrames(mem, kernelPml4, root, i), PdptFrames(mem, l4.frame, ENTRIES), l4.frame,
                PrivateFrames(mem, kernelPml4, root, i + 1));
        }
        i := i + 1;
      }
    }

    /** Releases the frames of a space, its root last. */
    method ReleaseSpace(root: nat)
      requires Core() && SpacesOk(mem, shape, kernelPml4, spaces, pmm.free) && root in spaces
      modifies pmm, pmm.bitmap
      ensures pmm.Valid() && pmm.idleFrees == old(pmm.idleFrees)
      ensures pmm.free == old(pmm.free) + Owned(mem, shape, kernelPml4, root)
    {
      ghost var free0 := pmm.free;
      OwnedIsHeld(Snap(), kernelPml4, root, spaces);
      ghost var below := PrivateFrames(mem, kernelPml4, root, ENTRIES);
      hide P.Agrees, Owner, PrivateFrames, Owned, Sound, SpacesOk;
      FreePrivate(root, free0);
      FrameAddress(root);
      assert root !in pmm.free;
      pmm.FreeFrame(root * PAGE);
      LastRound(free0, below, root, Owned(mem, shape, kernelPml4, root));
    }

    /** The space disappears from the bookkeeping as its frames are released. */
    method DropSpace(root: nat)
      requires Valid() && root in spaces
      modifies this`shape, this`spaces, pmm, pmm.bitmap
      ensures Valid() && pmm.idleFrees == old(pmm.idleFrees)
      ensures spaces == old(spaces) - {root}
      ensures TornDown(old(Snap()), Snap(), kernelPml4, root, spaces)
    {
      ghost var a := Snap();
      hide P.Agrees, Sound, SpacesOk, Owned, OwnedTables, TornDown, Without;
      ReleaseSpace(root);
      ghost var fewer := spaces - {root};
      shape, spaces := Without(shape, OwnedTables(mem, shape, kernelPml4, root)), fewer;
      Dropped(a, Snap(), kernelPml4, root, old(spaces));
    }

    /** Tears an address space down. Exactly the frames it owned become free, no
        frame is released twice, and the other spaces own what they did. */
    method DestroyAddressSpace(space: nat)
      requires Valid()
      requires space == 0 || FrameOf(space) == kernelPml4 || FrameOf(space) in spaces
      modifies this`shape, this`spaces, pmm, pmm.bitmap
      ensures Valid() && pmm.idleFrees == old(pmm.idleFrees)
      ensures space == 0 || FrameOf(space) == kernelPml4 ==>
        && pmm.free == old(pmm.free) && spaces == old(spaces) && shape == old(shape)
      ensures space != 0 && FrameOf(space) != kernelPml4 ==>
        && spaces == old(spaces) - {FrameOf(space)}
        && TornDown(old(Snap()), Snap(), kernelPml4, FrameOf(space), spaces)
    {
      hide TornDown, Sound, SpacesOk, P.Agrees;
      if space == 0 || FrameOf(space) == kernelPml4 {
        return;
      }
      DropSpace(FrameOf(space));
    }

    /** The page-fault handler: grows a registered stack by one zeroed page. */
    method HandlePageFault(space: nat, address: nat, regions: seq<StackRegion>) returns (handled: bool)
      requires Valid() && FrameOf(space) in spaces
      modifies this`mem, this`bytes, this`shape, pmm, pmm.bitmap
      ensures Valid() && pmm.idleFrees == old(pmm.idleFrees)
      ensures Conserved(old(Snap()), Snap(), kernelPml4, spaces, FrameOf(space),
                        Tracked(old(Snap()), kernelPml4, spaces, FrameOf(space), PageOf(address)))
      ensures handled <==>
        && InStack(regions, space, address / PAGE * PAGE)
        && Walk(old(mem), FrameOf(space), PageOf(address)) == Unmapped
        && Missing(old(mem), FrameOf(space), PageOf(address)) < |old(pmm.free)|
      ensures Undisturbed(old(Snap()), Snap(), kernelPml4, spaces, spaces) && SameKernelTop(old(mem), mem, kernelPml4)
      ensures !handled ==> SameWalks(old(mem), mem, old(shape))
      ensures handled ==>
        exists frame :: frame in old(pmm.free) && frame < |mem| && bytes[frame] == seq(PAGE, _ => 0)
             && Remapped(old(mem), mem, old(shape), FrameOf(space), PageOf(address), Mapped(frame, true, true))
    {
      hide Undisturbed, Depth, SameKernelTop, P.Agrees, Sound, SpacesOk, Conserved, SameWalks, Remapped, Tracked;
      ghost var a := Snap();
      NothingMapped(a, a, kernelPml4, spaces, FrameOf(space), PageOf(address));
      NotDisturbed(a, kernelPml4, spaces);
      var page := address / PAGE * PAGE;
      OffsetInPage(address, page);
      var found := FindRegion(regions, space, page);
      if !found {
        return false;
      }
      var mapped := IsMappedIn(space, page);
      if mapped {
        return false;
      }
      ghost var frame: nat;
      handled, frame := MapFreshPage(space, page, true);
    }

    method FindRegion(regions: seq<StackRegion>, space: nat, page: nat) returns (found: bool)
      ensures found <==> InStack(regions, space, page)
    {
      var i := 0;
      while i < |regions|
        invariant 0 <= i <= |regions|
        invariant forall j :: 0 <= j < i ==> !Covers(regions[j], space, page)
      {
        if Covers(regions[i], space, page) {
          return true;
        }
        i := i + 1;
      }
      return false;
    }

    /** A whole process: its space is created, any addresses in slots the kernel
        does not use are given pages as they are first touched, and the space is
        torn down. Memory is exactly as before, however far any step got. */
    method ProcessLifetime(touched: seq<nat>)
      requires Valid()
      requires forall va :: va in touched ==> !At(mem, kernelPml4, PageOf(va).i4).present
      modifies this`mem, this`bytes, this`shape, this`spaces, pmm, pmm.bitmap
      ensures Valid() && spaces == old(spaces)
      ensures pmm.free == old(pmm.free) && pmm.idleFrees == old(pmm.idleFrees)
      ensures forall r :: r in spaces ==> Owned(mem, shape, kernelPml4, r) == Owned(old(mem), old(shape), kernelPml4, r)
    {
      ghost var a, before := Snap(), spaces;
      hide P.Agrees, Sound, SpacesOk, Owned, Remapped, SameWalks, TornDown, Living, Conserved, SameKernelTop, Tracked,
           NewSpace, At, Walk, PageOf, FrameOf;
      var space := CreateAddressSpace();
      if space == 0 {
        return;
      }
      ghost var root := FrameOf(space);
      LivingStart(a, Snap(), kernelPml4, before, root, touched);
      SpaceIsAddress(space);
      var i := 0;
      while i < |touched|
        invariant 0 <= i <= |touched|
        invariant Valid() && pmm.idleFrees == old(pmm.idleFrees)
        invariant spaces == before + {root}
        invariant Living(a, Snap(), kernelPml4, before, root, touched)
      {
        var mapped := IsMappedIn(space, touched[i]);
        if !mapped {
          ghost var b := Snap();
          ghost var done: bool, frame: nat;
          done, frame := MapFreshPage(space, touched[i], true);
          LivingStep(a, b, Snap(), kernelPml4, before, root, touched, touched[i]);
        }
        i := i + 1;
      }
      ghost var b := Snap();
      DestroyAddressSpace(space);
      LivingEnd(a, b, Snap(), kernelPml4, before, root, touched);
    }
  }

  /** A registered growable stack: pages in [limit, top) of one space. */
  datatype StackRegion = StackRegion(space: nat, top: nat, limit: nat)

  predicate Covers(region: StackRegion, space: nat, page: nat) {
    region.space == space && region.limit <= page < region.top
  }

  predicate InStack(regions: seq<StackRegion>, space: nat, page: nat) {
    exists i :: 0 <= i < |regions| && Covers(regions[i], space, page)
  }

  /** User code may touch the byte at virtual address b. */
  predicate UserByte(m: Mem, root: nat, b: nat) {
    var w := Walk(m, root, PageOf(b)); w.Mapped? && w.user
  }

  predicate UserBytes(m: Mem, root: nat, start: nat, end: nat) {
    forall b: nat :: start <= b < end ==> UserByte(m, root, b)
  }

  lemma SamePage(m: Mem, root: nat, page: nat)
    requires page % PAGE == 0
    ensures var w := Walk(m, root, PageOf(page));
      forall b: nat :: page <= b < page + PAGE ==> (UserByte(m, root, b) <==> w.Mapped? && w.user)
  {
    forall b: nat | page <= b < page + PAGE
      ensures PageOf(b) == PageOf(page)
    {
      OffsetInPage(page, b);
    }
  }
}
