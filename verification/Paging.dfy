/** The four-level page tables of kernel/mm/vmm.c as a tree in physical memory:
    the hardware walk (Intel SDM, volume 3A, sections 4.5 and 4.6.1), the
    well-formedness every operation keeps, and the memory transitions the
    operations are built from. */
module Paging {
  import opened Base

  const ENTRIES: nat := 512

  type Index = i: nat | i < ENTRIES witness 0

  datatype Entry = Entry(present: bool, writable: bool, user: bool, huge: bool, frame: nat)

  const ABSENT := Entry(false, false, false, false, 0)

  /** Physical memory, every frame seen as 512 entries. */
  type Mem = seq<seq<Entry>>

  /** A 4 KiB page of the virtual address space, by its four table indices. */
  datatype Page = Page(i4: Index, i3: Index, i2: Index, i1: Index)

  function PageOf(va: nat): Page {
    Page(va / 0x80_0000_0000 % ENTRIES, va / 0x4000_0000 % ENTRIES, va / 0x20_0000 % ENTRIES, va / PAGE % ENTRIES)
  }

  /** Below 2^48 the indices name the page number and nothing is lost. */
  lemma PageOfInjective(va: nat, vb: nat)
    requires va < 0x1_0000_0000_0000 && vb < 0x1_0000_0000_0000
    ensures PageOf(va) == PageOf(vb) <==> va / PAGE == vb / PAGE
  {
    Digits(va);
    Digits(vb);
  }

  /** Addresses of one 4 KiB page have the same indices. */
  lemma OffsetInPage(va: nat, vb: nat)
    requires va / PAGE == vb / PAGE
    ensures PageOf(va) == PageOf(vb)
  {
    assert va / 0x20_0000 == va / PAGE / 512 && vb / 0x20_0000 == vb / PAGE / 512;
    assert va / 0x4000_0000 == va / PAGE / 0x4_0000 && vb / 0x4000_0000 == vb / PAGE / 0x4_0000;
    assert va / 0x80_0000_0000 == va / PAGE / 0x800_0000 && vb / 0x80_0000_0000 == vb / PAGE / 0x800_0000;
  }

  lemma Digits(va: nat)
    requires va < 0x1_0000_0000_0000
    ensures var p := PageOf(va); va / PAGE == p.i4 * 0x800_0000 + p.i3 * 0x4_0000 + p.i2 * 512 + p.i1
  {
    var n := va / PAGE;
    assert va / 0x20_0000 == n / 512;
    assert va / 0x4000_0000 == n / 512 / 512;
    assert va / 0x80_0000_0000 == n / 512 / 512 / 512;
  }

  /** Entry i of frame f; frames that are not installed read as absent. */
  function At(m: Mem, f: nat, i: nat): Entry {
    if f < |m| && i < |m[f]| then m[f][i] else ABSENT
  }

  datatype Mapping = Unmapped | Mapped(frame: nat, writable: bool, user: bool)

  /** The hardware walk: the frame a page translates to and its effective
      rights, the conjunction of the rights on every level. */
  function Walk(m: Mem, root: nat, p: Page): Mapping {
    var e4 := At(m, root, p.i4);
    if !e4.present then Unmapped else
    var e3 := At(m, e4.frame, p.i3);
    if !e3.present then Unmapped else
    var e2 := At(m, e3.frame, p.i2);
    if !e2.present then Unmapped else
    if e2.huge then
      Mapped(e2.frame + p.i1, e4.writable && e3.writable && e2.writable, e4.user && e3.user && e2.user)
    else
      var e1 := At(m, e2.frame, p.i1);
      if !e1.present then Unmapped else
      Mapped(e1.frame, e4.writable && e3.writable && e2.writable && e1.writable,
             e4.user && e3.user && e2.user && e1.user)
  }

  /** The page-directory entry of a page, absent when a level above is. */
  function PdEntry(m: Mem, root: nat, p: Page): Entry {
    var e4 := At(m, root, p.i4);
    if !e4.present then ABSENT else
    var e3 := At(m, e4.frame, p.i3);
    if !e3.present then ABSENT else At(m, e3.frame, p.i2)
  }

  /** Where a walk finds its 4 KiB entry, when it gets that far. */
  datatype Slot = NoSlot | Slot(table: nat, index: nat)

  function SlotOf(m: Mem, root: nat, p: Page): Slot {
    var e4 := At(m, root, p.i4);
    if !e4.present then NoSlot else
    var e3 := At(m, e4.frame, p.i3);
    if !e3.present then NoSlot else
    var e2 := At(m, e3.frame, p.i2);
    if !e2.present || e2.huge then NoSlot else Slot(e2.frame, p.i1)
  }

  /** Which frames hold tables: the level of each (4 for a root) and the entry
      that points at it. A level-3 table can hang off several roots, always at
      the same index, so only the index of its link is meaningful. */
  datatype Shape = Shape(level: map<nat, nat>, up: map<nat, (nat, nat)>)

  predicate IsTable(sh: Shape, t: nat, level: nat) {
    t in sh.level && t in sh.up && sh.level[t] == level
  }

  predicate TablesOk(m: Mem, sh: Shape) {
    forall t :: t in sh.level ==> t < |m| && |m[t]| == ENTRIES && t in sh.up && 1 <= sh.level[t] <= 4
  }

  /** The user bit is set on the links from a level-1 table up to level 3. */
  predicate UserPath(m: Mem, sh: Shape, t: nat) {
    && t in sh.up
    && var (pd, i2) := sh.up[t];
       At(m, pd, i2).user && pd in sh.up && var (pdpt, i3) := sh.up[pd]; At(m, pdpt, i3).user
  }

  /** Entry i of table t points where its level says, with the rights the
      kernel gives to table links; a huge page is never user accessible. */
  predicate EntryOk(m: Mem, sh: Shape, t: nat, i: nat)
    requires t in sh.level
  {
    var e := At(m, t, i);
    e.present ==>
      if sh.level[t] == 4 then
        !e.huge && e.user && e.writable && IsTable(sh, e.frame, 3) && sh.up[e.frame].1 == i
      else if sh.level[t] == 3 then
        !e.huge && e.writable && IsTable(sh, e.frame, 2) && sh.up[e.frame] == (t, i)
      else if sh.level[t] == 2 then
        if e.huge then !e.user else e.writable && IsTable(sh, e.frame, 1) && sh.up[e.frame] == (t, i)
      else
        e.user ==> UserPath(m, sh, t)
  }

  /** Tables of levels 1 and 2 are linked from exactly where `up` says. */
  predicate LinkOk(m: Mem, sh: Shape, t: nat)
    requires t in sh.level
  {
    sh.level[t] <= 2 ==>
      && t in sh.up
      && var (u, i) := sh.up[t];
         && i < ENTRIES
         && IsTable(sh, u, sh.level[t] + 1)
         && At(m, u, i).present && !At(m, u, i).huge && At(m, u, i).frame == t
  }

  /** Two roots that share a top-level branch both have it from the kernel. */
  predicate ShareOk(m: Mem, sh: Shape, k: nat, r: nat, s: nat, i: nat) {
    && At(m, r, i).present && At(m, s, i).present && At(m, r, i).frame == At(m, s, i).frame
    ==> At(m, k, i) == At(m, r, i)
  }

  ghost predicate WellFormed(m: Mem, sh: Shape, k: nat) {
    && TablesOk(m, sh)
    && IsTable(sh, k, 4)
    && (forall t, i: nat :: t in sh.level && i < ENTRIES ==> EntryOk(m, sh, t, i))
    && (forall t :: t in sh.level ==> LinkOk(m, sh, t))
    && (forall r, s, i: nat :: IsTable(sh, r, 4) && IsTable(sh, s, 4) && r != s && i < ENTRIES ==>
      ShareOk(m, sh, k, r, s, i))
  }

  predicate Facts4(m: Mem, sh: Shape, r: nat, p: Page) {
    var e := At(m, r, p.i4);
    e.present ==>
      && e.writable && e.user
      && IsTable(sh, e.frame, 3) && sh.up[e.frame].1 == p.i4 && EntryOk(m, sh, e.frame, p.i3)
      && Facts3(m, sh, e.frame, p)
  }

  predicate Facts3(m: Mem, sh: Shape, t: nat, p: Page) {
    var e := At(m, t, p.i3);
    e.present ==>
      && e.writable
      && IsTable(sh, e.frame, 2) && sh.up[e.frame] == (t, p.i3) && EntryOk(m, sh, e.frame, p.i2)
      && Facts2(m, sh, e.frame, p)
  }

  predicate Facts2(m: Mem, sh: Shape, t: nat, p: Page) {
    var e := At(m, t, p.i2);
    e.present && !e.huge ==>
      && e.writable
      && IsTable(sh, e.frame, 1) && sh.up[e.frame] == (t, p.i2) && EntryOk(m, sh, e.frame, p.i1)
  }

  /** The facts a walk meets on its way down in well-formed memory. */
  lemma WalkFacts(m: Mem, sh: Shape, k: nat, r: nat, p: Page)
    requires WellFormed(m, sh, k) && IsTable(sh, r, 4)
    ensures Facts4(m, sh, r, p)
  {
    assert EntryOk(m, sh, r, p.i4);
    var e4 := At(m, r, p.i4);
    if e4.present {
      assert EntryOk(m, sh, e4.frame, p.i3);
      var e3 := At(m, e4.frame, p.i3);
      if e3.present {
        assert EntryOk(m, sh, e3.frame, p.i2);
        var e2 := At(m, e3.frame, p.i2);
        if e2.present && !e2.huge {
          assert EntryOk(m, sh, e2.frame, p.i1);
        }
      }
    }
  }

  /** In well-formed memory the rights of a page are those of its own entry. */
  lemma LeafRights(m: Mem, sh: Shape, k: nat, r: nat, p: Page)
    requires WellFormed(m, sh, k) && IsTable(sh, r, 4) && SlotOf(m, r, p).Slot?
    ensures var s := SlotOf(m, r, p); var e := At(m, s.table, s.index);
      Walk(m, r, p) == if e.present then Mapped(e.frame, e.writable, e.user) else Unmapped
  {
    WalkFacts(m, sh, k, r, p);
  }

  /** No two pages share a table entry, whichever roots they are reached from. */
  lemma SlotUnique(m: Mem, sh: Shape, k: nat, r: nat, p: Page, s: nat, q: Page)
    requires WellFormed(m, sh, k) && IsTable(sh, r, 4) && IsTable(sh, s, 4)
    requires SlotOf(m, r, p).Slot? && SlotOf(m, r, p) == SlotOf(m, s, q)
    ensures p == q && At(m, r, p.i4).frame == At(m, s, q.i4).frame
  {
    WalkFacts(m, sh, k, r, p);
    WalkFacts(m, sh, k, s, q);
  }

  // ---------------------------------------------------------------------------
  // The memory transitions

  function Store(m: Mem, t: nat, i: nat, e: Entry): Mem
    requires t < |m| && i < |m[t]|
  {
    m[t := m[t][i := e]]
  }

  function Zeros(): (row: seq<Entry>)
    ensures |row| == ENTRIES
  {
    seq(ENTRIES, _ => ABSENT)
  }

  /** The 512 small entries that replace a 2 MiB entry. */
  function SplitRow(e: Entry): (row: seq<Entry>)
    ensures |row| == ENTRIES
  {
    seq(ENTRIES, (i: nat) => Entry(true, e.writable, false, false, e.frame + i))
  }

  function TableLink(c: nat): Entry {
    Entry(true, true, true, false, c)
  }

  /** Frame c gets `row` as its contents and is hung at entry i of table t. */
  function Hang(m: Mem, t: nat, i: nat, c: nat, row: seq<Entry>): Mem
    requires t < |m| && c < |m| && t != c && i < |m[t]|
  {
    Store(m[c := row], t, i, TableLink(c))
  }

  function Grow(sh: Shape, t: nat, i: nat, c: nat): Shape
    requires t in sh.level && sh.level[t] >= 1
  {
    Shape(sh.level[c := sh.level[t] - 1], sh.up[c := (t, i)])
  }

  ghost predicate CanHang(m: Mem, sh: Shape, k: nat, t: nat, i: nat, c: nat) {
    && WellFormed(m, sh, k)
    && t in sh.level && sh.level[t] >= 2 && i < ENTRIES
    && c < |m| && c !in sh.level
  }

  ghost predicate SameWalks(m: Mem, m': Mem, sh: Shape) {
    forall r, p :: IsTable(sh, r, 4) ==> Walk(m', r, p) == Walk(m, r, p)
  }

  /** (a) Linking an empty table at an absent entry. */
  lemma LinkKeeps(m: Mem, sh: Shape, k: nat, t: nat, i: nat, c: nat)
    requires CanHang(m, sh, k, t, i, c) && !At(m, t, i).present
    ensures WellFormed(Hang(m, t, i, c, Zeros()), Grow(sh, t, i, c), k)
    ensures SameWalks(m, Hang(m, t, i, c, Zeros()), sh)
  {
    var m', sh' := Hang(m, t, i, c, Zeros()), Grow(sh, t, i, c);
    HangTables(m, sh, k, t, i, c, Zeros());
    forall u, j: nat | u in sh'.level && j < ENTRIES
      ensures EntryOk(m', sh', u, j)
    {
      if u != c {
        HangEntry(m, sh, k, t, i, c, Zeros(), u, j);
      }
    }
    LinkWalks(m, sh, k, t, i, c);
  }

  lemma LinkWalks(m: Mem, sh: Shape, k: nat, t: nat, i: nat, c: nat)
    requires CanHang(m, sh, k, t, i, c) && !At(m, t, i).present
    ensures SameWalks(m, Hang(m, t, i, c, Zeros()), sh)
  {
    var m' := Hang(m, t, i, c, Zeros());
    forall r, p | IsTable(sh, r, 4)
      ensures Walk(m', r, p) == Walk(m, r, p)
    {
      WalkFacts(m, sh, k, r, p);
    }
  }

  /** (b) Splitting a 2 MiB entry into an equivalent table of 4 KiB entries. */
  lemma SplitKeeps(m: Mem, sh: Shape, k: nat, t: nat, i: nat, c: nat)
    requires CanHang(m, sh, k, t, i, c) && sh.level[t] == 2 && At(m, t, i).present && At(m, t, i).huge
    ensures WellFormed(Hang(m, t, i, c, SplitRow(At(m, t, i))), Grow(sh, t, i, c), k)
    ensures SameWalks(m, Hang(m, t, i, c, SplitRow(At(m, t, i))), sh)
  {
    var row := SplitRow(At(m, t, i));
    var m', sh' := Hang(m, t, i, c, row), Grow(sh, t, i, c);
    assert EntryOk(m, sh, t, i);
    HangTables(m, sh, k, t, i, c, row);
    forall u, j: nat | u in sh'.level && j < ENTRIES
      ensures EntryOk(m', sh', u, j)
    {
      if u != c {
        HangEntry(m, sh, k, t, i, c, row, u, j);
      }
    }
    SplitWalks(m, sh, k, t, i, c);
  }

  lemma SplitWalks(m: Mem, sh: Shape, k: nat, t: nat, i: nat, c: nat)
    requires CanHang(m, sh, k, t, i, c) && sh.level[t] == 2 && At(m, t, i).present && At(m, t, i).huge
    ensures SameWalks(m, Hang(m, t, i, c, SplitRow(At(m, t, i))), sh)
  {
    var m' := Hang(m, t, i, c, SplitRow(At(m, t, i)));
    assert EntryOk(m, sh, t, i);
    forall r, p | IsTable(sh, r, 4)
      ensures Walk(m', r, p) == Walk(m, r, p)
    {
      WalkFacts(m, sh, k, r, p);
    }
  }

  /** Hanging a table disturbs no other entry, link or sharing. */
  lemma HangTables(m: Mem, sh: Shape, k: nat, t: nat, i: nat, c: nat, row: seq<Entry>)
    requires CanHang(m, sh, k, t, i, c) && |row| == ENTRIES
    requires At(m, t, i).present ==> sh.level[t] == 2 && At(m, t, i).huge
    ensures var m', sh' := Hang(m, t, i, c, row), Grow(sh, t, i, c);
      && TablesOk(m', sh') && IsTable(sh', k, 4)
      && (forall u :: u in sh'.level ==> LinkOk(m', sh', u))
      && (forall r, s, j: nat :: IsTable(sh', r, 4) && IsTable(sh', s, 4) && r != s && j < ENTRIES ==>
        ShareOk(m', sh', k, r, s, j))
  {
    var m', sh' := Hang(m, t, i, c, row), Grow(sh, t, i, c);
    assert forall u, j :: u != c && (u != t || j != i) ==> At(m', u, j) == At(m, u, j);
    forall u | u in sh'.level
      ensures LinkOk(m', sh', u)
    {
      if u != c {
        assert LinkOk(m, sh, u);
        assert At(m', sh.up[u].0, sh.up[u].1) == At(m, sh.up[u].0, sh.up[u].1) || sh.level[u] > 2;
      }
    }
    HangShares(m, sh, k, t, i, c, row);
  }

  lemma HangShares(m: Mem, sh: Shape, k: nat, t: nat, i: nat, c: nat, row: seq<Entry>)
    requires CanHang(m, sh, k, t, i, c) && |row| == ENTRIES
    requires At(m, t, i).present ==> sh.level[t] == 2 && At(m, t, i).huge
    ensures var m', sh' := Hang(m, t, i, c, row), Grow(sh, t, i, c);
      forall r, s, j: nat :: IsTable(sh', r, 4) && IsTable(sh', s, 4) && r != s && j < ENTRIES ==>
        ShareOk(m', sh', k, r, s, j)
  {
    var m', sh' := Hang(m, t, i, c, row), Grow(sh, t, i, c);
    assert forall u, j :: u != c && (u != t || j != i) ==> At(m', u, j) == At(m, u, j);
    forall r, s, j: nat | IsTable(sh', r, 4) && IsTable(sh', s, 4) && r != s && j < ENTRIES
      ensures ShareOk(m', sh', k, r, s, j)
    {
      assert ShareOk(m, sh, k, r, s, j) && ShareOk(m, sh, k, s, r, j);
      assert EntryOk(m, sh, r, j) && EntryOk(m, sh, s, j);
    }
  }

  lemma HangEntry(m: Mem, sh: Shape, k: nat, t: nat, i: nat, c: nat, row: seq<Entry>, u: nat, j: nat)
    requires CanHang(m, sh, k, t, i, c) && |row| == ENTRIES
    requires At(m, t, i).present ==> sh.level[t] == 2 && At(m, t, i).huge
    requires u in sh.level && j < ENTRIES
    ensures EntryOk(Hang(m, t, i, c, row), Grow(sh, t, i, c), u, j)
  {
    var m', sh' := Hang(m, t, i, c, row), Grow(sh, t, i, c);
    assert forall v, l :: v != c && (v != t || l != i) ==> At(m', v, l) == At(m, v, l);
    assert EntryOk(m, sh, u, j);
    if u == t && j == i {
    } else if sh.level[u] == 1 && At(m, u, j).present && At(m, u, j).user {
      assert LinkOk(m, sh, u);
      var (pd, i2) := sh.up[u];
      assert LinkOk(m, sh, pd);
      var (pdpt, i3) := sh.up[pd];
      assert At(m', pd, i2) == At(m, pd, i2) && At(m', pdpt, i3) == At(m, pdpt, i3);
    }
  }

  /** (c) Setting the user bit on a table link. */
  lemma SetUserKeeps(m: Mem, sh: Shape, k: nat, t: nat, i: nat)
    requires WellFormed(m, sh, k) && t in sh.level && sh.level[t] >= 2 && i < ENTRIES
    requires At(m, t, i).present && !At(m, t, i).huge
    ensures WellFormed(Store(m, t, i, At(m, t, i).(user := true)), sh, k)
    ensures SameWalks(m, Store(m, t, i, At(m, t, i).(user := true)), sh)
  {
    var m' := Store(m, t, i, At(m, t, i).(user := true));
    assert EntryOk(m, sh, t, i);
    assert forall u, j :: u != t || j != i ==> At(m', u, j) == At(m, u, j);
    forall u, j: nat | u in sh.level && j < ENTRIES
      ensures EntryOk(m', sh, u, j)
    {
      assert EntryOk(m, sh, u, j);
      if sh.level[u] == 1 && At(m, u, j).present && At(m, u, j).user {
        var (pd, i2) := sh.up[u];
        var (pdpt, i3) := sh.up[pd];
        assert At(m', pd, i2).user && At(m', pdpt, i3).user;
      }
    }
    forall u | u in sh.level
      ensures LinkOk(m', sh, u)
    {
      assert LinkOk(m, sh, u);
      assert sh.level[u] <= 2 ==> At(m', sh.up[u].0, sh.up[u].1).frame == At(m, sh.up[u].0, sh.up[u].1).frame;
    }
    forall r, s, j: nat | IsTable(sh, r, 4) && IsTable(sh, s, 4) && r != s && j < ENTRIES
      ensures ShareOk(m', sh, k, r, s, j)
    {
      assert ShareOk(m, sh, k, r, s, j);
    }
    SetUserWalks(m, sh, k, t, i);
  }

  lemma SetUserWalks(m: Mem, sh: Shape, k: nat, t: nat, i: nat)
    requires WellFormed(m, sh, k) && t in sh.level && sh.level[t] >= 2 && i < ENTRIES
    requires At(m, t, i).present && !At(m, t, i).huge
    ensures SameWalks(m, Store(m, t, i, At(m, t, i).(user := true)), sh)
  {
    var m' := Store(m, t, i, At(m, t, i).(user := true));
    assert EntryOk(m, sh, t, i);
    forall r, p | IsTable(sh, r, 4)
      ensures Walk(m', r, p) == Walk(m, r, p)
    {
      WalkFacts(m, sh, k, r, p);
    }
  }

  /** (d) Writing a 4 KiB entry. */
  lemma SetLeafKeeps(m: Mem, sh: Shape, k: nat, t: nat, i: nat, e: Entry)
    requires WellFormed(m, sh, k) && IsTable(sh, t, 1) && i < ENTRIES
    requires e.present && e.user ==> UserPath(m, sh, t)
    ensures WellFormed(Store(m, t, i, e), sh, k)
    ensures forall r, p :: IsTable(sh, r, 4) ==>
      SlotOf(Store(m, t, i, e), r, p) == SlotOf(m, r, p)
    ensures forall r, p :: IsTable(sh, r, 4) && SlotOf(m, r, p) != Slot(t, i) ==>
      Walk(Store(m, t, i, e), r, p) == Walk(m, r, p)
  {
    var m' := Store(m, t, i, e);
    assert forall u, j :: u != t || j != i ==> At(m', u, j) == At(m, u, j);
    forall u, j: nat | u in sh.level && j < ENTRIES
      ensures EntryOk(m', sh, u, j)
    {
      assert EntryOk(m, sh, u, j);
      if sh.level[u] == 1 {
        assert LinkOk(m, sh, u);
        var (pd, i2) := sh.up[u];
        assert LinkOk(m, sh, pd);
      }
    }
    forall u | u in sh.level
      ensures LinkOk(m', sh, u)
    {
      assert LinkOk(m, sh, u);
    }
    forall r, s, j: nat | IsTable(sh, r, 4) && IsTable(sh, s, 4) && r != s && j < ENTRIES
      ensures ShareOk(m', sh, k, r, s, j)
    {
      assert ShareOk(m, sh, k, r, s, j);
    }
    forall r, p | IsTable(sh, r, 4)
      ensures SlotOf(m', r, p) == SlotOf(m, r, p)
      ensures SlotOf(m, r, p) != Slot(t, i) ==> Walk(m', r, p) == Walk(m, r, p)
    {
      WalkFacts(m, sh, k, r, p);
    }
  }

  /** Page directory entries are the same; (a) and (c) on the upper levels. */
  ghost predicate SamePd(m: Mem, m': Mem, sh: Shape) {
    forall r, p :: IsTable(sh, r, 4) ==> PdEntry(m', r, p) == PdEntry(m, r, p)
  }

  lemma LinkPd(m: Mem, sh: Shape, k: nat, t: nat, i: nat, c: nat)
    requires CanHang(m, sh, k, t, i, c) && !At(m, t, i).present && sh.level[t] >= 3
    ensures SamePd(m, Hang(m, t, i, c, Zeros()), sh)
  {
    var m' := Hang(m, t, i, c, Zeros());
    forall r, p | IsTable(sh, r, 4)
      ensures PdEntry(m', r, p) == PdEntry(m, r, p)
    {
      WalkFacts(m, sh, k, r, p);
    }
  }

  lemma SetUserPd(m: Mem, sh: Shape, k: nat, t: nat, i: nat)
    requires WellFormed(m, sh, k) && t in sh.level && sh.level[t] >= 3 && i < ENTRIES
    ensures SamePd(m, Store(m, t, i, At(m, t, i).(user := true)), sh)
  {
    var m' := Store(m, t, i, At(m, t, i).(user := true));
    forall r, p | IsTable(sh, r, 4)
      ensures PdEntry(m', r, p) == PdEntry(m, r, p)
    {
      WalkFacts(m, sh, k, r, p);
    }
  }

  /** Pages p and q are in the same 2 MiB. */
  predicate SameDir(p: Page, q: Page) {
    p.i4 == q.i4 && p.i3 == q.i3 && p.i2 == q.i2
  }

  /** The page directory entry of q in root r is entry q.i2 of table t. */
  predicate DirAt(m: Mem, r: nat, q: Page, t: nat) {
    && At(m, r, q.i4).present
    && var e3 := At(m, At(m, r, q.i4).frame, q.i3);
       e3.present && e3.frame == t
  }

  /** (e) Filling an absent page directory entry with a 2 MiB kernel page. */
  lemma SetHugeKeeps(m: Mem, sh: Shape, k: nat, t: nat, i: nat, e: Entry)
    requires WellFormed(m, sh, k) && IsTable(sh, t, 2) && i < ENTRIES
    requires !At(m, t, i).present && e.present && e.huge && !e.user
    ensures WellFormed(Store(m, t, i, e), sh, k)
  {
    var m' := Store(m, t, i, e);
    assert forall u, j :: u != t || j != i ==> At(m', u, j) == At(m, u, j);
    forall u, j: nat | u in sh.level && j < ENTRIES
      ensures EntryOk(m', sh, u, j)
    {
      assert EntryOk(m, sh, u, j);
      if sh.level[u] == 1 {
        assert LinkOk(m, sh, u);
        assert LinkOk(m, sh, sh.up[u].0);
      }
    }
    forall u | u in sh.level
      ensures LinkOk(m', sh, u)
    {
      assert LinkOk(m, sh, u);
      assert sh.level[u] <= 2 ==> sh.up[u] != (t, i) && At(m', sh.up[u].0, sh.up[u].1) == At(m, sh.up[u].0, sh.up[u].1);
    }
    forall r, s, j: nat | IsTable(sh, r, 4) && IsTable(sh, s, 4) && r != s && j < ENTRIES
      ensures ShareOk(m', sh, k, r, s, j)
    {
      assert ShareOk(m, sh, k, r, s, j);
    }
  }

  /** The 512 pages below that entry are mapped, all others stay. */
  lemma SetHugeWalks(m: Mem, sh: Shape, k: nat, r: nat, q: Page, t: nat, e: Entry)
    requires WellFormed(m, sh, k) && IsTable(sh, r, 4) && IsTable(sh, t, 2) && DirAt(m, r, q, t)
    requires !At(m, t, q.i2).present && e.present && e.huge && !e.user
    ensures var m' := Store(m, t, q.i2, e); forall p ::
      && PdEntry(m', r, p) == (if SameDir(p, q) then e else PdEntry(m, r, p))
      && Walk(m', r, p) == (if SameDir(p, q) then Mapped(e.frame + p.i1, e.writable, false) else Walk(m, r, p))
  {
    var m' := Store(m, t, q.i2, e);
    WalkFacts(m, sh, k, r, q);
    forall p
      ensures PdEntry(m', r, p) == (if SameDir(p, q) then e else PdEntry(m, r, p))
      ensures Walk(m', r, p) == (if SameDir(p, q) then Mapped(e.frame + p.i1, e.writable, false) else Walk(m, r, p))
    {
      WalkFacts(m, sh, k, r, p);
    }
  }

  // ---------------------------------------------------------------------------
  // How far down a walk finds tables

  /** The number of tables below the root that the walk to page p meets. */
  function Depth(m: Mem, root: nat, p: Page): (d: nat)
    ensures d <= 3
  {
    var e4 := At(m, root, p.i4);
    if !e4.present then 0 else
    var e3 := At(m, e4.frame, p.i3);
    if !e3.present then 1 else
    var e2 := At(m, e3.frame, p.i2);
    if !e2.present || e2.huge then 2 else 3
  }

  /** The number of tables that a mapping of page p has to add. */
  function Missing(m: Mem, root: nat, p: Page): nat {
    3 - Depth(m, root, p)
  }

  /** The number of leading indices that two pages share, down to the directory. */
  function Common(p: Page, q: Page): nat {
    if p.i4 != q.i4 then 0 else if p.i3 != q.i3 then 1 else if p.i2 != q.i2 then 2 else 3
  }

  function Max(a: nat, b: nat): nat {
    if a < b then b else a
  }

  function Min(a: nat, b: nat): nat {
    if a < b then a else b
  }

  /** The table d steps below the root on the way to p, and the index used there. */
  function TableOn(m: Mem, root: nat, p: Page, d: nat): nat {
    if d == 0 then root
    else if d == 1 then At(m, root, p.i4).frame
    else At(m, At(m, root, p.i4).frame, p.i3).frame
  }

  function IndexOn(p: Page, d: nat): Index {
    if d == 0 then p.i4 else if d == 1 then p.i3 else p.i2
  }

  /** From m to m' the path to page p was built down to depth d, and nothing else. */
  ghost predicate Deeper(m: Mem, m': Mem, root: nat, p: Page, d: nat) {
    forall q :: Depth(m', root, q) == Max(Depth(m, root, q), Min(d, Common(p, q)))
  }

  /** Level-1 tables that a walk found it still finds. */
  ghost predicate SlotsStay(m: Mem, m': Mem, sh: Shape) {
    forall r, q :: IsTable(sh, r, 4) && SlotOf(m, r, q).Slot? ==> SlotOf(m', r, q) == SlotOf(m, r, q)
  }

  lemma HangDepth(m: Mem, sh: Shape, k: nat, root: nat, p: Page, d: nat, c: nat, row: seq<Entry>, q: Page)
    requires d <= 2 && IsTable(sh, root, 4) && Depth(m, root, p) == d
    requires CanHang(m, sh, k, TableOn(m, root, p, d), IndexOn(p, d), c) && (d < 2 ==> row == Zeros())
    ensures Depth(Hang(m, TableOn(m, root, p, d), IndexOn(p, d), c, row), root, q) ==
      if Common(p, q) > d then d + 1 else Depth(m, root, q)
  {
    WalkFacts(m, sh, k, root, p);
    WalkFacts(m, sh, k, root, q);
  }

  lemma HangSlots(m: Mem, sh: Shape, k: nat, t: nat, i: nat, c: nat, row: seq<Entry>)
    requires CanHang(m, sh, k, t, i, c) && (!At(m, t, i).present || (sh.level[t] == 2 && At(m, t, i).huge))
    ensures SlotsStay(m, Hang(m, t, i, c, row), sh)
  {
    var m' := Hang(m, t, i, c, row);
    forall r, q | IsTable(sh, r, 4) && SlotOf(m, r, q).Slot?
      ensures SlotOf(m', r, q) == SlotOf(m, r, q)
    {
      WalkFacts(m, sh, k, r, q);
    }
  }

  /** Setting the user bit of a link leaves all paths as they are. */
  lemma SetUserDepth(m: Mem, sh: Shape, k: nat, t: nat, i: nat)
    requires WellFormed(m, sh, k) && t in sh.level && sh.level[t] >= 2 && i < ENTRIES
    ensures var m' := Store(m, t, i, At(m, t, i).(user := true));
      SlotsStay(m, m', sh) && forall r, q :: IsTable(sh, r, 4) ==> Depth(m', r, q) == Depth(m, r, q)
  {
    var m' := Store(m, t, i, At(m, t, i).(user := true));
    forall r, q | IsTable(sh, r, 4)
      ensures SlotOf(m', r, q) == SlotOf(m, r, q) && Depth(m', r, q) == Depth(m, r, q)
    {
      WalkFacts(m, sh, k, r, q);
    }
  }

  /** So does writing a 4 KiB entry. */
  lemma SetLeafDepth(m: Mem, sh: Shape, k: nat, t: nat, i: nat, e: Entry)
    requires WellFormed(m, sh, k) && IsTable(sh, t, 1) && i < ENTRIES
    ensures var m' := Store(m, t, i, e);
      SlotsStay(m, m', sh) && forall r, q :: IsTable(sh, r, 4) ==> Depth(m', r, q) == Depth(m, r, q)
  {
    var m' := Store(m, t, i, e);
    forall r, q | IsTable(sh, r, 4)
      ensures SlotOf(m', r, q) == SlotOf(m, r, q) && Depth(m', r, q) == Depth(m, r, q)
    {
      WalkFacts(m, sh, k, r, q);
    }
  }

  /** One more table on the way to p. */
  lemma DeeperNext(m: Mem, m1: Mem, m2: Mem, root: nat, p: Page, d: nat)
    requires Deeper(m, m1, root, p, d) && Depth(m1, root, p) == d
    requires forall q :: Depth(m2, root, q) == if Common(p, q) > d then d + 1 else Depth(m1, root, q)
    ensures Deeper(m, m2, root, p, d + 1)
  {
    hide Depth;
    forall q
      ensures Depth(m2, root, q) == Max(Depth(m, root, q), Min(d + 1, Common(p, q)))
    {
      SharedDepth(m1, root, p, q);
    }
  }

  /** A page that shares more indices than the depth of p has the depth of p. */
  lemma SharedDepth(m: Mem, root: nat, p: Page, q: Page)
    ensures Depth(m, root, q) >= Min(Depth(m, root, p), Common(p, q))
    ensures Common(p, q) > Depth(m, root, p) ==> Depth(m, root, q) == Depth(m, root, p)
  {
  }
}
