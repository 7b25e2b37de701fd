/** Ownership of frames by address spaces: which tables hang only off one root,
    which frames they map for user code, and how the transitions of the page
    tables change that. Process address spaces share the kernel's top-level
    branches and own the rest (kernel/mm/vmm.c:284-346). */
module Spaces {
  import opened Paging

  /** The level-3 table above table t. */
  function Top(sh: Shape, t: nat): nat
    requires t in sh.level
  {
    if sh.level[t] == 2 && t in sh.up then sh.up[t].0
    else if sh.level[t] == 1 && t in sh.up && sh.up[t].0 in sh.up then sh.up[sh.up[t].0].0
    else t
  }

  /** The branch at entry i of root r is not the kernel's. */
  predicate Private(m: Mem, k: nat, r: nat, i: nat) {
    At(m, r, i).present && At(m, r, i) != At(m, k, i)
  }

  /** Table t is below a private branch of root r. */
  predicate Below(m: Mem, sh: Shape, k: nat, r: nat, t: nat)
    requires t in sh.level
  {
    && sh.level[t] <= 3
    && var top := Top(sh, t);
       top in sh.up && Private(m, k, r, sh.up[top].1) && At(m, r, sh.up[top].1).frame == top
  }

  function OwnedTables(m: Mem, sh: Shape, k: nat, r: nat): set<nat> {
    set t | t in sh.level && (t == r || Below(m, sh, k, r, t))
  }

  predicate UserAt(m: Mem, t: nat, i: nat) {
    At(m, t, i).present && At(m, t, i).user
  }

  /** Entry i of table t is a user mapping that root r owns. */
  predicate OwnedSlot(m: Mem, sh: Shape, k: nat, r: nat, t: nat, i: nat) {
    t in sh.level && sh.level[t] == 1 && i < ENTRIES && Below(m, sh, k, r, t) && UserAt(m, t, i)
  }

  function OwnedPages(m: Mem, sh: Shape, k: nat, r: nat): set<nat> {
    set t, i: nat | t in sh.level && i < ENTRIES && OwnedSlot(m, sh, k, r, t, i) :: At(m, t, i).frame
  }

  /** Every frame that dies with address space r. */
  function Owned(m: Mem, sh: Shape, k: nat, r: nat): set<nat> {
    OwnedTables(m, sh, k, r) + OwnedPages(m, sh, k, r)
  }

  /** A frame mapped for user code is allocated and is not a table. */
  predicate PageOk(m: Mem, sh: Shape, free: set<nat>, t: nat, i: nat) {
    var f := At(m, t, i).frame;
    0 < f < |m| && f !in free && f !in sh.level
  }

  /** The discipline of process address spaces: user frames are allocated, are
      no tables, and are mapped once over all spaces. */
  ghost predicate SpacesOk(m: Mem, sh: Shape, k: nat, spaces: set<nat>, free: set<nat>) {
    && (forall r :: r in spaces ==> r != k && IsTable(sh, r, 4))
    && (forall r, t, i :: r in spaces && OwnedSlot(m, sh, k, r, t, i) ==> PageOk(m, sh, free, t, i))
    && (forall r, t, i, s, u, j ::
          r in spaces && s in spaces && OwnedSlot(m, sh, k, r, t, i) && OwnedSlot(m, sh, k, s, u, j) ==>
          MappedOnce(m, t, i, u, j))
  }

  predicate MappedOnce(m: Mem, t: nat, i: nat, u: nat, j: nat) {
    At(m, t, i).frame == At(m, u, j).frame ==> t == u && i == j
  }

  /** Two top-level entries filled since m do not point at the same table. */
  predicate NewLinkOnce(m: Mem, m': Mem, r: nat, i: nat, s: nat, j: nat) {
    && !At(m, r, i).present && At(m', r, i).present && !At(m, s, j).present && At(m', s, j).present
    && At(m', r, i).frame == At(m', s, j).frame
    ==> r == s && i == j
  }

  /** What building the path to a page does: tables are only added, top-level
      entries in use stay, and existing 4 KiB entries are not touched. */
  ghost predicate Extended(m: Mem, sh: Shape, m': Mem, sh': Shape) {
    && |m'| == |m|
    && (forall t :: t in sh.level ==> t in sh'.level && sh'.level[t] == sh.level[t])
    && (forall t :: t in sh.up && t in sh.level ==> t in sh'.up && sh'.up[t] == sh.up[t])
    && (forall t :: t in sh'.level && t !in sh.level ==> sh'.level[t] <= 3)
    && (forall r, i :: IsTable(sh, r, 4) && At(m, r, i).present ==> At(m', r, i) == At(m, r, i))
    && (forall r, i :: IsTable(sh, r, 4) && !At(m, r, i).present && At(m', r, i).present ==>
      At(m', r, i).frame !in sh.level)
    && (forall r, i, s, j :: IsTable(sh, r, 4) && IsTable(sh, s, 4) ==> NewLinkOnce(m, m', r, i, s, j))
    && (forall t, i :: t in sh.level && sh.level[t] == 1 ==> At(m', t, i) == At(m, t, i))
    && (forall t, i :: t in sh'.level && t !in sh.level && sh'.level[t] == 1 ==> !UserAt(m', t, i))
    && (forall t, i :: t in sh.level && At(m, t, i).present && At(m, t, i).user ==>
      At(m', t, i).user && At(m', t, i).present)
    && SameWalks(m, m', sh)
  }

  /** The frames that became tables between two shapes. */
  function Added(sh: Shape, sh': Shape): set<nat> {
    sh'.level.Keys - sh.level.Keys
  }

  /** All tables added between two shapes are under the branch whose top is x. */
  predicate NewUnder(sh: Shape, sh': Shape, x: nat) {
    forall t :: t in sh'.level && t !in sh.level ==> Top(sh', t) == x
  }

  lemma ExtendedSame(m: Mem, sh: Shape)
    ensures Extended(m, sh, m, sh)
    ensures forall x :: NewUnder(sh, sh, x)
  {
  }

  lemma NewLinksTwice(m: Mem, sh: Shape, m1: Mem, sh1: Shape, m2: Mem, sh2: Shape)
    requires Extended(m, sh, m1, sh1) && Extended(m1, sh1, m2, sh2)
    requires forall r, i :: IsTable(sh1, r, 4) && At(m1, r, i).present ==> At(m1, r, i).frame in sh1.level
    ensures forall r, i, s, j :: IsTable(sh, r, 4) && IsTable(sh, s, 4) ==> NewLinkOnce(m, m2, r, i, s, j)
  {
    hide SameWalks, UserAt;
    forall r, i, s, j | IsTable(sh, r, 4) && IsTable(sh, s, 4)
      ensures NewLinkOnce(m, m2, r, i, s, j)
    {
      assert IsTable(sh1, r, 4) && IsTable(sh1, s, 4);
      assert NewLinkOnce(m, m1, r, i, s, j) && NewLinkOnce(m1, m2, r, i, s, j);
    }
  }

  lemma ExtendedTransitive(m: Mem, sh: Shape, m1: Mem, sh1: Shape, m2: Mem, sh2: Shape)
    requires Extended(m, sh, m1, sh1) && Extended(m1, sh1, m2, sh2)
    requires TablesOk(m, sh) && TablesOk(m1, sh1)
    requires forall r, i :: IsTable(sh1, r, 4) && At(m1, r, i).present ==> At(m1, r, i).frame in sh1.level
    ensures Extended(m, sh, m2, sh2)
  {
    hide Walk, NewLinkOnce;
    NewLinksTwice(m, sh, m1, sh1, m2, sh2);
    forall r, p | IsTable(sh, r, 4)
      ensures Walk(m2, r, p) == Walk(m, r, p)
    {
      assert IsTable(sh1, r, 4);
    }
    forall t, i | t in sh2.level && t !in sh.level && sh2.level[t] == 1
      ensures !UserAt(m2, t, i)
    {
      if t in sh1.level {
        assert At(m2, t, i) == At(m1, t, i) && !UserAt(m1, t, i);
      }
    }
    forall r, i | IsTable(sh, r, 4)
      ensures At(m, r, i).present ==> At(m2, r, i) == At(m, r, i)
      ensures !At(m, r, i).present && At(m2, r, i).present ==> At(m2, r, i).frame !in sh.level
    {
      assert IsTable(sh1, r, 4);
    }
  }

  lemma HangExtends(m: Mem, sh: Shape, k: nat, t: nat, i: nat, c: nat, row: seq<Entry>)
    requires CanHang(m, sh, k, t, i, c) && |row| == ENTRIES
    requires At(m, t, i).present ==> sh.level[t] == 2 && At(m, t, i).huge
    requires forall j :: 0 <= j < ENTRIES ==> !row[j].user
    requires SameWalks(m, Hang(m, t, i, c, row), sh)
    ensures Extended(m, sh, Hang(m, t, i, c, row), Grow(sh, t, i, c))
  {
    hide SameWalks;
    var m' := Hang(m, t, i, c, row);
    assert EntryOk(m, sh, t, i);
    assert forall u, j :: u != c && (u != t || j != i) ==> At(m', u, j) == At(m, u, j);
  }

  lemma HangNewUnder(m: Mem, sh: Shape, k: nat, t: nat, i: nat, c: nat)
    requires CanHang(m, sh, k, t, i, c)
    ensures Added(sh, Grow(sh, t, i, c)) == {c}
    ensures sh.level[t] <= 3 ==> Top(Grow(sh, t, i, c), t) == Top(sh, t)
    ensures NewUnder(sh, Grow(sh, t, i, c), if sh.level[t] == 4 then c else Top(sh, t))
  {
    var sh' := Grow(sh, t, i, c);
    assert LinkOk(m, sh, t);
    assert sh'.level[c] == sh.level[t] - 1 && sh'.up[c] == (t, i);
  }

  lemma StoreTwice(m: Mem, t: nat, i: nat, e: Entry, e': Entry)
    requires t < |m| && i < |m[t]|
    ensures At(Store(m, t, i, e), t, i) == e && Store(Store(m, t, i, e), t, i, e') == Store(m, t, i, e')
  {
    assert m[t][i := e][i := e'] == m[t][i := e'];
  }

  lemma SetUserExtends(m: Mem, sh: Shape, k: nat, t: nat, i: nat)
    requires WellFormed(m, sh, k) && t in sh.level && 2 <= sh.level[t] && i < ENTRIES
    requires At(m, t, i).present && !At(m, t, i).huge
    ensures Extended(m, sh, Store(m, t, i, At(m, t, i).(user := true)), sh)
  {
    SetUserKeeps(m, sh, k, t, i);
    assert EntryOk(m, sh, t, i);
  }

  lemma TopIsTop(m: Mem, sh: Shape, k: nat, t: nat)
    requires WellFormed(m, sh, k) && t in sh.level && sh.level[t] <= 3
    ensures IsTable(sh, Top(sh, t), 3)
    ensures sh.level[t] == 1 ==> IsTable(sh, sh.up[t].0, 2)
  {
    assert LinkOk(m, sh, t);
    if sh.level[t] == 1 {
      assert LinkOk(m, sh, sh.up[t].0);
    }
  }

  /** Extending the tables moves no old table between owners. */
  lemma ExtendBelow(m: Mem, sh: Shape, m': Mem, sh': Shape, k: nat, r: nat, t: nat)
    requires WellFormed(m, sh, k) && WellFormed(m', sh', k) && Extended(m, sh, m', sh')
    requires IsTable(sh, r, 4) && t in sh.level
    ensures Below(m', sh', k, r, t) <==> Below(m, sh, k, r, t)
  {
    if sh.level[t] <= 3 {
      TopIsTop(m, sh, k, t);
      var i := sh.up[Top(sh, t)].1;
      assert Top(sh', t) == Top(sh, t);
      assert At(m, r, i).present ==> At(m', r, i) == At(m, r, i);
      assert At(m, k, i).present ==> At(m', k, i) == At(m, k, i);
    }
  }

  /** New tables hang under one branch: they belong to the root they were built
      for, when that branch is private, and to no other space. */
  lemma ExtendNew(m: Mem, sh: Shape, m': Mem, sh': Shape, k: nat, root: nat, i: nat, r: nat, t: nat)
    requires WellFormed(m, sh, k) && WellFormed(m', sh', k) && Extended(m, sh, m', sh')
    requires IsTable(sh, root, 4) && i < ENTRIES && At(m', root, i).present
    requires NewUnder(sh, sh', At(m', root, i).frame)
    requires IsTable(sh, r, 4) && r != k && t in Added(sh, sh')
    ensures Below(m', sh', k, r, t) <==> r == root && Private(m', k, root, i)
  {
    var x := At(m', root, i).frame;
    assert Top(sh', t) == x;
    assert EntryOk(m', sh', root, i);
    assert IsTable(sh', root, 4) && IsTable(sh', r, 4);
    if r != root {
      assert ShareOk(m', sh', k, r, root, i) && ShareOk(m', sh', k, root, r, i);
    }
  }

  lemma ExtendOwned(m: Mem, sh: Shape, m': Mem, sh': Shape, k: nat, root: nat, i: nat, r: nat)
    requires WellFormed(m, sh, k) && WellFormed(m', sh', k) && Extended(m, sh, m', sh')
    requires IsTable(sh, root, 4) && i < ENTRIES && At(m', root, i).present
    requires NewUnder(sh, sh', At(m', root, i).frame)
    requires IsTable(sh, r, 4) && r != k
    ensures OwnedTables(m', sh', k, r) ==
      OwnedTables(m, sh, k, r) + if r == root && Private(m', k, root, i) then Added(sh, sh') else {}
    ensures OwnedPages(m', sh', k, r) == OwnedPages(m, sh, k, r)
    ensures forall t, j :: OwnedSlot(m', sh', k, r, t, j) <==> OwnedSlot(m, sh, k, r, t, j)
  {
    forall t | t in sh'.level
      ensures t in sh.level ==> (Below(m', sh', k, r, t) <==> Below(m, sh, k, r, t))
      ensures t !in sh.level ==> (Below(m', sh', k, r, t) <==> r == root && Private(m', k, root, i))
    {
      if t in sh.level {
        ExtendBelow(m, sh, m', sh', k, r, t);
      } else {
        ExtendNew(m, sh, m', sh', k, root, i, r, t);
      }
    }
    forall t, j
      ensures OwnedSlot(m', sh', k, r, t, j) <==> OwnedSlot(m, sh, k, r, t, j)
      ensures OwnedSlot(m, sh, k, r, t, j) ==> At(m', t, j) == At(m, t, j)
    {
      if t in sh.level && sh.level[t] == 1 {
        assert At(m', t, j) == At(m, t, j);
      }
    }
  }

  lemma ExtendSpaces(m: Mem, sh: Shape, m': Mem, sh': Shape, k: nat, root: nat, i: nat, spaces: set<nat>,
      free: set<nat>, free': set<nat>)
    requires WellFormed(m, sh, k) && WellFormed(m', sh', k) && Extended(m, sh, m', sh')
    requires IsTable(sh, root, 4) && i < ENTRIES && At(m', root, i).present
    requires NewUnder(sh, sh', At(m', root, i).frame)
    requires SpacesOk(m, sh, k, spaces, free) && free' <= free && Added(sh, sh') <= free
    ensures SpacesOk(m', sh', k, spaces, free')
  {
    forall r | r in spaces
      ensures forall t, j :: OwnedSlot(m', sh', k, r, t, j) <==> OwnedSlot(m, sh, k, r, t, j)
    {
      ExtendOwned(m, sh, m', sh', k, root, i, r);
    }
    forall r, t, j | r in spaces && OwnedSlot(m', sh', k, r, t, j)
      ensures PageOk(m', sh', free', t, j)
      ensures At(m', t, j) == At(m, t, j)
    {
      assert OwnedSlot(m, sh, k, r, t, j) && PageOk(m, sh, free, t, j);
      assert At(m', t, j) == At(m, t, j);
    }
    forall r, t, j, s, u, l | r in spaces && s in spaces && OwnedSlot(m', sh', k, r, t, j)
      && OwnedSlot(m', sh', k, s, u, l)
      ensures MappedOnce(m', t, j, u, l)
    {
      assert OwnedSlot(m, sh, k, r, t, j) && OwnedSlot(m, sh, k, s, u, l) && MappedOnce(m, t, j, u, l);
    }
  }

  // ---------------------------------------------------------------------------
  // Writing a 4 KiB entry

  /** Two roots hang the same table at entry i. */
  predicate SameBranch(m: Mem, r: nat, s: nat, i: nat) {
    At(m, r, i).present && At(m, s, i).present && At(m, r, i).frame == At(m, s, i).frame
  }

  function EntryMapping(e: Entry): Mapping {
    if e.present then Mapped(e.frame, e.writable, e.user) else Unmapped
  }

  /** From m to m' exactly page p changed its translation, to w, in `root` and
      in the roots that share that branch with it. */
  ghost predicate Remapped(m: Mem, m': Mem, sh: Shape, root: nat, p: Page, w: Mapping) {
    forall r, q :: IsTable(sh, r, 4) ==>
      Walk(m', r, q) == if q == p && SameBranch(m', r, root, p.i4) then w else Walk(m, r, q)
  }

  lemma LeafRemaps(m: Mem, sh: Shape, k: nat, root: nat, p: Page, pt: nat, e: Entry)
    requires WellFormed(m, sh, k) && IsTable(sh, root, 4) && IsTable(sh, pt, 1)
    requires SlotOf(m, root, p) == Slot(pt, p.i1) && UserPath(m, sh, pt)
    ensures WellFormed(Store(m, pt, p.i1, e), sh, k)
    ensures Remapped(m, Store(m, pt, p.i1, e), sh, root, p, EntryMapping(e))
    ensures Walk(Store(m, pt, p.i1, e), root, p) == EntryMapping(e)
  {
    var m' := Store(m, pt, p.i1, e);
    SetLeafKeeps(m, sh, k, pt, p.i1, e);
    assert At(m', pt, p.i1) == e;
    forall r, q | IsTable(sh, r, 4)
      ensures Walk(m', r, q) == if q == p && SameBranch(m', r, root, p.i4) then EntryMapping(e) else Walk(m, r, q)
    {
      assert At(m', r, p.i4) == At(m, r, p.i4) && At(m', root, p.i4) == At(m, root, p.i4);
      if SlotOf(m, r, q) == Slot(pt, p.i1) {
        SlotUnique(m, sh, k, root, p, r, q);
        LeafRights(m', sh, k, r, q);
      }
    }
    LeafRights(m', sh, k, root, p);
  }

  /** Frame f is allocated, is no table and is not mapped by any space. */
  ghost predicate FreshPage(m: Mem, sh: Shape, k: nat, spaces: set<nat>, free: set<nat>, f: nat) {
    && 0 < f < |m| && f !in free && f !in sh.level
    && forall r, t, i :: r in spaces && OwnedSlot(m, sh, k, r, t, i) ==> At(m, t, i).frame != f
  }

  lemma LeafSlots(m: Mem, sh: Shape, k: nat, pt: nat, i: nat, e: Entry, r: nat)
    requires WellFormed(m, sh, k) && IsTable(sh, pt, 1) && i < ENTRIES && IsTable(sh, r, 4)
    ensures OwnedTables(Store(m, pt, i, e), sh, k, r) == OwnedTables(m, sh, k, r)
    ensures forall t, j :: OwnedSlot(Store(m, pt, i, e), sh, k, r, t, j) <==>
      if t == pt && j == i then Below(m, sh, k, r, pt) && e.present && e.user else OwnedSlot(m, sh, k, r, t, j)
  {
    var m' := Store(m, pt, i, e);
    assert forall u, j :: u != pt || j != i ==> At(m', u, j) == At(m, u, j);
    assert At(m', pt, i) == e;
    forall t | t in sh.level
      ensures Below(m', sh, k, r, t) <==> Below(m, sh, k, r, t)
    {
      if sh.level[t] <= 3 {
        TopIsTop(m, sh, k, t);
        var j := sh.up[Top(sh, t)].1;
        assert At(m', r, j) == At(m, r, j) && At(m', k, j) == At(m, k, j);
      }
    }
  }

  lemma LeafSpaces(m: Mem, sh: Shape, k: nat, pt: nat, i: nat, e: Entry, spaces: set<nat>, free: set<nat>)
    requires WellFormed(m, sh, k) && IsTable(sh, pt, 1) && i < ENTRIES
    requires SpacesOk(m, sh, k, spaces, free)
    requires
      || !(e.present && e.user)
      || FreshPage(m, sh, k, spaces, free, e.frame)
      || (forall r :: r in spaces ==> !Below(m, sh, k, r, pt))
    ensures SpacesOk(Store(m, pt, i, e), sh, k, spaces, free)
  {
    var m' := Store(m, pt, i, e);
    assert forall u, j :: u != pt || j != i ==> At(m', u, j) == At(m, u, j);
    assert At(m', pt, i) == e;
    forall r | r in spaces
      ensures forall t, j :: OwnedSlot(m', sh, k, r, t, j) <==>
        if t == pt && j == i then Below(m, sh, k, r, pt) && e.present && e.user else OwnedSlot(m, sh, k, r, t, j)
    {
      LeafSlots(m, sh, k, pt, i, e, r);
    }
    forall r, t, j | r in spaces && OwnedSlot(m', sh, k, r, t, j)
      ensures PageOk(m', sh, free, t, j)
    {
      if t != pt || j != i {
        assert OwnedSlot(m, sh, k, r, t, j) && PageOk(m, sh, free, t, j);
      }
    }
    forall r, t, j, s, u, l | r in spaces && s in spaces && OwnedSlot(m', sh, k, r, t, j)
      && OwnedSlot(m', sh, k, s, u, l)
      ensures MappedOnce(m', t, j, u, l)
    {
      if t != pt || j != i {
        assert OwnedSlot(m, sh, k, r, t, j);
      }
      if u != pt || l != i {
        assert OwnedSlot(m, sh, k, s, u, l);
      }
      assert (t != pt || j != i) && (u != pt || l != i) ==> MappedOnce(m, t, j, u, l);
    }
  }

  /** Mapping a user page at an unused entry of a space adds that frame to it. */
  lemma LeafOwned(m: Mem, sh: Shape, k: nat, pt: nat, i: nat, e: Entry, r: nat)
    requires WellFormed(m, sh, k) && IsTable(sh, pt, 1) && i < ENTRIES && IsTable(sh, r, 4)
    requires !UserAt(m, pt, i)
    ensures Owned(Store(m, pt, i, e), sh, k, r) ==
      Owned(m, sh, k, r) + if Below(m, sh, k, r, pt) && e.present && e.user then {e.frame} else {}
  {
    var m' := Store(m, pt, i, e);
    assert forall u, j :: u != pt || j != i ==> At(m', u, j) == At(m, u, j);
    assert At(m', pt, i) == e;
    LeafSlots(m, sh, k, pt, i, e, r);
    forall f
      ensures f in OwnedPages(m', sh, k, r) <==>
        f in OwnedPages(m, sh, k, r) || (Below(m, sh, k, r, pt) && e.present && e.user && f == e.frame)
    {
      if f in OwnedPages(m, sh, k, r) {
        var t, j: nat :| t in sh.level && j < ENTRIES && OwnedSlot(m, sh, k, r, t, j) && At(m, t, j).frame == f;
        assert OwnedSlot(m', sh, k, r, t, j) && At(m', t, j).frame == f;
      }
      if f in OwnedPages(m', sh, k, r) {
        var t, j: nat :| t in sh.level && j < ENTRIES && OwnedSlot(m', sh, k, r, t, j) && At(m', t, j).frame == f;
        assert t != pt || j != i ==> OwnedSlot(m, sh, k, r, t, j) && At(m, t, j).frame == f;
      }
      if Below(m, sh, k, r, pt) && e.present && e.user {
        assert OwnedSlot(m', sh, k, r, pt, i);
      }
    }
  }
}
