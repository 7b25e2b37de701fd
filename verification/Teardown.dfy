/** What vmm_destroy_address_space releases (kernel/mm/vmm.c:303-346): the
    frames its nested loops visit, that they are exactly the frames the address
    space owns, and that none is visited twice. */
module Teardown {
  import opened Paging
  import opened Spaces

  /** User pages among the first n entries of a level-1 table. */
  function PagesOf(m: Mem, pt: nat, n: nat): set<nat> {
    if n == 0 then {} else
    PagesOf(m, pt, n - 1) + if UserAt(m, pt, n - 1) then {At(m, pt, n - 1).frame} else {}
  }

  /** Frames released for the first n entries of a page directory. */
  function PdFrames(m: Mem, pd: nat, n: nat): set<nat> {
    if n == 0 then {} else
    var e := At(m, pd, n - 1);
    PdFrames(m, pd, n - 1) + if e.present && !e.huge then PagesOf(m, e.frame, ENTRIES) + {e.frame} else {}
  }

  /** Frames released for the first n entries of a level-3 table. */
  function PdptFrames(m: Mem, pdpt: nat, n: nat): set<nat> {
    if n == 0 then {} else
    var e := At(m, pdpt, n - 1);
    PdptFrames(m, pdpt, n - 1) + if e.present then PdFrames(m, e.frame, ENTRIES) + {e.frame} else {}
  }

  /** Frames released for the first n top-level entries of root r. */
  function PrivateFrames(m: Mem, k: nat, r: nat, n: nat): set<nat> {
    if n == 0 then {} else
    var e := At(m, r, n - 1);
    PrivateFrames(m, k, r, n - 1) + if Private(m, k, r, n - 1) then PdptFrames(m, e.frame, ENTRIES) + {e.frame} else {}
  }

  /** One round of a release loop, for the set of frames freed so far. */
  lemma Round(free: set<nat>, done: set<nat>, below: set<nat>, c: nat, done': set<nat>)
    requires done' == done + (below + {c})
    ensures free + done + below + {c} == free + done'
  {
  }

  lemma LastRound(free: set<nat>, below: set<nat>, root: nat, owned: set<nat>)
    requires below + {root} == owned
    ensures free + below + {root} == free + owned
  {
  }

  lemma PagesStep(m: Mem, pt: nat, i: nat, e: Entry)
    requires e == At(m, pt, i)
    ensures PagesOf(m, pt, 0) == {}
    ensures e.present && e.user ==> PagesOf(m, pt, i + 1) == PagesOf(m, pt, i) + ({} + {e.frame})
    ensures !(e.present && e.user) ==> PagesOf(m, pt, i + 1) == PagesOf(m, pt, i)
  {
  }

  lemma PdStep(m: Mem, pd: nat, i: nat, e: Entry)
    requires e == At(m, pd, i)
    ensures PdFrames(m, pd, 0) == {}
    ensures e.present && !e.huge ==>
      PdFrames(m, pd, i + 1) == PdFrames(m, pd, i) + (PagesOf(m, e.frame, ENTRIES) + {e.frame})
    ensures !(e.present && !e.huge) ==> PdFrames(m, pd, i + 1) == PdFrames(m, pd, i)
  {
  }

  lemma PdptStep(m: Mem, pdpt: nat, i: nat, e: Entry)
    requires e == At(m, pdpt, i)
    ensures PdptFrames(m, pdpt, 0) == {}
    ensures e.present ==>
      PdptFrames(m, pdpt, i + 1) == PdptFrames(m, pdpt, i) + (PdFrames(m, e.frame, ENTRIES) + {e.frame})
    ensures !e.present ==> PdptFrames(m, pdpt, i + 1) == PdptFrames(m, pdpt, i)
  {
  }

  lemma RootStep(m: Mem, k: nat, r: nat, i: nat, e: Entry)
    requires e == At(m, r, i)
    ensures PrivateFrames(m, k, r, 0) == {}
    ensures Private(m, k, r, i) ==>
      PrivateFrames(m, k, r, i + 1) == PrivateFrames(m, k, r, i) + (PdptFrames(m, e.frame, ENTRIES) + {e.frame})
    ensures !Private(m, k, r, i) ==> PrivateFrames(m, k, r, i + 1) == PrivateFrames(m, k, r, i)
  {
  }

  ghost predicate Owner(m: Mem, sh: Shape, k: nat, r: nat, spaces: set<nat>, free: set<nat>) {
    WellFormed(m, sh, k) && SpacesOk(m, sh, k, spaces, free) && r in spaces
  }

  /** Frame x is table t itself or a page that r maps in table t. */
  predicate Home(m: Mem, sh: Shape, k: nat, r: nat, t: nat, x: nat) {
    && t in sh.level
    && (x == t || exists i: nat :: i < ENTRIES && OwnedSlot(m, sh, k, r, t, i) && At(m, t, i).frame == x)
  }

  lemma PageNoTable(m: Mem, sh: Shape, k: nat, r: nat, spaces: set<nat>, free: set<nat>, t: nat, i: nat)
    requires Owner(m, sh, k, r, spaces, free) && OwnedSlot(m, sh, k, r, t, i)
    ensures At(m, t, i).frame !in sh.level
  {
    assert PageOk(m, sh, free, t, i);
  }

  lemma OneSlot(m: Mem, sh: Shape, k: nat, r: nat, s: nat, spaces: set<nat>, free: set<nat>, t: nat, i: nat, u: nat,
      j: nat)
    requires Owner(m, sh, k, r, spaces, free) && s in spaces
    requires OwnedSlot(m, sh, k, r, t, i) && OwnedSlot(m, sh, k, s, u, j) && At(m, t, i).frame == At(m, u, j).frame
    ensures t == u && i == j
  {
    assert MappedOnce(m, t, i, u, j);
  }

  /** A frame has one home only. */
  lemma HomeUnique(m: Mem, sh: Shape, k: nat, r: nat, spaces: set<nat>, free: set<nat>, t: nat, u: nat, x: nat)
    requires Owner(m, sh, k, r, spaces, free)
    requires Home(m, sh, k, r, t, x) && Home(m, sh, k, r, u, x)
    ensures t == u
  {
    if x != t {
      var i: nat :| i < ENTRIES && OwnedSlot(m, sh, k, r, t, i) && At(m, t, i).frame == x;
      PageNoTable(m, sh, k, r, spaces, free, t, i);
      var j: nat :| j < ENTRIES && OwnedSlot(m, sh, k, r, u, j) && At(m, u, j).frame == x;
      OneSlot(m, sh, k, r, r, spaces, free, t, i, u, j);
    } else if x != u {
      var j: nat :| j < ENTRIES && OwnedSlot(m, sh, k, r, u, j) && At(m, u, j).frame == x;
      PageNoTable(m, sh, k, r, spaces, free, u, j);
    }
  }

  /** Tables hanging below an owned table are owned. */
  lemma ChildBelow(m: Mem, sh: Shape, k: nat, r: nat, t: nat, i: nat)
    requires WellFormed(m, sh, k) && t in sh.level && 2 <= sh.level[t] <= 3 && i < ENTRIES
    requires At(m, t, i).present && !At(m, t, i).huge
    ensures var c := At(m, t, i).frame;
      IsTable(sh, c, sh.level[t] - 1) && sh.up[c] == (t, i) && Top(sh, c) == Top(sh, t)
      && (Below(m, sh, k, r, c) <==> Below(m, sh, k, r, t))
  {
    assert EntryOk(m, sh, t, i);
    assert LinkOk(m, sh, t);
  }

  lemma PagesHome(m: Mem, sh: Shape, k: nat, r: nat, pt: nat, n: nat, x: nat)
    requires WellFormed(m, sh, k) && IsTable(sh, pt, 1) && Below(m, sh, k, r, pt) && n <= ENTRIES
    requires x in PagesOf(m, pt, n)
    ensures exists i: nat :: i < n && OwnedSlot(m, sh, k, r, pt, i) && At(m, pt, i).frame == x
  {
    if x in PagesOf(m, pt, n - 1) {
      PagesHome(m, sh, k, r, pt, n - 1, x);
    } else {
      assert OwnedSlot(m, sh, k, r, pt, n - 1);
    }
  }

  lemma PdHome(m: Mem, sh: Shape, k: nat, r: nat, pd: nat, n: nat, x: nat) returns (t: nat)
    requires WellFormed(m, sh, k) && IsTable(sh, pd, 2) && Below(m, sh, k, r, pd) && n <= ENTRIES
    requires x in PdFrames(m, pd, n)
    ensures Home(m, sh, k, r, t, x) && IsTable(sh, t, 1) && sh.up[t].0 == pd && sh.up[t].1 < n
    ensures Below(m, sh, k, r, t)
  {
    if x in PdFrames(m, pd, n - 1) {
      t := PdHome(m, sh, k, r, pd, n - 1, x);
    } else {
      t := At(m, pd, n - 1).frame;
      ChildBelow(m, sh, k, r, pd, n - 1);
      if x != t {
        PagesHome(m, sh, k, r, t, ENTRIES, x);
      }
    }
  }

  /** The level-2 table at or above table t. */
  function Pd(sh: Shape, t: nat): nat {
    if IsTable(sh, t, 1) then sh.up[t].0 else t
  }

  lemma PdptHome(m: Mem, sh: Shape, k: nat, r: nat, pdpt: nat, n: nat, x: nat) returns (t: nat)
    requires WellFormed(m, sh, k) && IsTable(sh, pdpt, 3) && Below(m, sh, k, r, pdpt) && n <= ENTRIES
    requires x in PdptFrames(m, pdpt, n)
    ensures Home(m, sh, k, r, t, x) && sh.level[t] <= 2 && Below(m, sh, k, r, t)
    ensures IsTable(sh, Pd(sh, t), 2) && sh.up[Pd(sh, t)].0 == pdpt && sh.up[Pd(sh, t)].1 < n
  {
    if x in PdptFrames(m, pdpt, n - 1) {
      t := PdptHome(m, sh, k, r, pdpt, n - 1, x);
    } else {
      t := At(m, pdpt, n - 1).frame;
      assert EntryOk(m, sh, pdpt, n - 1);
      ChildBelow(m, sh, k, r, pdpt, n - 1);
      if x != t {
        t := PdHome(m, sh, k, r, t, ENTRIES, x);
      }
    }
  }

  lemma PrivateTop(m: Mem, sh: Shape, k: nat, r: nat, i: nat)
    requires WellFormed(m, sh, k) && IsTable(sh, r, 4) && i < ENTRIES && Private(m, k, r, i)
    ensures var c := At(m, r, i).frame; IsTable(sh, c, 3) && sh.up[c].1 == i && Below(m, sh, k, r, c)
  {
    assert EntryOk(m, sh, r, i);
  }

  lemma RootHome(m: Mem, sh: Shape, k: nat, r: nat, n: nat, x: nat) returns (t: nat)
    requires WellFormed(m, sh, k) && IsTable(sh, r, 4) && n <= ENTRIES
    requires x in PrivateFrames(m, k, r, n)
    ensures Home(m, sh, k, r, t, x) && sh.level[t] <= 3 && Below(m, sh, k, r, t)
    ensures Top(sh, t) in sh.up && sh.up[Top(sh, t)].1 < n
  {
    if x in PrivateFrames(m, k, r, n - 1) {
      t := RootHome(m, sh, k, r, n - 1, x);
    } else {
      t := At(m, r, n - 1).frame;
      PrivateTop(m, sh, k, r, n - 1);
      if x != t {
        var pdpt := t;
        t := PdptHome(m, sh, k, r, pdpt, ENTRIES, x);
        assert LinkOk(m, sh, t);
      }
    }
  }

  // ---------------------------------------------------------------------------
  // Nothing is released twice

  lemma PageOnce(m: Mem, sh: Shape, k: nat, r: nat, spaces: set<nat>, free: set<nat>, pt: nat, i: nat)
    requires Owner(m, sh, k, r, spaces, free) && IsTable(sh, pt, 1) && Below(m, sh, k, r, pt) && i < ENTRIES
    requires UserAt(m, pt, i)
    ensures At(m, pt, i).frame !in PagesOf(m, pt, i) && At(m, pt, i).frame < |m|
  {
    var x := At(m, pt, i).frame;
    assert OwnedSlot(m, sh, k, r, pt, i) && PageOk(m, sh, free, pt, i);
    if x in PagesOf(m, pt, i) {
      PagesHome(m, sh, k, r, pt, i, x);
      var j: nat :| j < i && OwnedSlot(m, sh, k, r, pt, j) && At(m, pt, j).frame == x;
      OneSlot(m, sh, k, r, r, spaces, free, pt, i, pt, j);
    }
  }

  lemma PdOnce(m: Mem, sh: Shape, k: nat, r: nat, spaces: set<nat>, free: set<nat>, pd: nat, i: nat)
    requires Owner(m, sh, k, r, spaces, free) && IsTable(sh, pd, 2) && Below(m, sh, k, r, pd) && i < ENTRIES
    requires At(m, pd, i).present && !At(m, pd, i).huge
    ensures var c := At(m, pd, i).frame;
      && c !in PagesOf(m, c, ENTRIES) && PagesOf(m, c, ENTRIES) + {c} !! PdFrames(m, pd, i)
      && c < |m| && IsTable(sh, c, 1) && Below(m, sh, k, r, c)
  {
    var c := At(m, pd, i).frame;
    ChildBelow(m, sh, k, r, pd, i);
    forall x | x in PagesOf(m, c, ENTRIES) + {c}
      ensures Home(m, sh, k, r, c, x) && x !in PdFrames(m, pd, i) && (x == c ==> x !in PagesOf(m, c, ENTRIES))
    {
      if x in PagesOf(m, c, ENTRIES) {
        PagesHome(m, sh, k, r, c, ENTRIES, x);
        var j: nat :| j < ENTRIES && OwnedSlot(m, sh, k, r, c, j) && At(m, c, j).frame == x;
        assert PageOk(m, sh, free, c, j);
      }
      if x in PdFrames(m, pd, i) {
        var t := PdHome(m, sh, k, r, pd, i, x);
        HomeUnique(m, sh, k, r, spaces, free, t, c, x);
      }
    }
  }

  lemma PdptOnce(m: Mem, sh: Shape, k: nat, r: nat, spaces: set<nat>, free: set<nat>, pdpt: nat, i: nat)
    requires Owner(m, sh, k, r, spaces, free) && IsTable(sh, pdpt, 3) && Below(m, sh, k, r, pdpt) && i < ENTRIES
    requires At(m, pdpt, i).present
    ensures var c := At(m, pdpt, i).frame;
      && c !in PdFrames(m, c, ENTRIES) && PdFrames(m, c, ENTRIES) + {c} !! PdptFrames(m, pdpt, i)
      && c < |m| && IsTable(sh, c, 2) && Below(m, sh, k, r, c)
  {
    var c := At(m, pdpt, i).frame;
    assert EntryOk(m, sh, pdpt, i);
    ChildBelow(m, sh, k, r, pdpt, i);
    forall x | x in PdFrames(m, c, ENTRIES) + {c}
      ensures x !in PdptFrames(m, pdpt, i) && (x == c ==> x !in PdFrames(m, c, ENTRIES))
    {
      var u := c;
      if x in PdFrames(m, c, ENTRIES) {
        u := PdHome(m, sh, k, r, c, ENTRIES, x);
        if x == c {
          HomeUnique(m, sh, k, r, spaces, free, u, c, x);
        }
      }
      if x in PdptFrames(m, pdpt, i) {
        var t := PdptHome(m, sh, k, r, pdpt, i, x);
        HomeUnique(m, sh, k, r, spaces, free, t, u, x);
      }
    }
  }

  lemma RootOnce(m: Mem, sh: Shape, k: nat, r: nat, spaces: set<nat>, free: set<nat>, i: nat)
    requires Owner(m, sh, k, r, spaces, free) && i < ENTRIES && Private(m, k, r, i)
    ensures var c := At(m, r, i).frame;
      && c !in PdptFrames(m, c, ENTRIES) && PdptFrames(m, c, ENTRIES) + {c} !! PrivateFrames(m, k, r, i)
      && c < |m| && IsTable(sh, c, 3) && Below(m, sh, k, r, c)
  {
    var c := At(m, r, i).frame;
    PrivateTop(m, sh, k, r, i);
    forall x | x in PdptFrames(m, c, ENTRIES) + {c}
      ensures x !in PrivateFrames(m, k, r, i) && (x == c ==> x !in PdptFrames(m, c, ENTRIES))
    {
      var u := c;
      if x in PdptFrames(m, c, ENTRIES) {
        u := PdptHome(m, sh, k, r, c, ENTRIES, x);
        if x == c {
          HomeUnique(m, sh, k, r, spaces, free, u, c, x);
        }
      }
      assert LinkOk(m, sh, u);
      if x in PrivateFrames(m, k, r, i) {
        var t := RootHome(m, sh, k, r, i, x);
        HomeUnique(m, sh, k, r, spaces, free, t, u, x);
      }
    }
  }

  // ---------------------------------------------------------------------------
  // The loops release what the space owns

  lemma PagesReach(m: Mem, pt: nat, n: nat, i: nat)
    requires i < n && UserAt(m, pt, i)
    ensures At(m, pt, i).frame in PagesOf(m, pt, n)
  {
    if i < n - 1 {
      PagesReach(m, pt, n - 1, i);
    }
  }

  lemma PdReach(m: Mem, pd: nat, n: nat, i: nat)
    requires i < n && At(m, pd, i).present && !At(m, pd, i).huge
    ensures var c := At(m, pd, i).frame; PagesOf(m, c, ENTRIES) + {c} <= PdFrames(m, pd, n)
  {
    if i < n - 1 {
      PdReach(m, pd, n - 1, i);
    }
  }

  lemma PdptReach(m: Mem, pdpt: nat, n: nat, i: nat)
    requires i < n && At(m, pdpt, i).present
    ensures var c := At(m, pdpt, i).frame; PdFrames(m, c, ENTRIES) + {c} <= PdptFrames(m, pdpt, n)
  {
    if i < n - 1 {
      PdptReach(m, pdpt, n - 1, i);
    }
  }

  lemma RootReach(m: Mem, k: nat, r: nat, n: nat, i: nat)
    requires i < n && Private(m, k, r, i)
    ensures var c := At(m, r, i).frame; PdptFrames(m, c, ENTRIES) + {c} <= PrivateFrames(m, k, r, n)
  {
    if i < n - 1 {
      RootReach(m, k, r, n - 1, i);
    }
  }

  /** An owned table, and what it maps, is among the frames released. */
  lemma TableReach(m: Mem, sh: Shape, k: nat, r: nat, t: nat)
    requires WellFormed(m, sh, k) && IsTable(sh, r, 4) && t in sh.level && Below(m, sh, k, r, t)
    ensures t in PrivateFrames(m, k, r, ENTRIES)
    ensures sh.level[t] == 1 ==> PagesOf(m, t, ENTRIES) <= PrivateFrames(m, k, r, ENTRIES)
  {
    var top := Top(sh, t);
    TopIsTop(m, sh, k, t);
    assert LinkOk(m, sh, t);
    RootReach(m, k, r, ENTRIES, sh.up[top].1);
    if sh.level[t] == 2 {
      PdptReach(m, top, ENTRIES, sh.up[t].1);
    } else if sh.level[t] == 1 {
      var (pd, i) := sh.up[t];
      assert LinkOk(m, sh, pd);
      PdptReach(m, top, ENTRIES, sh.up[pd].1);
      PdReach(m, pd, ENTRIES, i);
    }
  }

  lemma ReleasedIsOwned(m: Mem, sh: Shape, k: nat, r: nat)
    requires WellFormed(m, sh, k) && IsTable(sh, r, 4)
    ensures PrivateFrames(m, k, r, ENTRIES) + {r} == Owned(m, sh, k, r)
  {
    forall x | x in PrivateFrames(m, k, r, ENTRIES)
      ensures x in Owned(m, sh, k, r)
    {
      var t := RootHome(m, sh, k, r, ENTRIES, x);
      if x != t {
        var i: nat :| i < ENTRIES && OwnedSlot(m, sh, k, r, t, i) && At(m, t, i).frame == x;
      }
    }
    forall x | x in Owned(m, sh, k, r) && x != r
      ensures x in PrivateFrames(m, k, r, ENTRIES)
    {
      if x in OwnedTables(m, sh, k, r) {
        TableReach(m, sh, k, r, x);
      } else {
        var t, i: nat :| t in sh.level && i < ENTRIES && OwnedSlot(m, sh, k, r, t, i) && At(m, t, i).frame == x;
        TableReach(m, sh, k, r, t);
        PagesReach(m, t, ENTRIES, i);
      }
    }
  }

  // ---------------------------------------------------------------------------
  // What is left afterwards

  function Without(sh: Shape, gone: set<nat>): Shape {
    Shape(sh.level - gone, sh.up - gone)
  }

  /** No table that stays points at, or hangs from, a table that goes. */
  lemma StaysApart(m: Mem, sh: Shape, k: nat, r: nat, t: nat, i: nat)
    requires WellFormed(m, sh, k) && IsTable(sh, r, 4) && r != k
    requires t in sh.level && t !in OwnedTables(m, sh, k, r) && i < ENTRIES
    ensures var e := At(m, t, i);
      e.present && 2 <= sh.level[t] && !e.huge ==> e.frame !in OwnedTables(m, sh, k, r)
    ensures sh.level[t] <= 2 ==> sh.up[t].0 !in OwnedTables(m, sh, k, r)
    ensures sh.level[t] == 1 ==> sh.up[sh.up[t].0].0 !in OwnedTables(m, sh, k, r)
  {
    assert EntryOk(m, sh, t, i) && LinkOk(m, sh, t);
    var e := At(m, t, i);
    if sh.level[t] == 4 {
      assert IsTable(sh, t, 4) && ShareOk(m, sh, k, r, t, i);
      assert EntryOk(m, sh, r, i) && EntryOk(m, sh, k, i);
    }
    if 2 <= sh.level[t] <= 3 && e.present && !e.huge {
      ChildBelow(m, sh, k, r, t, i);
    }
    if sh.level[t] == 1 {
      assert LinkOk(m, sh, sh.up[t].0);
    }
  }

  lemma DropKeeps(m: Mem, sh: Shape, k: nat, r: nat)
    requires WellFormed(m, sh, k) && IsTable(sh, r, 4) && r != k
    ensures WellFormed(m, Without(sh, OwnedTables(m, sh, k, r)), k)
  {
    var sh' := Without(sh, OwnedTables(m, sh, k, r));
    forall t, i: nat | t in sh'.level && i < ENTRIES
      ensures EntryOk(m, sh', t, i)
    {
      assert EntryOk(m, sh, t, i) && LinkOk(m, sh, t);
      StaysApart(m, sh, k, r, t, i);
    }
    forall t | t in sh'.level
      ensures LinkOk(m, sh', t)
    {
      assert LinkOk(m, sh, t);
      StaysApart(m, sh, k, r, t, 0);
    }
    forall s, t, i: nat | IsTable(sh', s, 4) && IsTable(sh', t, 4) && s != t && i < ENTRIES
      ensures ShareOk(m, sh', k, s, t, i)
    {
      assert ShareOk(m, sh, k, s, t, i);
    }
  }

  /** Other spaces own after the teardown what they owned before. */
  lemma DropOthers(m: Mem, sh: Shape, k: nat, r: nat, s: nat)
    requires WellFormed(m, sh, k) && IsTable(sh, r, 4) && r != k && IsTable(sh, s, 4) && s != k && s != r
    ensures var sh' := Without(sh, OwnedTables(m, sh, k, r));
      && OwnedTables(m, sh', k, s) == OwnedTables(m, sh, k, s)
      && (forall t, i :: OwnedSlot(m, sh', k, s, t, i) <==> OwnedSlot(m, sh, k, s, t, i))
  {
    var sh' := Without(sh, OwnedTables(m, sh, k, r));
    forall t | t in sh.level && Below(m, sh, k, s, t)
      ensures t !in OwnedTables(m, sh, k, r)
    {
      assert ShareOk(m, sh, k, r, s, sh.up[Top(sh, t)].1);
    }
    forall t | t in sh'.level && sh.level[t] <= 3
      ensures Below(m, sh', k, s, t) <==> Below(m, sh, k, s, t)
    {
      assert LinkOk(m, sh, t);
      StaysApart(m, sh, k, r, t, 0);
      assert Top(sh', t) == Top(sh, t);
      TopIsTop(m, sh, k, t);
      TopStays(m, sh, k, r, t);
    }
  }

  lemma TopStays(m: Mem, sh: Shape, k: nat, r: nat, t: nat)
    requires WellFormed(m, sh, k) && IsTable(sh, r, 4) && t in sh.level && sh.level[t] <= 3
    requires t !in OwnedTables(m, sh, k, r)
    ensures Top(sh, t) !in OwnedTables(m, sh, k, r)
  {
    TopIsTop(m, sh, k, t);
    assert LinkOk(m, sh, t);
  }

  lemma DropSpaces(m: Mem, sh: Shape, k: nat, r: nat, spaces: set<nat>, free: set<nat>)
    requires Owner(m, sh, k, r, spaces, free)
    ensures SpacesOk(m, Without(sh, OwnedTables(m, sh, k, r)), k, spaces - {r}, free + Owned(m, sh, k, r))
  {
    var sh' := Without(sh, OwnedTables(m, sh, k, r));
    forall s | s in spaces - {r}
      ensures IsTable(sh', s, 4)
      ensures forall t, i :: OwnedSlot(m, sh', k, s, t, i) <==> OwnedSlot(m, sh, k, s, t, i)
    {
      DropOthers(m, sh, k, r, s);
    }
    forall s, t, i | s in spaces - {r} && OwnedSlot(m, sh', k, s, t, i)
      ensures PageOk(m, sh', free + Owned(m, sh, k, r), t, i)
    {
      assert OwnedSlot(m, sh, k, s, t, i) && PageOk(m, sh, free, t, i);
      assert ShareOk(m, sh, k, r, s, sh.up[Top(sh, t)].1);
      var f := At(m, t, i).frame;
      if f in OwnedPages(m, sh, k, r) {
        var u, j: nat :| u in sh.level && j < ENTRIES && OwnedSlot(m, sh, k, r, u, j) && At(m, u, j).frame == f;
        OneSlot(m, sh, k, r, s, spaces, free, u, j, t, i);
      }
    }
    forall s, t, i, q, u, j | s in spaces - {r} && q in spaces - {r} && OwnedSlot(m, sh', k, s, t, i)
      && OwnedSlot(m, sh', k, q, u, j)
      ensures MappedOnce(m, t, i, u, j)
    {
      assert OwnedSlot(m, sh, k, s, t, i) && OwnedSlot(m, sh, k, q, u, j);
    }
  }

  // ---------------------------------------------------------------------------
  // A new address space

  function WithRoot(sh: Shape, c: nat): Shape {
    Shape(sh.level[c := 4], sh.up[c := (0, 0)])
  }

  /** A copy of the kernel's top level translates as the kernel does and
      changes no other translation. */
  lemma CopyRootWalks(m: Mem, sh: Shape, k: nat, c: nat)
    requires WellFormed(m, sh, k) && c < |m| && c !in sh.level
    ensures WellFormed(m[c := m[k]], WithRoot(sh, c), k)
    ensures SameWalks(m, m[c := m[k]], sh)
    ensures forall p :: Walk(m[c := m[k]], c, p) == Walk(m, k, p)
  {
    var m' := m[c := m[k]];
    assert forall t, i :: t != c ==> At(m', t, i) == At(m, t, i);
    assert forall i :: At(m', c, i) == At(m, k, i);
    CopyRootKeeps(m, sh, k, c);
    forall r, p | IsTable(sh, r, 4)
      ensures Walk(m', r, p) == Walk(m, r, p)
    {
      WalkFacts(m, sh, k, r, p);
    }
    forall p
      ensures Walk(m', c, p) == Walk(m, k, p)
    {
      WalkFacts(m, sh, k, k, p);
    }
  }

  /** The new space owns only its root frame; the others own what they did. */
  lemma CopyRootSpaces(m: Mem, sh: Shape, k: nat, c: nat, spaces: set<nat>, free: set<nat>)
    requires WellFormed(m, sh, k) && c < |m| && c !in sh.level
    requires SpacesOk(m, sh, k, spaces, free) && c in free
    ensures SpacesOk(m[c := m[k]], WithRoot(sh, c), k, spaces + {c}, free - {c})
    ensures Owned(m[c := m[k]], WithRoot(sh, c), k, c) == {c}
    ensures forall r :: r in spaces ==> Owned(m[c := m[k]], WithRoot(sh, c), k, r) == Owned(m, sh, k, r)
    ensures forall r, t, i :: r in spaces + {c} && OwnedSlot(m[c := m[k]], WithRoot(sh, c), k, r, t, i) ==>
      r in spaces && OwnedSlot(m, sh, k, r, t, i)
  {
    var m', sh' := m[c := m[k]], WithRoot(sh, c);
    assert forall t, i :: t != c ==> At(m', t, i) == At(m, t, i);
    assert forall i :: At(m', c, i) == At(m, k, i);
    forall r | r in spaces
      ensures forall t, i :: OwnedSlot(m', sh', k, r, t, i) <==> OwnedSlot(m, sh, k, r, t, i)
      ensures Owned(m', sh', k, r) == Owned(m, sh, k, r)
    {
      CopyRootOwned(m, sh, k, c, r);
    }
    hide Owned, OwnedTables, OwnedPages;
    assert forall t, i :: !OwnedSlot(m', sh', k, c, t, i);
    forall r, t, i | r in spaces + {c} && OwnedSlot(m', sh', k, r, t, i)
      ensures PageOk(m', sh', free - {c}, t, i) && r in spaces && OwnedSlot(m, sh, k, r, t, i)
    {
      assert PageOk(m, sh, free, t, i);
    }
    forall r, t, i, s, u, j | r in spaces + {c} && s in spaces + {c} && OwnedSlot(m', sh', k, r, t, i)
      && OwnedSlot(m', sh', k, s, u, j)
      ensures MappedOnce(m', t, i, u, j)
    {
      assert MappedOnce(m, t, i, u, j);
    }
    OwnsRootOnly(m', sh', k, c);
  }

  lemma OwnsRootOnly(m: Mem, sh: Shape, k: nat, c: nat)
    requires c in sh.level && forall i :: At(m, c, i) == At(m, k, i)
    ensures Owned(m, sh, k, c) == {c}
  {
  }

  lemma CopyRootOwned(m: Mem, sh: Shape, k: nat, c: nat, r: nat)
    requires WellFormed(m, sh, k) && c < |m| && c !in sh.level && IsTable(sh, r, 4)
    ensures var m', sh' := m[c := m[k]], WithRoot(sh, c);
      && OwnedTables(m', sh', k, r) == OwnedTables(m, sh, k, r)
      && (forall t, i :: OwnedSlot(m', sh', k, r, t, i) <==> OwnedSlot(m, sh, k, r, t, i))
      && OwnedPages(m', sh', k, r) == OwnedPages(m, sh, k, r)
  {
    var m', sh' := m[c := m[k]], WithRoot(sh, c);
    assert forall t, i :: t != c ==> At(m', t, i) == At(m, t, i);
    forall t | t in sh.level
      ensures Below(m', sh', k, r, t) <==> Below(m, sh, k, r, t)
    {
      if sh.level[t] <= 3 {
        TopIsTop(m, sh, k, t);
      }
    }
    assert forall t, i :: OwnedSlot(m', sh', k, r, t, i) <==> OwnedSlot(m, sh, k, r, t, i);
  }

  lemma CopyRootKeeps(m: Mem, sh: Shape, k: nat, c: nat)
    requires WellFormed(m, sh, k) && c < |m| && c !in sh.level
    ensures WellFormed(m[c := m[k]], WithRoot(sh, c), k)
  {
    var m', sh' := m[c := m[k]], WithRoot(sh, c);
    assert forall t, i :: t != c ==> At(m', t, i) == At(m, t, i);
    assert forall i :: At(m', c, i) == At(m, k, i);
    forall t, i: nat | t in sh'.level && i < ENTRIES
      ensures EntryOk(m', sh', t, i)
    {
      assert EntryOk(m, sh, k, i);
      if t != c {
        assert EntryOk(m, sh, t, i) && LinkOk(m, sh, t);
        if sh.level[t] == 1 {
          assert LinkOk(m, sh, sh.up[t].0);
        }
      }
    }
    forall t | t in sh'.level
      ensures LinkOk(m', sh', t)
    {
      if t != c {
        assert LinkOk(m, sh, t);
      }
    }
    forall r, s, i: nat | IsTable(sh', r, 4) && IsTable(sh', s, 4) && r != s && i < ENTRIES
      ensures ShareOk(m', sh', k, r, s, i)
    {
      var r0, s0 := if r == c then k else r, if s == c then k else s;
      assert r0 != s0 ==> ShareOk(m, sh, k, r0, s0, i);
    }
  }
}
