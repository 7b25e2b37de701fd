/** The program loader of kernel/core/elf/elf_loader.c: header checks, and the
    placement of PT_LOAD segments page by page in a process address space
    (System V gABI, chapter 5, "Program Header"). Words are 64 bits wide. */
module Elf {
  import opened Base
  import opened Paging
  import opened Spaces
  import opened Vmm
  import P = Pmm

  const EHDR: nat := 64
  const PHDR: nat := 56
  const PT_LOAD: nat := 1

  /** A little-endian word of n bytes. */
  function Word(data: seq<Byte>, o: nat, n: nat): nat
    requires o + n <= |data|
    decreases n
  {
    if n == 0 then 0 else data[o] as nat + 256 * Word(data, o + 1, n - 1)
  }

  function Power(n: nat): nat {
    if n == 0 then 1 else 256 * Power(n - 1)
  }

  lemma {:induction false} WordLimit(data: seq<Byte>, o: nat, n: nat)
    requires o + n <= |data|
    ensures Word(data, o, n) < Power(n)
    decreases n
  {
    if n > 0 {
      WordLimit(data, o + 1, n - 1);
    }
  }

  lemma Power8()
    ensures Power(8) == U64
  {
    assert Power(2) == 0x1_0000;
    assert Power(4) == 0x1_0000_0000;
    assert Power(6) == 0x1_0000_0000_0000;
  }

  /** The overflow check on the entry point. */
  lemma EntryFits(data: seq<Byte>, bias: nat)
    requires |data| >= EHDR && bias < U64
    ensures (HeaderOf(data).entry + bias) % U64 < HeaderOf(data).entry <==> HeaderOf(data).entry + bias >= U64
  {
    WordLimit(data, 24, 8);
    Power8();
    Modulo(HeaderOf(data).entry + bias);
  }

  datatype Header = Header(kind: nat, machine: nat, entry: nat, phoff: nat, phentsize: nat, phnum: nat)
  datatype Segment = Segment(kind: nat, writable: bool, executable: bool, offset: nat, vaddr: nat, filesz: nat,
    memsz: nat)

  function HeaderOf(data: seq<Byte>): Header
    requires |data| >= EHDR
  {
    Header(Word(data, 16, 2), Word(data, 18, 2), Word(data, 24, 8), Word(data, 32, 8), Word(data, 54, 2),
      Word(data, 56, 2))
  }

  function SegmentAt(data: seq<Byte>, o: nat): Segment
    requires o + PHDR <= |data|
  {
    var flags := Word(data, o + 4, 4);
    Segment(Word(data, o, 4), flags / 2 % 2 == 1, flags % 2 == 1,
            Word(data, o + 8, 8), Word(data, o + 16, 8), Word(data, o + 32, 8), Word(data, o + 40, 8))
  }

  /** The checks of elf_load on the header: everything the program header table
      needs is inside the file. */
  predicate HeaderOk(data: seq<Byte>) {
    && |data| >= EHDR
    && data[0] == 0x7F && data[1] == 'E' as int as Byte && data[2] == 'L' as int as Byte
      && data[3] == 'F' as int as Byte
    && data[4] == 2
    && var h := HeaderOf(data);
       && h.machine == 0x3E && h.kind == 2 && h.phentsize == PHDR
       && h.phoff <= |data| && h.phnum <= (|data| - h.phoff) / h.phentsize
  }

  function Count(data: seq<Byte>): (n: nat)
    requires HeaderOk(data)
    ensures |data| >= EHDR && HeaderOf(data).phoff + n * PHDR <= |data|
  {
    HeaderOf(data).phnum
  }

  function Ph(data: seq<Byte>, i: nat): Segment
    requires HeaderOk(data) && i < Count(data)
  {
    SegmentAt(data, HeaderOf(data).phoff + i * PHDR)
  }

  // ---------------------------------------------------------------------------
  // The entry point

  predicate Runs(s: Segment) {
    s.kind == PT_LOAD && s.executable && s.memsz != 0
  }

  /** entry_is_executable, from program header i on. */
  predicate EntryFrom(data: seq<Byte>, i: nat)
    requires HeaderOk(data) && i <= Count(data)
    decreases Count(data) - i
  {
    i < Count(data) &&
    var s := Ph(data, i);
    if !Runs(s) then EntryFrom(data, i + 1)
    else if (s.vaddr + s.memsz) % U64 < s.vaddr then false
    else if s.vaddr <= HeaderOf(data).entry < (s.vaddr + s.memsz) % U64 then true
    else EntryFrom(data, i + 1)
  }

  /** If no executable segment wraps around, the entry is accepted exactly when
      an executable segment holds it. */
  lemma {:induction false} EntryMeans(data: seq<Byte>, i: nat)
    requires HeaderOk(data) && i <= Count(data)
    requires forall j :: i <= j < Count(data) && Runs(Ph(data, j)) ==> Ph(data, j).vaddr + Ph(data, j).memsz < U64
    ensures EntryFrom(data, i) <==>
      exists j :: i <= j < Count(data) && Runs(Ph(data, j))
        && Ph(data, j).vaddr <= HeaderOf(data).entry < Ph(data, j).vaddr + Ph(data, j).memsz
    decreases Count(data) - i
  {
    hide HeaderOk, HeaderOf, Ph, Count;
    if i < Count(data) {
      EntryMeans(data, i + 1);
    }
  }

  // ---------------------------------------------------------------------------
  // Where segments go

  /** The checks of load_segment. */
  predicate SegmentOk(size: nat, s: Segment, bias: nat) {
    && s.filesz <= s.memsz && s.offset <= size && s.filesz <= size - s.offset
    && (s.vaddr + bias) % U64 >= s.vaddr
    && (s.memsz == 0 || PageEnd(s, bias) >= Start(s, bias))
  }

  function Start(s: Segment, bias: nat): nat {
    (s.vaddr + bias) % U64
  }

  function PageStart(s: Segment, bias: nat): nat {
    Start(s, bias) / PAGE * PAGE
  }

  function PageEnd(s: Segment, bias: nat): nat {
    (Start(s, bias) + s.memsz + PAGE - 1) % U64 / PAGE * PAGE
  }

  lemma Modulo(x: nat)
    requires x < 2 * U64
    ensures x % U64 == if x < U64 then x else x - U64
  {
  }

  /** The end of an accepted segment wraps around exactly when the segment has
      more than 2^64 - 4096 bytes. */
  lemma NoWrap(size: nat, s: Segment, bias: nat)
    requires SegmentOk(size, s, bias) && 0 < s.memsz < U64
    ensures PageStart(s, bias) <= Start(s, bias)
    ensures Start(s, bias) + s.memsz <= PageEnd(s, bias) <==> s.memsz <= U64 - PAGE
  {
    Modulo(Start(s, bias) + s.memsz + PAGE - 1);
    assert U64 % PAGE == 0;
  }

  predicate Reaches(s: Segment, bias: nat, x: nat) {
    PageStart(s, bias) <= x < PageEnd(s, bias)
  }

  /** So all bytes of an accepted segment are on pages that are loaded exactly
      when it has at most 2^64 - 4096 bytes. */
  lemma AllReached(size: nat, s: Segment, bias: nat)
    requires SegmentOk(size, s, bias) && 0 < s.memsz < U64
    ensures (forall va :: Start(s, bias) <= va < Start(s, bias) + s.memsz ==> Reaches(s, bias, va)) <==>
      s.memsz <= U64 - PAGE
  {
    hide SegmentOk, Start, PageStart, PageEnd;
    NoWrap(size, s, bias);
    var last := Start(s, bias) + s.memsz - 1;
    assert Reaches(s, bias, last) ==> last < PageEnd(s, bias);
  }

  /** A segment that is accepted and of which nothing is loaded. */
  lemma WrapsToNothing()
    ensures var s := Segment(PT_LOAD, false, true, 0, 0, 0, U64 - 1);
      SegmentOk(0, s, 0) && PageStart(s, 0) == PageEnd(s, 0) == 0 && SegmentPages(s, 0) == []
  {
    var s := Segment(PT_LOAD, false, true, 0, 0, 0, U64 - 1);
    Modulo(s.memsz + PAGE - 1);
  }

  /** The byte a segment puts at virtual address va. */
  function SegmentByte(data: seq<Byte>, s: Segment, bias: nat, va: nat): Byte
    requires s.offset + s.filesz <= |data|
  {
    var start := Start(s, bias);
    if start <= va < (start + s.filesz) % U64 && va - start < s.filesz then data[s.offset + (va - start)] else 0
  }

  function PageContent(data: seq<Byte>, s: Segment, bias: nat, va: nat): (r: seq<Byte>)
    requires s.offset + s.filesz <= |data|
    ensures |r| == PAGE && forall i :: 0 <= i < PAGE ==> r[i] == SegmentByte(data, s, bias, va + i)
  {
    seq(PAGE, i requires 0 <= i => SegmentByte(data, s, bias, va + i))
  }

  /** What is to be found in memory: for each page its right to be written and
      its bytes. */
  datatype Content = Content(writable: bool, bytes: seq<Byte>)
  type Layout = map<Page, Content>

  function PlacePages(l: Layout, data: seq<Byte>, s: Segment, bias: nat, va: nat): Layout
    requires s.offset + s.filesz <= |data|
    decreases PageEnd(s, bias) - va
  {
    if va >= PageEnd(s, bias) then l
    else PlacePages(l[PageOf(va) := Content(s.writable, PageContent(data, s, bias, va))], data, s, bias, va + PAGE)
  }

  function PlaceSegment(l: Layout, data: seq<Byte>, s: Segment, bias: nat): Layout
    requires s.offset + s.filesz <= |data|
  {
    if s.memsz == 0 then l else PlacePages(l, data, s, bias, PageStart(s, bias))
  }

  /** The segments from program header i on can be placed. */
  predicate AllOk(data: seq<Byte>, bias: nat, i: nat)
    requires HeaderOk(data)
  {
    forall j :: i <= j < Count(data) && Ph(data, j).kind == PT_LOAD ==> SegmentOk(|data|, Ph(data, j), bias)
  }

  function PlaceFrom(l: Layout, data: seq<Byte>, bias: nat, i: nat): Layout
    requires HeaderOk(data) && i <= Count(data) && AllOk(data, bias, i)
    decreases Count(data) - i
  {
    if i == Count(data) then l
    else if Ph(data, i).kind == PT_LOAD then PlaceFrom(PlaceSegment(l, data, Ph(data, i), bias), data, bias, i + 1)
    else PlaceFrom(l, data, bias, i + 1)
  }

  // ---------------------------------------------------------------------------
  // What the layout holds

  /** Page-disjoint and loaded below 2^48. */
  predicate Separate(data: seq<Byte>, bias: nat)
    requires HeaderOk(data)
  {
    && (forall i :: 0 <= i < Count(data) && Loads(Ph(data, i)) ==>
          PageEnd(Ph(data, i), bias) <= 0x1_0000_0000_0000)
    && (forall i, j :: 0 <= i < j < Count(data) && Loads(Ph(data, i)) && Loads(Ph(data, j)) ==>
          Apart(Ph(data, i), Ph(data, j), bias))
  }

  predicate Loads(s: Segment) {
    s.kind == PT_LOAD && s.memsz > 0
  }

  predicate Apart(s: Segment, t: Segment, bias: nat) {
    PageEnd(s, bias) <= PageStart(t, bias) || PageEnd(t, bias) <= PageStart(s, bias)
  }

  lemma {:induction false} PagesPlaced(l: Layout, data: seq<Byte>, s: Segment, bias: nat, va: nat, x: nat)
    requires s.offset + s.filesz <= |data| && PageEnd(s, bias) <= 0x1_0000_0000_0000 && x < 0x1_0000_0000_0000
    requires va % PAGE == 0
    ensures var r := PlacePages(l, data, s, bias, va);
      if va <= x < PageEnd(s, bias)
      then PageOf(x) in r && r[PageOf(x)] == Content(s.writable, PageContent(data, s, bias, x / PAGE * PAGE))
      else (PageOf(x) in r <==> PageOf(x) in l) && (PageOf(x) in l ==> r[PageOf(x)] == l[PageOf(x)])
    decreases PageEnd(s, bias) - va
  {
    hide PageContent, PageEnd, PageOf, Start;
    EndAligned(s, bias);
    if va < PageEnd(s, bias) {
      PageOfInjective(x, va);
      SamePageStart(x, va);
      PagesPlaced(l[PageOf(va) := Content(s.writable, PageContent(data, s, bias, va))], data, s, bias, va + PAGE, x);
    }
  }

  lemma SamePageStart(x: nat, va: nat)
    requires va % PAGE == 0
    ensures x / PAGE == va / PAGE <==> va <= x < va + PAGE
    ensures x / PAGE == va / PAGE ==> x / PAGE * PAGE == va
  {
  }

  lemma EndAligned(s: Segment, bias: nat)
    ensures PageEnd(s, bias) % PAGE == 0 && PageStart(s, bias) % PAGE == 0
  {
  }

  /** Page x of the address space after segments i and on: a later segment leaves
      it alone if it does not reach there. */
  lemma {:induction false} SegmentsPlaced(l: Layout, data: seq<Byte>, bias: nat, i: nat, x: nat)
    requires HeaderOk(data) && i <= Count(data) && AllOk(data, bias, i) && Separate(data, bias)
      && x < 0x1_0000_0000_0000
    requires forall j :: i <= j < Count(data) && Loads(Ph(data, j)) ==>
      !(PageStart(Ph(data, j), bias) <= x < PageEnd(Ph(data, j), bias))
    ensures var r := PlaceFrom(l, data, bias, i);
      (PageOf(x) in r <==> PageOf(x) in l) && (PageOf(x) in l ==> r[PageOf(x)] == l[PageOf(x)])
    decreases Count(data) - i
  {
    hide PageOf, PageEnd, PageStart, HeaderOk, PlacePages, Ph, Count;
    if i < Count(data) {
      var s := Ph(data, i);
      if s.kind == PT_LOAD {
        if s.memsz > 0 {
          EndAligned(s, bias);
          PagesPlaced(l, data, s, bias, PageStart(s, bias), x);
        }
        SegmentsPlaced(PlaceSegment(l, data, s, bias), data, bias, i + 1, x);
      } else {
        SegmentsPlaced(l, data, bias, i + 1, x);
      }
    }
  }

  /** Every address of every segment is in the layout, with the segment's byte. */
  lemma {:induction false} LayoutHolds(l: Layout, data: seq<Byte>, bias: nat, i: nat, j: nat, x: nat)
    requires HeaderOk(data) && i <= j < Count(data) && AllOk(data, bias, i) && Separate(data, bias)
    requires Loads(Ph(data, j)) && PageStart(Ph(data, j), bias) <= x < PageEnd(Ph(data, j), bias)
    ensures var r := PlaceFrom(l, data, bias, i);
      PageOf(x) in r
        && r[PageOf(x)] == Content(Ph(data, j).writable, PageContent(data, Ph(data, j), bias, x / PAGE * PAGE))
    decreases j - i
  {
    hide PageOf, PageEnd, PageStart, HeaderOk, PlacePages, PageContent, Ph, Count;
    var s := Ph(data, i);
    if i < j {
      LayoutHolds(if s.kind == PT_LOAD then PlaceSegment(l, data, s, bias) else l, data, bias, i + 1, j, x);
    } else {
      EndAligned(s, bias);
      PagesPlaced(l, data, s, bias, PageStart(s, bias), x);
      forall k | i < k < Count(data) && Loads(Ph(data, k))
        ensures !(PageStart(Ph(data, k), bias) <= x < PageEnd(Ph(data, k), bias))
      {
        assert Apart(Ph(data, i), Ph(data, k), bias);
      }
      SegmentsPlaced(PlaceSegment(l, data, s, bias), data, bias, i + 1, x);
    }
  }

  lemma SizeFits(data: seq<Byte>, j: nat)
    requires HeaderOk(data) && j < Count(data)
    ensures Ph(data, j).memsz < U64
  {
    WordLimit(data, HeaderOf(data).phoff + j * PHDR + 40, 8);
    Power8();
  }

  /** After a load of separate segments the layout has every byte of a segment
      exactly when the segment has at most 2^64 - 4096 bytes. */
  lemma AllInLayout(data: seq<Byte>, bias: nat, j: nat)
    requires HeaderOk(data) && AllOk(data, bias, 0) && Separate(data, bias) && j < Count(data) && Loads(Ph(data, j))
    ensures var s, l := Ph(data, j), PlaceFrom(map[], data, bias, 0);
      (forall va :: Start(s, bias) <= va < Start(s, bias) + s.memsz ==> Reaches(s, bias, va) && PageOf(va) in l) <==>
        s.memsz <= U64 - PAGE
  {
    hide HeaderOk, Ph, Count, PlaceFrom, PageOf, PageEnd, PageStart, Start, Separate, SegmentOk;
    var s := Ph(data, j);
    SizeFits(data, j);
    AllReached(|data|, s, bias);
    forall va: nat | Reaches(s, bias, va)
      ensures PageOf(va) in PlaceFrom(map[], data, bias, 0)
    {
      LayoutHolds(map[], data, bias, 0, j, va);
    }
  }

  // ---------------------------------------------------------------------------
  // What memory holds

  /** Each page of the layout is mapped for user code, with its rights, to a
      frame of its own that holds its bytes. */
  ghost predicate InPlace(v: View, root: nat, l: Layout, frames: map<Page, nat>) {
    && frames.Keys == l.Keys
    && (forall p :: p in l ==> PageHeld(v, root, p, l[p], frames[p]))
    && (forall p, q :: p in l && q in l && p != q ==> frames[p] != frames[q])
  }

  predicate PageHeld(v: View, root: nat, p: Page, c: Content, f: nat) {
    && Walk(v.mem, root, p) == Mapped(f, c.writable, true)
    && f < |v.bytes| && v.bytes[f] == c.bytes && FrameHeld(v, f)
  }

  predicate FrameHeld(v: View, f: nat) {
    f !in v.free && f !in v.shape.level
  }

  /** From a to b the held frames stay held and keep their bytes, except frame x. */
  ghost predicate Preserves(a: View, b: View, x: nat) {
    && |b.bytes| == |a.bytes|
    && forall f :: 0 <= f < |a.bytes| && FrameHeld(a, f) && f != x ==> FrameHeld(b, f) && b.bytes[f] == a.bytes[f]
  }

  lemma StillInPlace(a: View, b: View, root: nat, l: Layout, frames: map<Page, nat>)
    requires InPlace(a, root, l, frames) && Preserves(a, b, |a.bytes|)
    requires forall p :: p in l ==> Walk(b.mem, root, p) == Walk(a.mem, root, p)
    ensures InPlace(b, root, l, frames)
  {
    forall p | p in l
      ensures PageHeld(b, root, p, l[p], frames[p])
    {
      assert PageHeld(a, root, p, l[p], frames[p]);
    }
  }

  lemma NewInPlace(a: View, b: View, root: nat, l: Layout, frames: map<Page, nat>, p: Page, c: Content, f: nat)
    requires InPlace(a, root, l, frames) && Preserves(a, b, f)
    requires forall q :: q in l && q != p ==> Walk(b.mem, root, q) == Walk(a.mem, root, q)
    requires f in a.free && PageHeld(b, root, p, c, f)
    ensures InPlace(b, root, l[p := c], frames[p := f])
  {
    hide Walk;
    forall q | q in l && q != p
      ensures PageHeld(b, root, q, l[q], frames[q]) && frames[q] != f
    {
      assert PageHeld(a, root, q, l[q], frames[q]);
    }
  }

  /** The byte user code finds at address va. */
  function ByteThrough(v: View, root: nat, va: nat): Byte {
    var w := Walk(v.mem, root, PageOf(va));
    if w.Mapped? && w.frame < |v.bytes| && va % PAGE < |v.bytes[w.frame]| then v.bytes[w.frame][va % PAGE] else 0
  }

  lemma BelowTop(data: seq<Byte>, bias: nat, j: nat)
    requires HeaderOk(data) && Separate(data, bias) && j < Count(data) && Loads(Ph(data, j))
    ensures PageEnd(Ph(data, j), bias) <= 0x1_0000_0000_0000
  {
  }

  /** After a load of separate segments every address of every segment is mapped
      for user code with the segment's rights and reads as the byte of the file,
      or as 0 past the end of the file's part. */
  lemma LoadedBytes(v: View, root: nat, data: seq<Byte>, bias: nat, frames: map<Page, nat>, j: nat, va: nat)
    requires HeaderOk(data) && AllOk(data, bias, 0) && Separate(data, bias)
    requires InPlace(v, root, PlaceFrom(map[], data, bias, 0), frames)
    requires j < Count(data) && Loads(Ph(data, j))
    requires Start(Ph(data, j), bias) <= va < Start(Ph(data, j), bias) + Ph(data, j).memsz
      && Ph(data, j).memsz <= U64 - PAGE
    ensures var s := Ph(data, j); var w := Walk(v.mem, root, PageOf(va));
      && w.Mapped? && w.user && w.writable == s.writable
      && ByteThrough(v, root, va) ==
           if va - Start(s, bias) < s.filesz then data[s.offset + (va - Start(s, bias))] else 0
  {
    hide HeaderOk, Ph, Count, PlaceFrom, Walk, PageOf, PageEnd, PageStart, FrameHeld, Separate;
    var s := Ph(data, j);
    BelowTop(data, bias, j);
    NoWrap(|data|, s, bias);
    LayoutHolds(map[], data, bias, 0, j, va);
    assert PageHeld(v, root, PageOf(va), PlaceFrom(map[], data, bias, 0)[PageOf(va)], frames[PageOf(va)]);
    assert PageContent(data, s, bias, va / PAGE * PAGE)[va % PAGE] == SegmentByte(data, s, bias, va);
  }

  // ---------------------------------------------------------------------------
  // The frames a load takes

  /** How far down the walk to q finds tables once the pages `done` are mapped. */
  function Reached(m: Mem, root: nat, done: seq<Page>, q: Page): (d: nat)
    ensures d <= 3
  {
    if done == [] then Depth(m, root, q)
    else Max(Reached(m, root, done[..|done| - 1], q), Common(done[|done| - 1], q))
  }

  /** The number of frames it takes to map these pages in order: one for each
      page and one for each table that is missing by then. */
  function Frames(m: Mem, root: nat, pages: seq<Page>): nat {
    if pages == [] then 0
    else var n := |pages| - 1;
      Frames(m, root, pages[..n]) + 1 + (3 - Reached(m, root, pages[..n], pages[n]))
  }

  /** With n free frames the load runs out while it maps page i. */
  predicate StopsAt(m: Mem, root: nat, pages: seq<Page>, n: nat, i: nat) {
    i < |pages| && Frames(m, root, pages[..i]) <= n < Frames(m, root, pages[..i + 1])
  }

  /** With n free frames the load runs out after it took a frame for a page and
      before it had the tables for it. */
  predicate Loses(m: Mem, root: nat, pages: seq<Page>, n: nat) {
    exists i :: 0 <= i < |pages| && StopsAt(m, root, pages, n, i) && Frames(m, root, pages[..i]) < n
  }

  lemma {:induction false} FramesGrow(m: Mem, root: nat, pages: seq<Page>, i: nat, j: nat)
    requires i <= j <= |pages|
    ensures Frames(m, root, pages[..i]) + (j - i) <= Frames(m, root, pages[..j])
  {
    if i < j {
      FramesGrow(m, root, pages, i, j - 1);
      assert pages[..j][..j - 1] == pages[..j - 1];
    }
  }

  /** A load stops at one page at most, so what happens there decides. */
  lemma LosesAt(m: Mem, root: nat, pages: seq<Page>, n: nat, i: nat)
    requires StopsAt(m, root, pages, n, i)
    ensures Loses(m, root, pages, n) <==> Frames(m, root, pages[..i]) < n
    ensures n < Frames(m, root, pages)
  {
    hide Frames;
    forall j: nat | StopsAt(m, root, pages, n, j)
      ensures i == j
    {
      if i < j {
        FramesGrow(m, root, pages, i + 1, j);
      } else if j < i {
        FramesGrow(m, root, pages, j + 1, i);
      }
    }
    FramesGrow(m, root, pages, i + 1, |pages|);
    assert pages[..|pages|] == pages;
  }

  /** With enough frames nothing is lost. */
  lemma LosesNothing(m: Mem, root: nat, pages: seq<Page>, n: nat)
    requires Frames(m, root, pages) <= n
    ensures !Loses(m, root, pages, n)
  {
    hide Frames;
    assert pages[..|pages|] == pages;
    forall i: nat | StopsAt(m, root, pages, n, i)
      ensures false
    {
      FramesGrow(m, root, pages, i + 1, |pages|);
    }
  }

  /** Exactly: the load stops at some page if and only if the frames do not suffice. */
  lemma {:induction false} StopsSomewhere(m: Mem, root: nat, pages: seq<Page>, n: nat)
    ensures Frames(m, root, pages) <= n <==> forall i: nat :: !StopsAt(m, root, pages, n, i)
  {
    if Frames(m, root, pages) <= n {
      forall i: nat | StopsAt(m, root, pages, n, i)
        ensures false
      {
        LosesAt(m, root, pages, n, i);
      }
    } else {
      var i := |pages|;
      assert pages[..i] == pages;
      while i > 0 && Frames(m, root, pages[..i - 1]) > n
        invariant 0 < i <= |pages| && n < Frames(m, root, pages[..i])
      {
        i := i - 1;
      }
      assert StopsAt(m, root, pages, n, i - 1);
    }
  }

  /** From a to b exactly the pages `done` were placed in space `root`. */
  ghost predicate Placed(a: View, b: View, root: nat, done: seq<Page>) {
    && (forall q :: Depth(b.mem, root, q) == Reached(a.mem, root, done, q))
    && |b.free| + Frames(a.mem, root, done) == |a.free|
  }

  lemma PlacedNone(a: View, root: nat)
    ensures Placed(a, a, root, [])
  {
  }

  /** One more page was placed. */
  ghost predicate PageTaken(b: View, c: View, root: nat, p: Page) {
    && Deeper(b.mem, c.mem, root, p, 3)
    && |c.free| + 1 + Missing(b.mem, root, p) == |b.free|
  }

  lemma PlacedNext(a: View, b: View, c: View, root: nat, done: seq<Page>, p: Page)
    requires Placed(a, b, root, done) && PageTaken(b, c, root, p)
    ensures Placed(a, c, root, done + [p])
  {
    hide Depth;
    assert (done + [p])[..|done|] == done;
    forall q
      ensures Depth(c.mem, root, q) == Reached(a.mem, root, done + [p], q)
    {
      assert Depth(b.mem, root, q) == Reached(a.mem, root, done, q);
    }
  }

  /** The page for which too few frames are left is where the load stops. */
  lemma PlacedStops(a: View, b: View, root: nat, done: seq<Page>, p: Page)
    requires Placed(a, b, root, done) && |b.free| <= Missing(b.mem, root, p)
    ensures StopsAt(a.mem, root, done + [p], |a.free|, |done|)
    ensures Frames(a.mem, root, (done + [p])[..|done|]) < |a.free| <==> b.free != {}
  {
    hide Depth;
    assert (done + [p])[..|done|] == done && (done + [p])[..|done| + 1] == done + [p];
  }

  lemma StopsLater(m: Mem, root: nat, pages: seq<Page>, more: seq<Page>, n: nat, i: nat)
    requires StopsAt(m, root, pages, n, i)
    ensures StopsAt(m, root, pages + more, n, i) && (pages + more)[..i] == pages[..i]
  {
    assert (pages + more)[..i + 1] == pages[..i + 1] && (pages + more)[..i] == pages[..i];
  }

  /** The pages of a segment from va on. */
  function PagesFrom(s: Segment, bias: nat, va: nat): seq<Page>
    decreases PageEnd(s, bias) - va
  {
    if va >= PageEnd(s, bias) then [] else [PageOf(va)] + PagesFrom(s, bias, va + PAGE)
  }

  function SegmentPages(s: Segment, bias: nat): seq<Page> {
    if s.memsz == 0 then [] else PagesFrom(s, bias, PageStart(s, bias))
  }

  /** The pages elf_load places in order, up to the first bad segment. */
  function FilePages(data: seq<Byte>, bias: nat, i: nat): seq<Page>
    requires HeaderOk(data) && i <= Count(data)
    decreases Count(data) - i
  {
    if i == Count(data) then []
    else if Ph(data, i).kind != PT_LOAD then FilePages(data, bias, i + 1)
    else if !SegmentOk(|data|, Ph(data, i), bias) then []
    else SegmentPages(Ph(data, i), bias) + FilePages(data, bias, i + 1)
  }

  // ---------------------------------------------------------------------------
  // Loading

  /** Frame f, fresh in b, was mapped for page p on the way to d. */
  lemma MappedHeld(a: View, b: View, path: View, d: View, k: nat, spaces: set<nat>, root: nat, p: Page, pt: nat,
      addr: nat, e: Entry)
    requires Sound(a, k) && Sound(path, k) && IsTable(a.shape, root, 4)
    requires FreshFrame(a, b, k, spaces, addr)
    requires Grown(b, path) && MadePath(b, path, root, p, pt) && LeafWritten(path, d, pt, p.i1, e)
    ensures Preserves(a, d, |a.bytes|) && FrameHeld(d, addr / PAGE) && d.bytes[addr / PAGE] == seq(PAGE, _ => 0)
    ensures addr / PAGE < |d.bytes| == |a.bytes|
  {
    hide WellFormed, Extended, Owned, SlotOf, UserPath, NewUnder, SameWalks;
    var f := addr / PAGE;
    assert f !in a.shape.level && f !in b.shape.level;
    assert f !in path.shape.level;
    assert forall g :: FrameHeld(b, g) ==> FrameHeld(path, g);
  }

  lemma BrokenHeld(a: View, b: View, d: View, k: nat, spaces: set<nat>, addr: nat)
    requires Sound(a, k) && FreshFrame(a, b, k, spaces, addr) && Grown(b, d)
    ensures Preserves(a, d, |a.bytes|)
  {
    forall g | 0 <= g < |a.bytes| && FrameHeld(a, g)
      ensures FrameHeld(d, g) && d.bytes[g] == a.bytes[g]
    {
      assert g !in Added(b.shape, d.shape);
    }
  }

  lemma SoundFits(v: View, k: nat)
    requires Sound(v, k)
    ensures Fits(v.mem, v.bytes)
  {
  }

  /** The copy into frame f, which is no table. */
  lemma Copied(d: View, e: View, k: nat, spaces: set<nat>, f: nat, content: seq<Byte>)
    requires Sound(d, k) && SpacesOk(d.mem, d.shape, k, spaces, d.free)
    requires FrameHeld(d, f) && f < |d.bytes| && Fits(e.mem, e.bytes)
    requires e.shape == d.shape && e.free == d.free && e.bytes == d.bytes[f := content]
    requires forall g :: 0 <= g < |d.mem| && g != f ==> e.mem[g] == d.mem[g]
    ensures Sound(e, k) && SpacesOk(e.mem, e.shape, k, spaces, e.free) && SameWalks(d.mem, e.mem, d.shape)
    ensures Preserves(d, e, f) && FrameHeld(e, f)
  {
    OffTables(d, e, k, spaces);
  }

  lemma PagePlaced(a: View, b: View, d: View, e: View, k: nat, root: nat, p: Page, l: Layout, frames: map<Page, nat>,
      c: Content, f: nat)
    requires InPlace(a, root, l, frames) && f in a.free && IsTable(a.shape, root, 4) && IsTable(b.shape, root, 4)
      && IsTable(d.shape, root, 4)
    requires Preserves(a, d, |a.bytes|) && Preserves(d, e, f) && FrameHeld(e, f) && f < |e.bytes|
      && e.bytes[f] == c.bytes
    requires SameWalks(a.mem, b.mem, a.shape) && SameWalks(d.mem, e.mem, d.shape)
    requires Remapped(b.mem, d.mem, b.shape, root, p, Mapped(f, c.writable, true))
    requires Walk(d.mem, root, p) == Mapped(f, c.writable, true)
    ensures InPlace(e, root, l[p := c], frames[p := f])
    ensures forall q :: q != p ==> Walk(e.mem, root, q) == Walk(a.mem, root, q)
  {
    forall q | q != p
      ensures Walk(e.mem, root, q) == Walk(a.mem, root, q)
    {
    }
    assert Preserves(a, e, f);
    NewInPlace(a, e, root, l, frames, p, c, f);
  }

  lemma SameRoot(a: View, b: View, k: nat, spaces: set<nat>, addr: nat, root: nat)
    requires FreshFrame(a, b, k, spaces, addr) && IsTable(a.shape, root, 4)
    ensures IsTable(b.shape, root, 4) && addr / PAGE in a.free && SameWalks(a.mem, b.mem, a.shape)
    ensures FrameOf(addr) == addr / PAGE && addr / PAGE < P.MAX_FRAMES
  {
  }

  /** What load_segment copies into the frame of one page. */
  method CopyPart(vm: AddressSpaces, f: nat, data: seq<Byte>, s: Segment, bias: nat, va: nat)
    requires Fits(vm.mem, vm.bytes) && f < |vm.bytes| && vm.bytes[f] == seq(PAGE, _ => 0)
    requires s.offset + s.filesz <= |data| && va % PAGE == 0
    requires va + PAGE < U64 && PageStart(s, bias) <= va
    modifies vm`mem, vm`bytes
    ensures Fits(vm.mem, vm.bytes) && vm.bytes == old(vm.bytes)[f := PageContent(data, s, bias, va)]
    ensures forall g :: 0 <= g < |vm.mem| && g != f ==> vm.mem[g] == old(vm.mem)[g]
  {
    var start := Start(s, bias);
    var dataEnd := (start + s.filesz) % U64;
    var copyStart := if va > start then va else start;
    var copyEnd := if va + PAGE < dataEnd then va + PAGE else dataEnd;
    var k := copyStart;
    if copyEnd > copyStart {
      while k < copyEnd
        invariant copyStart <= k <= copyEnd && Fits(vm.mem, vm.bytes)
        invariant vm.bytes == old(vm.bytes)[f := vm.bytes[f]]
        invariant forall i :: 0 <= i < PAGE ==> vm.bytes[f][i] == if va + i < k then SegmentByte(data, s, bias, va + i)
          else 0
        invariant forall g :: 0 <= g < |vm.mem| && g != f ==> vm.mem[g] == old(vm.mem)[g]
      {
        vm.StoreByte(f, k - va, data[s.offset + (k - start)]);
        k := k + 1;
      }
    }
    assert vm.bytes[f] == PageContent(data, s, bias, va);
  }

  // ---------------------------------------------------------------------------
  // Frame accounting of a load

  /** From a to b space `root` took what left the free set, the frames in `lost`
      aside, and nobody else's frames changed. */
  ghost predicate Kept(a: View, b: View, k: nat, spaces: set<nat>, root: nat, lost: set<nat>) {
    && SameKernelTop(a.mem, b.mem, k)
    && (forall r :: r in spaces && r != root ==> Owned(b.mem, b.shape, k, r) == Owned(a.mem, a.shape, k, r))
    && b.free + Owned(b.mem, b.shape, k, root) + lost == a.free + Owned(a.mem, a.shape, k, root)
  }

  lemma KeptTwice(a: View, b: View, c: View, k: nat, spaces: set<nat>, root: nat, lost: set<nat>)
    requires Kept(a, b, k, spaces, root, {}) && Kept(b, c, k, spaces, root, lost)
    ensures Kept(a, c, k, spaces, root, lost)
  {
  }

  lemma KeptSame(a: View, k: nat, spaces: set<nat>, root: nat)
    ensures Kept(a, a, k, spaces, root, {})
  {
  }

  /** Page p is in a slot the kernel does not use, and is not mapped yet. */
  predicate Open(v: View, k: nat, root: nat, p: Page) {
    !At(v.mem, k, p.i4).present && Walk(v.mem, root, p) == Unmapped
  }

  lemma PageKept(a: View, b: View, path: View, d: View, e: View, k: nat, spaces: set<nat>, root: nat, p: Page, pt: nat,
      addr: nat, writable: bool)
    requires Sound(a, k) && SpacesOk(a.mem, a.shape, k, spaces, a.free) && root in spaces
    requires FreshFrame(a, b, k, spaces, addr) && Sound(b, k) && SpacesOk(b.mem, b.shape, k, spaces, b.free)
    requires Grown(b, path) && Sound(path, k) && Sound(d, k) && MadePath(b, path, root, p, pt)
    requires LeafWritten(path, d, pt, p.i1, Entry(true, writable, true, false, addr / PAGE))
    requires Open(a, k, root, p) && Remapped(b.mem, d.mem, b.shape, root, p, Mapped(addr / PAGE, writable, true))
    requires e.shape == d.shape && e.free == d.free && Fits(e.mem, e.bytes)
      && SpacesOk(d.mem, d.shape, k, spaces, d.free)
    requires addr / PAGE !in d.shape.level && forall g :: 0 <= g < |d.mem| && g != addr / PAGE ==> e.mem[g] == d.mem[g]
    ensures Kept(a, e, k, spaces, root, {})
  {
    hide FreshFrame, Grown, MadePath, LeafWritten, Remapped, Owned, Sound, SpacesOk, Conserved, SameKernelTop, Tracked,
         Fits, Open;
    OpenTracked(a, k, spaces, root, p);
    FreshMapped(a, b, path, d, k, spaces, root, p, pt, addr, writable);
    CopyOwned(d, e, k, spaces, addr / PAGE);
    ConservedKept(a, d, e, k, spaces, root, p);
  }

  lemma OpenTracked(a: View, k: nat, spaces: set<nat>, root: nat, p: Page)
    requires root in spaces && Open(a, k, root, p)
    ensures Tracked(a, k, spaces, root, p) && Walk(a.mem, root, p) == Unmapped
  {
  }

  lemma CopyOwned(d: View, e: View, k: nat, spaces: set<nat>, f: nat)
    requires Sound(d, k) && SpacesOk(d.mem, d.shape, k, spaces, d.free) && Fits(e.mem, e.bytes)
    requires e.shape == d.shape && e.free == d.free && f !in d.shape.level
    requires forall g :: 0 <= g < |d.mem| && g != f ==> e.mem[g] == d.mem[g]
    ensures forall r :: r in spaces ==> Owned(e.mem, e.shape, k, r) == Owned(d.mem, d.shape, k, r)
    ensures forall i :: 0 <= i < ENTRIES ==> At(e.mem, k, i) == At(d.mem, k, i)
  {
    hide Owned;
    OffTables(d, e, k, spaces);
    assert k in d.shape.level;
  }

  lemma ConservedKept(a: View, d: View, e: View, k: nat, spaces: set<nat>, root: nat, p: Page)
    requires Conserved(a, d, k, spaces, root, Tracked(a, k, spaces, root, p)) && SameKernelTop(a.mem, d.mem, k)
    requires Tracked(a, k, spaces, root, p) && root in spaces && e.free == d.free
    requires forall r :: r in spaces ==> Owned(e.mem, e.shape, k, r) == Owned(d.mem, d.shape, k, r)
    requires forall i :: 0 <= i < ENTRIES ==> At(e.mem, k, i) == At(d.mem, k, i)
    ensures Kept(a, e, k, spaces, root, {})
  {
    hide Owned;
  }

  lemma FrameLost(a: View, b: View, path: View, k: nat, spaces: set<nat>, root: nat, p: Page, addr: nat)
    requires Sound(a, k) && SpacesOk(a.mem, a.shape, k, spaces, a.free) && root in spaces
    requires FreshFrame(a, b, k, spaces, addr) && Sound(b, k) && SpacesOk(b.mem, b.shape, k, spaces, b.free)
    requires Grown(b, path) && Sound(path, k) && SpacesOk(path.mem, path.shape, k, spaces, path.free)
    requires PathOrNothing(b, path, root, p) && Open(a, k, root, p)
    ensures Kept(a, path, k, spaces, root, {addr / PAGE})
  {
    hide Sound, SpacesOk, FreshFrame, Grown, PathOrNothing, SameKernelTop, Owned;
    var d := path.(free := path.free + {addr / PAGE});
    GaveBack(a, b, path, d, k, spaces, root, p, addr);
  }

  /** The copy changes no path. */
  lemma CopyDepth(d: View, e: View, k: nat, root: nat, f: nat)
    requires Sound(d, k) && IsTable(d.shape, root, 4) && f !in d.shape.level && Fits(e.mem, e.bytes)
    requires forall g :: 0 <= g < |d.mem| && g != f ==> e.mem[g] == d.mem[g]
    ensures forall q :: Depth(e.mem, root, q) == Depth(d.mem, root, q)
  {
    forall q
      ensures Depth(e.mem, root, q) == Depth(d.mem, root, q)
    {
      WalkFacts(d.mem, d.shape, k, root, q);
    }
  }

  lemma TakenPage(a: View, b: View, d: View, e: View, k: nat, spaces: set<nat>, root: nat, p: Page, addr: nat)
    requires Sound(a, k) && FreshFrame(a, b, k, spaces, addr) && IsTable(a.shape, root, 4)
    requires Sound(d, k) && IsTable(d.shape, root, 4) && Built(b, d, root, p, 3)
    requires FrameHeld(d, addr / PAGE) && Fits(e.mem, e.bytes) && e.free == d.free
    requires forall g :: 0 <= g < |d.mem| && g != addr / PAGE ==> e.mem[g] == d.mem[g]
    ensures PageTaken(a, e, root, p)
  {
    hide Sound, FreshFrame, Depth, SlotsStay, Fits;
    FreshDepth(a, b, k, spaces, root, addr);
    CopyDepth(d, e, k, root, addr / PAGE);
  }

  lemma FreshIsUnused(a: View, b: View, k: nat, spaces: set<nat>, addr: nat)
    requires FreshFrame(a, b, k, spaces, addr)
    ensures Unused(b, k, spaces, addr / PAGE) && addr / PAGE != 0 && addr / PAGE in a.free
  {
  }

  lemma KeptUnused(b: View, d: View, k: nat, spaces: set<nat>, f: nat)
    requires KeepsUnused(b, d, k, spaces, 0) && Unused(b, k, spaces, f) && f != 0
    ensures Unused(d, k, spaces, f)
  {
  }

  lemma UnusedNotFree(v: View, k: nat, spaces: set<nat>, f: nat)
    requires Unused(v, k, spaces, f)
    ensures f !in v.free
  {
  }

  /** One round of the loop of load_segment. It fails exactly when the page and
      the tables on its path take more frames than there are; then the frame for
      the page, if there was one, is not given back. */
  method LoadPage(vm: AddressSpaces, space: nat, data: seq<Byte>, s: Segment, bias: nat, va: nat, ghost l: Layout,
      ghost frames: map<Page, nat>)
    returns (ok: bool, ghost frames': map<Page, nat>, ghost lost: set<nat>)
    requires vm.Valid() && FrameOf(space) in vm.spaces && InPlace(vm.Snap(), FrameOf(space), l, frames)
    requires s.offset + s.filesz <= |data| && va % PAGE == 0
    requires va + PAGE < U64 && PageStart(s, bias) <= va
    modifies vm`mem, vm`bytes, vm`shape, vm.pmm, vm.pmm.bitmap
    ensures vm.Valid() && vm.pmm.idleFrees == old(vm.pmm.idleFrees)
    ensures !ok ==> vm.pmm.free == {} && frames' == frames && InPlace(vm.Snap(), FrameOf(space), l, frames)
    ensures ok ==> InPlace(vm.Snap(), FrameOf(space),
      l[PageOf(va) := Content(s.writable, PageContent(data, s, bias, va))], frames')
    ensures ok <==> Missing(old(vm.mem), FrameOf(space), PageOf(va)) < |old(vm.pmm.free)|
    ensures ok ==> PageTaken(old(vm.Snap()), vm.Snap(), FrameOf(space), PageOf(va))
    ensures lost != {} <==> !ok && old(vm.pmm.free) != {}
    ensures lost <= old(vm.pmm.free) && LostFrame(vm.Snap(), vm.kernelPml4, vm.spaces, lost)
    ensures Open(old(vm.Snap()), vm.kernelPml4, FrameOf(space), PageOf(va)) ==>
      Kept(old(vm.Snap()), vm.Snap(), vm.kernelPml4, vm.spaces, FrameOf(space), lost)
    ensures forall q :: q != PageOf(va) ==> Walk(vm.mem, FrameOf(space), q) == Walk(old(vm.mem), FrameOf(space), q)
  {
    hide Kept, Open, P.Agrees, Sound, SpacesOk, FreshFrame, SameWalks, Remapped, MayMap, MadePath, LeafWritten, Grown,
         InPlace, Preserves, PageContent,
         FrameOf, Walk, PageOf, Start, PageStart, FrameHeld, Fits, Depth, Built, PageTaken, Unused, KeepsUnused,
           TopsStay, SlotsStay, Tracked,
         SameOwned, LostFrame;
    ghost var a, root, p := vm.Snap(), FrameOf(space), PageOf(va);
    RootIsTable(a, vm.kernelPml4, vm.spaces, root);
    frames', lost := frames, {};
    KeptSame(a, vm.kernelPml4, vm.spaces, root);
    var addr := vm.AllocZeroedFrame();
    NoneLost(vm.Snap(), vm.kernelPml4, vm.spaces);
    if addr == 0 {
      return false, frames, {};
    }
    ghost var b, f := vm.Snap(), addr / PAGE;
    SameRoot(a, b, vm.kernelPml4, vm.spaces, addr, root);
    FreshFacts(a, b, vm.kernelPml4, vm.spaces, root, p, addr);
    FreshDepth(a, b, vm.kernelPml4, vm.spaces, root, addr);
    FreshIsUnused(a, b, vm.kernelPml4, vm.spaces, addr);
    ghost var path: View, pt: nat;
    ok, path, pt := vm.MapPageIn(space, va, addr, s.writable, true);
    ghost var d := vm.Snap();
    if !ok {
      KeptUnused(b, d, vm.kernelPml4, vm.spaces, f);
      OneLost(d, vm.kernelPml4, vm.spaces, f);
      BrokenHeld(a, b, d, vm.kernelPml4, vm.spaces, addr);
      FailedInPlace(a, b, d, root, l, frames);
      lost := {f};
      if Open(a, vm.kernelPml4, root, p) {
        FrameLost(a, b, d, vm.kernelPml4, vm.spaces, root, p, addr);
      }
      return;
    }
    MappedHeld(a, b, path, d, vm.kernelPml4, vm.spaces, root, p, pt, addr, Entry(true, s.writable, true, false, f));
    SoundFits(d, vm.kernelPml4);
    CopyPart(vm, addr / PAGE, data, s, bias, va);
    Copied(d, vm.Snap(), vm.kernelPml4, vm.spaces, f, PageContent(data, s, bias, va));
    RootIsTable(d, vm.kernelPml4, vm.spaces, root);
    PagePlaced(a, b, d, vm.Snap(), vm.kernelPml4, root, p, l, frames,
      Content(s.writable, PageContent(data, s, bias, va)), f);
    frames' := frames[p := f];
    NoneLost(vm.Snap(), vm.kernelPml4, vm.spaces);
    TakenPage(a, b, d, vm.Snap(), vm.kernelPml4, vm.spaces, root, p, addr);
    if Open(a, vm.kernelPml4, root, p) {
      HeldNoTable(d, f);
      PageKept(a, b, path, d, vm.Snap(), vm.kernelPml4, vm.spaces, root, p, pt, addr, s.writable);
    }
  }

  lemma HeldNoTable(v: View, f: nat)
    requires FrameHeld(v, f)
    ensures f !in v.shape.level
  {
  }

  lemma FailedInPlace(a: View, b: View, d: View, root: nat, l: Layout, frames: map<Page, nat>)
    requires InPlace(a, root, l, frames) && IsTable(a.shape, root, 4) && IsTable(b.shape, root, 4)
    requires SameWalks(a.mem, b.mem, a.shape) && SameWalks(b.mem, d.mem, b.shape) && Preserves(a, d, |a.bytes|)
    ensures InPlace(d, root, l, frames)
    ensures forall q :: Walk(d.mem, root, q) == Walk(a.mem, root, q)
  {
    StillInPlace(a, d, root, l, frames);
  }

  /** load_segment: places a whole segment, or fails without disturbing what is
      in place: for a segment that is not acceptable, or for lack of memory. */
  method LoadSegment(vm: AddressSpaces, space: nat, data: seq<Byte>, s: Segment, bias: nat, ghost l: Layout,
      ghost frames: map<Page, nat>,
                     ghost a0: View, ghost done: seq<Page>)
    returns (ok: bool, ghost l': Layout, ghost frames': map<Page, nat>, ghost lost: set<nat>, ghost at: nat)
    requires vm.Valid() && FrameOf(space) in vm.spaces && InPlace(vm.Snap(), FrameOf(space), l, frames)
    requires Placed(a0, vm.Snap(), FrameOf(space), done)
    modifies vm`mem, vm`bytes, vm`shape, vm.pmm, vm.pmm.bitmap
    ensures vm.Valid() && vm.pmm.idleFrees == old(vm.pmm.idleFrees) && InPlace(vm.Snap(), FrameOf(space), l', frames')
    ensures ok ==> SegmentOk(|data|, s, bias) && l' == PlaceSegment(l, data, s, bias)
    ensures ok ==> Placed(a0, vm.Snap(), FrameOf(space), done + SegmentPages(s, bias))
    ensures !ok && SegmentOk(|data|, s, bias) ==>
      && vm.pmm.free == {} && RanOut(a0, FrameOf(space), done + SegmentPages(s, bias), at, lost)
    ensures !SegmentOk(|data|, s, bias) ==> !ok && vm.pmm.free == old(vm.pmm.free)
    ensures ok || !SegmentOk(|data|, s, bias) ==> lost == {}
    ensures LostFrame(vm.Snap(), vm.kernelPml4, vm.spaces, lost)
    ensures
      (Vacant(old(vm.Snap()), vm.kernelPml4, FrameOf(space), l) && RoomFor(old(vm.mem), vm.kernelPml4, l, s, bias)) ==>
      && Kept(old(vm.Snap()), vm.Snap(), vm.kernelPml4, vm.spaces, FrameOf(space), lost)
      && (ok ==> Vacant(vm.Snap(), vm.kernelPml4, FrameOf(space), l'))
  {
    hide Kept, Vacant, RoomFor, Open, InPlace, Walk, PageOf, FrameOf, PageContent, P.Agrees, Sound, SpacesOk, Placed,
         PageTaken, Depth, LostFrame, RanOut,
         Frames, StopsAt;
    NoneLost(vm.Snap(), vm.kernelPml4, vm.spaces);
    l', frames', lost, at := l, frames, {}, 0;
    ghost var a, k, spaces, root := vm.Snap(), vm.kernelPml4, vm.spaces, FrameOf(space);
    KeptSame(a, k, spaces, root);
    if s.filesz > s.memsz || s.offset > |data| || s.filesz > |data| - s.offset {
      return false, l, frames, {}, 0;
    }
    if (s.vaddr + bias) % U64 < s.vaddr {
      return false, l, frames, {}, 0;
    }
    if s.memsz == 0 {
      assert done + [] == done;
      return true, l, frames, {}, 0;
    }
    EndAligned(s, bias);
    var end := PageEnd(s, bias);
    if end < Start(s, bias) {
      return false, l, frames, {}, 0;
    }
    RoomFromStart(a, k, l, s, bias);
    hide PageEnd, PageStart, Start;
    ok, l', frames', lost, at := LoadPages(vm, space, data, s, bias, l, frames, a0, done);
  }

  /** The loop of load_segment. */
  method LoadPages(vm: AddressSpaces, space: nat, data: seq<Byte>, s: Segment, bias: nat, ghost l: Layout,
      ghost frames: map<Page, nat>,
                   ghost a0: View, ghost done: seq<Page>)
    returns (ok: bool, ghost l': Layout, ghost frames': map<Page, nat>, ghost lost: set<nat>, ghost at: nat)
    requires vm.Valid() && FrameOf(space) in vm.spaces && InPlace(vm.Snap(), FrameOf(space), l, frames)
    requires Placed(a0, vm.Snap(), FrameOf(space), done) && s.offset + s.filesz <= |data|
    modifies vm`mem, vm`bytes, vm`shape, vm.pmm, vm.pmm.bitmap
    ensures vm.Valid() && vm.pmm.idleFrees == old(vm.pmm.idleFrees) && InPlace(vm.Snap(), FrameOf(space), l', frames')
    ensures ok ==> l' == PlacePages(l, data, s, bias, PageStart(s, bias)) && lost == {}
    ensures ok ==> Placed(a0, vm.Snap(), FrameOf(space), done + PagesFrom(s, bias, PageStart(s, bias)))
    ensures !ok ==>
      && vm.pmm.free == {} && RanOut(a0, FrameOf(space), done + PagesFrom(s, bias, PageStart(s, bias)), at, lost)
    ensures LostFrame(vm.Snap(), vm.kernelPml4, vm.spaces, lost)
    ensures
      (Vacant(old(vm.Snap()), vm.kernelPml4, FrameOf(space), l)
       && RoomFrom(old(vm.mem), vm.kernelPml4, l, s, bias, PageStart(s, bias))) ==>
      && Kept(old(vm.Snap()), vm.Snap(), vm.kernelPml4, vm.spaces, FrameOf(space), lost)
      && (ok ==> Vacant(vm.Snap(), vm.kernelPml4, FrameOf(space), l'))
  {
    hide Kept, Vacant, RoomFrom, Open, InPlace, Walk, PageOf, FrameOf, PageContent, P.Agrees, Sound, SpacesOk, Placed,
         PageTaken, Depth, LostFrame,
         RanOut, Frames, StopsAt, PageEnd, PageStart, Start;
    NoneLost(vm.Snap(), vm.kernelPml4, vm.spaces);
    l', frames', lost, at := l, frames, {}, 0;
    ghost var a, k, spaces, root := vm.Snap(), vm.kernelPml4, vm.spaces, FrameOf(space);
    KeptSame(a, k, spaces, root);
    EndAligned(s, bias);
    EndBelow(s, bias);
    var end := PageEnd(s, bias);
    var va := PageStart(s, bias);
    ghost var counted := Vacant(a, k, root, l) && RoomFrom(a.mem, k, l, s, bias, va);
    ghost var pages, placed := done + PagesFrom(s, bias, va), done;
    while va < end
      invariant va % PAGE == 0 && PageStart(s, bias) <= va
      invariant vm.Valid() && vm.pmm.idleFrees == old(vm.pmm.idleFrees)
        && InPlace(vm.Snap(), FrameOf(space), l', frames')
      invariant PlacePages(l', data, s, bias, va) == PlacePages(l, data, s, bias, PageStart(s, bias)) && lost == {}
      invariant Placed(a0, vm.Snap(), root, placed) && placed + PagesFrom(s, bias, va) == pages
      invariant counted ==>
        Kept(a, vm.Snap(), k, spaces, root, {}) && Vacant(vm.Snap(), k, root, l')
          && RoomFrom(vm.mem, k, l', s, bias, va)
    {
      BeforeEnd(va, end);
      ghost var b := vm.Snap();
      if counted {
        NextOpen(b, k, root, l', s, bias, va);
      }
      ok, frames', lost := LoadPage(vm, space, data, s, bias, va, l', frames');
      if counted {
        KeptTwice(a, b, vm.Snap(), k, spaces, root, lost);
      }
      ghost var rest := PagesFrom(s, bias, va + PAGE);
      assert placed + ([PageOf(va)] + rest) == placed + [PageOf(va)] + rest;
      if !ok {
        at := |placed|;
        Stopped(a0, b, root, placed, PageOf(va), rest, lost);
        return;
      }
      PlacedNext(a0, b, vm.Snap(), root, placed, PageOf(va));
      placed := placed + [PageOf(va)];
      ghost var c := Content(s.writable, PageContent(data, s, bias, va));
      if counted {
        StillVacant(b, vm.Snap(), k, spaces, root, l', s, bias, va, c);
      }
      l' := l'[PageOf(va) := c];
      va := va + PAGE;
    }
    assert PagesFrom(s, bias, va) == [] && placed + [] == placed;
    NoneLost(vm.Snap(), k, spaces);
    ok := true;
  }

  /** The load of these pages stopped at page i, and lost a frame exactly when
      there was one left. */
  ghost predicate RanOut(a: View, root: nat, pages: seq<Page>, i: nat, lost: set<nat>) {
    && StopsAt(a.mem, root, pages, |a.free|, i)
    && (lost != {} <==> Frames(a.mem, root, pages[..i]) < |a.free|)
  }

  /** At most one frame is lost: allocated, but no table and mapped nowhere. */
  ghost predicate LostFrame(v: View, k: nat, spaces: set<nat>, lost: set<nat>) {
    |lost| <= 1 && lost !! v.free && forall f :: f in lost ==> Unused(v, k, spaces, f)
  }

  lemma OneLost(v: View, k: nat, spaces: set<nat>, f: nat)
    requires Unused(v, k, spaces, f)
    ensures LostFrame(v, k, spaces, {f})
  {
  }

  lemma NoneLost(v: View, k: nat, spaces: set<nat>)
    ensures LostFrame(v, k, spaces, {})
  {
  }

  lemma Stopped(a: View, b: View, root: nat, done: seq<Page>, p: Page, rest: seq<Page>, lost: set<nat>)
    requires Placed(a, b, root, done) && |b.free| <= Missing(b.mem, root, p) && (lost != {} <==> b.free != {})
    ensures RanOut(a, root, done + [p] + rest, |done|, lost)
  {
    PlacedStops(a, b, root, done, p);
    StopsLater(a.mem, root, done + [p], rest, |a.free|, |done|);
  }

  /** Every page in a slot the kernel does not use is in the layout or unmapped. */
  ghost predicate Vacant(v: View, k: nat, root: nat, l: Layout) {
    forall p: Page :: !At(v.mem, k, p.i4).present && p !in l ==> Walk(v.mem, root, p) == Unmapped
  }

  /** The pages from va on of a segment are new and in slots the kernel does not use. */
  ghost predicate RoomFrom(m: Mem, k: nat, l: Layout, s: Segment, bias: nat, va: nat) {
    && PageEnd(s, bias) <= 0x1_0000_0000_0000
    && forall x: nat :: va <= x < PageEnd(s, bias) ==> PageOf(x) !in l && !At(m, k, PageOf(x).i4).present
  }

  ghost predicate RoomFor(m: Mem, k: nat, l: Layout, s: Segment, bias: nat) {
    s.memsz > 0 ==> RoomFrom(m, k, l, s, bias, PageStart(s, bias))
  }

  lemma RoomFromStart(a: View, k: nat, l: Layout, s: Segment, bias: nat)
    requires s.memsz > 0
    ensures RoomFor(a.mem, k, l, s, bias) ==> RoomFrom(a.mem, k, l, s, bias, PageStart(s, bias))
  {
  }

  lemma NextOpen(v: View, k: nat, root: nat, l: Layout, s: Segment, bias: nat, va: nat)
    requires Vacant(v, k, root, l) && RoomFrom(v.mem, k, l, s, bias, va) && va < PageEnd(s, bias)
    ensures Open(v, k, root, PageOf(va))
  {
  }

  lemma StillVacant(b: View, d: View, k: nat, spaces: set<nat>, root: nat, l: Layout, s: Segment, bias: nat, va: nat,
      c: Content)
    requires Vacant(b, k, root, l) && RoomFrom(b.mem, k, l, s, bias, va) && va < PageEnd(s, bias) && va % PAGE == 0
    requires Kept(b, d, k, spaces, root, {})
    requires forall q :: q != PageOf(va) ==> Walk(d.mem, root, q) == Walk(b.mem, root, q)
    ensures Vacant(d, k, root, l[PageOf(va) := c]) && RoomFrom(d.mem, k, l[PageOf(va) := c], s, bias, va + PAGE)
  {
    hide Walk, PageOf, Owned, PageEnd;
    forall x: nat | va + PAGE <= x < PageEnd(s, bias)
      ensures PageOf(x) != PageOf(va)
    {
      PageOfInjective(x, va);
      SamePageStart(x, va);
    }
  }

  lemma EndBelow(s: Segment, bias: nat)
    ensures PageEnd(s, bias) < U64
  {
  }

  lemma BeforeEnd(va: nat, end: nat)
    requires va % PAGE == 0 && end % PAGE == 0 && va < end < U64
    ensures va + PAGE < U64
  {
    assert U64 % PAGE == 0;
  }

  /** The check on the entry point. */
  method EntryIsExecutable(data: seq<Byte>) returns (ok: bool)
    requires HeaderOk(data)
    ensures ok <==> EntryFrom(data, 0)
  {
    hide HeaderOk, Ph;
    var i := 0;
    while i < Count(data)
      invariant 0 <= i <= Count(data) && (EntryFrom(data, 0) <==> EntryFrom(data, i))
    {
      var s := Ph(data, i);
      if Runs(s) {
        if (s.vaddr + s.memsz) % U64 < s.vaddr {
          return false;
        }
        if s.vaddr <= HeaderOf(data).entry < (s.vaddr + s.memsz) % U64 {
          return true;
        }
      }
      i := i + 1;
    }
    return false;
  }

  /** The loop of elf_load over the program headers. */
  method LoadAll(vm: AddressSpaces, space: nat, data: seq<Byte>, bias: nat)
    returns (ok: bool, ghost l: Layout, ghost frames: map<Page, nat>, ghost lost: set<nat>)
    requires vm.Valid() && FrameOf(space) in vm.spaces && HeaderOk(data)
    modifies vm`mem, vm`bytes, vm`shape, vm.pmm, vm.pmm.bitmap
    ensures vm.Valid() && vm.pmm.idleFrees == old(vm.pmm.idleFrees) && InPlace(vm.Snap(), FrameOf(space), l, frames)
    ensures ok ==> AllOk(data, bias, 0) && l == PlaceFrom(map[], data, bias, 0)
    ensures !ok ==> !AllOk(data, bias, 0) || vm.pmm.free == {}
    ensures ok <==>
      && AllOk(data, bias, 0) && Frames(old(vm.mem), FrameOf(space), FilePages(data, bias, 0)) <= |old(vm.pmm.free)|
    ensures lost != {} <==> Loses(old(vm.mem), FrameOf(space), FilePages(data, bias, 0), |old(vm.pmm.free)|)
    ensures ok ==> lost == {}
    ensures LostFrame(vm.Snap(), vm.kernelPml4, vm.spaces, lost)
    ensures
      (Vacant(old(vm.Snap()), vm.kernelPml4, FrameOf(space), map[])
       && OwnSlots(old(vm.mem), vm.kernelPml4, data, bias)) ==>
      && Kept(old(vm.Snap()), vm.Snap(), vm.kernelPml4, vm.spaces, FrameOf(space), lost)
      && (ok ==> Vacant(vm.Snap(), vm.kernelPml4, FrameOf(space), l))
  {
    hide Kept, Vacant, RoomFor, OwnSlots, Within, P.Agrees, Sound, SpacesOk, PlaceSegment, SegmentOk, EntryFrom, Word,
         Walk, FrameOf, Ph, HeaderOk,
         Placed, RanOut, Frames, Loses, SegmentPages, LostFrame, Within, InPlace;
    NoneLost(vm.Snap(), vm.kernelPml4, vm.spaces);
    NothingInPlace(vm.Snap(), FrameOf(space));
    ghost var all, done := FilePages(data, bias, 0), [];
    PlacedNone(vm.Snap(), FrameOf(space));
    NothingWithin(data, bias);
    l, frames, lost := map[], map[], {};
    ghost var a, k, spaces, root := vm.Snap(), vm.kernelPml4, vm.spaces, FrameOf(space);
    KeptSame(a, k, spaces, root);
    ghost var counted := Vacant(a, k, root, l) && OwnSlots(a.mem, k, data, bias);
    var i := 0;
    while i < Count(data)
      invariant 0 <= i <= Count(data) && lost == {}
      invariant counted ==>
        && Kept(a, vm.Snap(), k, spaces, root, {}) && Vacant(vm.Snap(), k, root, l) && Within(l, data, bias, i)
      invariant vm.Valid() && vm.pmm.idleFrees == old(vm.pmm.idleFrees) && InPlace(vm.Snap(), FrameOf(space), l, frames)
      invariant forall j :: 0 <= j < i && Ph(data, j).kind == PT_LOAD ==> SegmentOk(|data|, Ph(data, j), bias)
      invariant AllOk(data, bias, i) ==>
        && AllOk(data, bias, 0) && PlaceFrom(l, data, bias, i) == PlaceFrom(map[], data, bias, 0)
      invariant Placed(a, vm.Snap(), root, done) && done + FilePages(data, bias, i) == all
    {
      ghost var before := l;
      if Ph(data, i).kind == PT_LOAD {
        ghost var b := vm.Snap();
        if counted {
          RoomLeft(a, b, k, spaces, root, l, data, bias, i);
        }
        ghost var at: nat;
        ok, l, frames, lost, at := LoadSegment(vm, space, data, Ph(data, i), bias, l, frames, a, done);
        if counted {
          KeptTwice(a, b, vm.Snap(), k, spaces, root, lost);
        }
        if !ok {
          LoadStopped(a, b, root, data, bias, i, done, all, at, lost);
          return;
        }
        assert done + (SegmentPages(Ph(data, i), bias) + FilePages(data, bias, i + 1)) ==
          done + SegmentPages(Ph(data, i), bias) + FilePages(data, bias, i + 1);
        done := done + SegmentPages(Ph(data, i), bias);
      }
      if counted {
        WithinNext(a.mem, k, before, data, bias, i);
      }
      i := i + 1;
    }
    assert done + [] == done;
    AllPlaced(a, vm.Snap(), root, all);
    NoneLost(vm.Snap(), k, spaces);
    ok := true;
  }

  lemma AllPlaced(a: View, b: View, root: nat, pages: seq<Page>)
    requires Placed(a, b, root, pages)
    ensures Frames(a.mem, root, pages) <= |a.free| && !Loses(a.mem, root, pages, |a.free|)
  {
    LosesNothing(a.mem, root, pages, |a.free|);
  }

  lemma LoadStopped(a: View, b: View, root: nat, data: seq<Byte>, bias: nat, i: nat, done: seq<Page>, all: seq<Page>,
      at: nat, lost: set<nat>)
    requires HeaderOk(data) && i < Count(data) && Ph(data, i).kind == PT_LOAD && Placed(a, b, root, done)
    requires done + FilePages(data, bias, i) == all
    requires var s := Ph(data, i);
      if SegmentOk(|data|, s, bias) then RanOut(a, root, done + SegmentPages(s, bias), at, lost) else lost == {}
    ensures lost != {} <==> Loses(a.mem, root, all, |a.free|)
    ensures AllOk(data, bias, 0) ==> |a.free| < Frames(a.mem, root, all)
  {
    hide Frames, Loses, SegmentOk, SegmentPages, StopsAt, Ph, HeaderOk;
    var s := Ph(data, i);
    if SegmentOk(|data|, s, bias) {
      var rest := FilePages(data, bias, i + 1);
      assert all == done + SegmentPages(s, bias) + rest;
      StopsLater(a.mem, root, done + SegmentPages(s, bias), rest, |a.free|, at);
      LosesAt(a.mem, root, all, |a.free|, at);
    } else {
      assert all == done;
      AllPlaced(a, b, root, all);
    }
  }

  /** elf_load. Success puts exactly the layout of the file's segments in place;
      every read of the file is inside it. It fails only for a file that is not
      acceptable, or for lack of memory. */
  method ElfLoad(vm: AddressSpaces, space: nat, data: seq<Byte>, bias: nat)
    returns (ok: bool, entry: nat, ghost l: Layout, ghost frames: map<Page, nat>, ghost lost: set<nat>)
    requires vm.Valid() && FrameOf(space) in vm.spaces && bias < U64
    modifies vm`mem, vm`bytes, vm`shape, vm.pmm, vm.pmm.bitmap
    ensures vm.Valid() && vm.pmm.idleFrees == old(vm.pmm.idleFrees) && InPlace(vm.Snap(), FrameOf(space), l, frames)
    ensures ok ==>
      && Acceptable(data, bias) && entry == HeaderOf(data).entry + bias && l == PlaceFrom(map[], data, bias, 0)
    ensures !ok ==> !Acceptable(data, bias) || vm.pmm.free == {}
    ensures ok <==>
      && Acceptable(data, bias) && Frames(old(vm.mem), FrameOf(space), FilePages(data, bias, 0)) <= |old(vm.pmm.free)|
    ensures lost != {} <==> LoadLoses(old(vm.mem), FrameOf(space), data, bias, |old(vm.pmm.free)|)
    ensures ok ==> lost == {}
    ensures LostFrame(vm.Snap(), vm.kernelPml4, vm.spaces, lost)
    ensures
      (Vacant(old(vm.Snap()), vm.kernelPml4, FrameOf(space), map[])
       && OwnSlots(old(vm.mem), vm.kernelPml4, data, bias)) ==>
      && Kept(old(vm.Snap()), vm.Snap(), vm.kernelPml4, vm.spaces, FrameOf(space), lost)
      && (ok ==> Vacant(vm.Snap(), vm.kernelPml4, FrameOf(space), l))
  {
    hide Kept, Vacant, RoomFor, OwnSlots, Within, P.Agrees, Sound, SpacesOk, PlaceSegment, SegmentOk, EntryFrom, Word,
         Walk, FrameOf, Ph, Frames, Loses,
         Unused;
    entry, l, frames, lost := 0, map[], map[], {};
    KeptSame(vm.Snap(), vm.kernelPml4, vm.spaces, FrameOf(space));
    if |data| < EHDR {
      return false, 0, l, frames, lost;
    }
    if data[0] != 0x7F || data[1] != 'E' as int as Byte || data[2] != 'L' as int as Byte
      || data[3] != 'F' as int as Byte {
      return false, 0, l, frames, lost;
    }
    var h := HeaderOf(data);
    if data[4] != 2 || h.machine != 0x3E || h.kind != 2 || h.phentsize != PHDR {
      return false, 0, l, frames, lost;
    }
    if h.phoff > |data| || h.phnum > (|data| - h.phoff) / h.phentsize {
      return false, 0, l, frames, lost;
    }
    assert HeaderOk(data);
    var executable := EntryIsExecutable(data);
    if !executable {
      return false, 0, l, frames, lost;
    }
    ok, l, frames, lost := LoadAll(vm, space, data, bias);
    if !ok {
      return;
    }
    EntryFits(data, bias);
    if (h.entry + bias) % U64 < h.entry {
      return false, 0, l, frames, lost;
    }
    return true, h.entry + bias, l, frames, lost;
  }

  /** With n free frames a load runs out after it took a frame for a page and
      before it had the tables for it. */
  predicate LoadLoses(m: Mem, root: nat, data: seq<Byte>, bias: nat, n: nat) {
    HeaderOk(data) && EntryFrom(data, 0) && Loses(m, root, FilePages(data, bias, 0), n)
  }

  /** What elf_load accepts. */
  predicate Acceptable(data: seq<Byte>, bias: nat) {
    HeaderOk(data) && EntryFrom(data, 0) && AllOk(data, bias, 0) && HeaderOf(data).entry + bias < U64
  }

  /** The segments are page-disjoint and lie in slots the kernel does not use. */
  ghost predicate OwnSlots(m: Mem, k: nat, data: seq<Byte>, bias: nat) {
    HeaderOk(data) ==>
      && Separate(data, bias)
      && forall j, x: nat :: 0 <= j < Count(data) && Loads(Ph(data, j)) && Reaches(Ph(data, j), bias, x) ==>
        !At(m, k, PageOf(x).i4).present
  }

  /** Pages below 2^48 in the layout belong to the first i segments. */
  ghost predicate Within(l: Layout, data: seq<Byte>, bias: nat, i: nat)
    requires HeaderOk(data) && i <= Count(data)
  {
    forall x: nat :: x < 0x1_0000_0000_0000 && PageOf(x) in l ==>
      exists j :: 0 <= j < i && Loads(Ph(data, j)) && Reaches(Ph(data, j), bias, x)
  }

  lemma NothingInPlace(v: View, root: nat)
    ensures InPlace(v, root, map[], map[])
  {
  }

  lemma NothingWithin(data: seq<Byte>, bias: nat)
    requires HeaderOk(data)
    ensures Within(map[], data, bias, 0)
  {
  }

  lemma RoomLeft(a: View, b: View, k: nat, spaces: set<nat>, root: nat, l: Layout, data: seq<Byte>, bias: nat, i: nat)
    requires HeaderOk(data) && i < Count(data) && OwnSlots(a.mem, k, data, bias) && Within(l, data, bias, i)
    requires Kept(a, b, k, spaces, root, {}) && Ph(data, i).kind == PT_LOAD
    ensures RoomFor(b.mem, k, l, Ph(data, i), bias)
  {
    hide Owned, PageOf, PageEnd, PageStart, Ph, Count, HeaderOk;
    if Ph(data, i).memsz > 0 {
      forall x: nat | PageStart(Ph(data, i), bias) <= x < PageEnd(Ph(data, i), bias)
        ensures PageOf(x) !in l && !At(b.mem, k, PageOf(x).i4).present
      {
        assert Reaches(Ph(data, i), bias, x);
      }
    }
  }

  lemma WithinNext(m: Mem, k: nat, l: Layout, data: seq<Byte>, bias: nat, i: nat)
    requires HeaderOk(data) && i < Count(data) && OwnSlots(m, k, data, bias) && Within(l, data, bias, i)
    requires Ph(data, i).kind == PT_LOAD ==> SegmentOk(|data|, Ph(data, i), bias)
    ensures Within(if Ph(data, i).kind == PT_LOAD then PlaceSegment(l, data, Ph(data, i), bias)
      else l, data, bias, i + 1)
  {
    var s := Ph(data, i);
    if Loads(s) {
      forall x: nat | x < 0x1_0000_0000_0000 && PageOf(x) in PlaceSegment(l, data, s, bias)
        ensures exists j :: 0 <= j < i + 1 && Loads(Ph(data, j)) && Reaches(Ph(data, j), bias, x)
      {
        EndAligned(s, bias);
        PagesPlaced(l, data, s, bias, PageStart(s, bias), x);
        if PageOf(x) in l {
          var j: nat :| j < i && Loads(Ph(data, j)) && Reaches(Ph(data, j), bias, x);
          assert j < i + 1;
        } else {
          assert Reaches(s, bias, x);
        }
      }
    } else {
      forall x: nat | x < 0x1_0000_0000_0000 && PageOf(x) in l
        ensures exists j :: 0 <= j < i + 1 && Loads(Ph(data, j)) && Reaches(Ph(data, j), bias, x)
      {
        var j: nat :| j < i && Loads(Ph(data, j)) && Reaches(Ph(data, j), bias, x);
        assert j < i + 1;
      }
    }
  }

  /** A process from its first page to its last: its space is created, a program
      with page-disjoint segments in slots of its own is loaded, its first stack
      page is mapped, page faults grow the stack, and the space is torn down. The
      free frames are then what they were, except for one frame that is lost
      exactly when the load runs out between the frame for a page and the tables
      for it. */
  method ProgramLifetime(vm: AddressSpaces, data: seq<Byte>, bias: nat, top: nat, regions: seq<StackRegion>,
      faults: seq<nat>)
    returns (ok: bool, ghost lost: set<nat>)
    requires vm.Valid() && bias < U64 && OwnSlots(vm.mem, vm.kernelPml4, data, bias) && StackApart(data, bias, top)
    requires forall va :: va in [top] + faults ==> !At(vm.mem, vm.kernelPml4, PageOf(va).i4).present
    modifies vm`mem, vm`bytes, vm`shape, vm`spaces, vm.pmm, vm.pmm.bitmap
    ensures vm.Valid() && vm.spaces == old(vm.spaces) && vm.pmm.idleFrees == old(vm.pmm.idleFrees)
    ensures vm.pmm.free + lost == old(vm.pmm.free) && vm.pmm.free !! lost && |lost| <= 1
    ensures ok <==>
      && Acceptable(data, bias) && Frames(old(vm.mem), vm.kernelPml4, FilePages(data, bias, 0)) < |old(vm.pmm.free)|
    ensures lost != {} <==>
      && old(vm.pmm.free) != {} && LoadLoses(old(vm.mem), vm.kernelPml4, data, bias, |old(vm.pmm.free)| - 1)
  {
    hide P.Agrees, Sound, SpacesOk, Owned, NewSpace, TornDown, Kept, Vacant, OwnSlots, FrameOf, InPlace, Acceptable,
         PlaceFrom, LoadLoses, Frames,
         FilePages, Unused, Undisturbed, HeaderOk, LostFrame, At, PageOf;
    ghost var a, k, before := vm.Snap(), vm.kernelPml4, vm.spaces;
    lost := {};
    var space := vm.CreateAddressSpace();
    if space == 0 {
      return false, {};
    }
    ghost var b, root := vm.Snap(), FrameOf(space);
    SpaceOpen(a, b, k, before, root, data, bias);
    SpaceFrames(a, b, k, before, root, data, bias);
    SpaceIsAddress(space);
    var entry: nat;
    ghost var l, frames;
    ok, entry, l, frames, lost := ElfLoad(vm, space, data, bias);
    if ok {
      TopOpen(a, b, vm.Snap(), k, before, root, data, bias, l, frames, top);
      RunStack(vm, space, top, regions, faults, b, before);
      NoneLost(vm.Snap(), k, vm.spaces);
    }
    ghost var c := vm.Snap();
    vm.DestroyAddressSpace(space);
    AllBack(a, b, c, vm.Snap(), k, before, root, lost);
  }

  /** No segment reaches the page of the first stack address. */
  predicate StackApart(data: seq<Byte>, bias: nat, top: nat) {
    top < 0x1_0000_0000_0000
      && (HeaderOk(data) ==> forall j ::
      0 <= j < Count(data) && Loads(Ph(data, j)) ==> !Reaches(Ph(data, j), bias, top))
  }

  lemma TopOpen(a: View, b: View, c: View, k: nat, before: set<nat>, root: nat, data: seq<Byte>, bias: nat, l: Layout,
      frames: map<Page, nat>,
                top: nat)
    requires NewSpace(a, b, k, before, root) && Kept(b, c, k, before + {root}, root, {}) && StackApart(data, bias, top)
    requires OwnSlots(b.mem, k, data, bias) && Acceptable(data, bias) && l == PlaceFrom(map[], data, bias, 0)
    requires Vacant(c, k, root, l) && !At(a.mem, k, PageOf(top).i4).present
    ensures Walk(c.mem, root, PageOf(top)) == Unmapped
    ensures forall va: nat :: !At(a.mem, k, PageOf(va).i4).present ==> !At(c.mem, k, PageOf(va).i4).present
  {
    hide Owned, Undisturbed, Ph, PageOf, PageEnd, PageStart, Walk, EntryFrom;
    SegmentsPlaced(map[], data, bias, 0, top);
  }

  /** setup_user_stack and the page faults that follow. */
  method RunStack(vm: AddressSpaces, space: nat, top: nat, regions: seq<StackRegion>, faults: seq<nat>, ghost b: View,
      ghost before: set<nat>)
    requires vm.Valid() && vm.spaces == before + {FrameOf(space)}
      && Walk(vm.mem, FrameOf(space), PageOf(top)) == Unmapped
    requires Kept(b, vm.Snap(), vm.kernelPml4, vm.spaces, FrameOf(space), {})
    requires forall va :: va in [top] + faults ==> !At(vm.mem, vm.kernelPml4, PageOf(va).i4).present
    modifies vm`mem, vm`bytes, vm`shape, vm.pmm, vm.pmm.bitmap
    ensures vm.Valid() && vm.pmm.idleFrees == old(vm.pmm.idleFrees)
    ensures Kept(b, vm.Snap(), vm.kernelPml4, vm.spaces, FrameOf(space), {})
  {
    hide P.Agrees, Sound, SpacesOk, Kept, FrameOf, Undisturbed, At, PageOf, Walk, Conserved, SameKernelTop, Tracked,
         SameWalks, Depth, InStack, Remapped;
    ghost var k, root, c, spaces := vm.kernelPml4, FrameOf(space), vm.Snap(), vm.spaces;
    assert top in [top] + faults;
    ghost var done: bool, frame: nat;
    done, frame := vm.MapFreshPage(space, top, true);
    StackKept(b, c, vm.Snap(), k, spaces, root, [top] + faults, top);
    var i := 0;
    while i < |faults|
      invariant 0 <= i <= |faults| && vm.Valid() && vm.pmm.idleFrees == old(vm.pmm.idleFrees)
      invariant Kept(b, vm.Snap(), k, spaces, root, {})
      invariant forall va :: va in [top] + faults ==> !At(vm.mem, k, PageOf(va).i4).present
    {
      assert faults[i] in [top] + faults;
      c := vm.Snap();
      var handled := vm.HandlePageFault(space, faults[i], regions);
      StackKept(b, c, vm.Snap(), k, spaces, root, [top] + faults, faults[i]);
      i := i + 1;
    }
  }

  lemma StackKept(b: View, c: View, d: View, k: nat, spaces: set<nat>, root: nat, touched: seq<nat>, va: nat)
    requires Kept(b, c, k, spaces, root, {}) && root in spaces && va in touched
    requires Conserved(c, d, k, spaces, root, Tracked(c, k, spaces, root, PageOf(va))) && SameKernelTop(c.mem, d.mem, k)
    requires forall v :: v in touched ==> !At(c.mem, k, PageOf(v).i4).present
    ensures Kept(b, d, k, spaces, root, {})
    ensures forall v :: v in touched ==> !At(d.mem, k, PageOf(v).i4).present
  {
    hide Owned, PageOf, At;
  }

  lemma SpaceOpen(a: View, b: View, k: nat, before: set<nat>, root: nat, data: seq<Byte>, bias: nat)
    requires NewSpace(a, b, k, before, root) && OwnSlots(a.mem, k, data, bias)
    ensures Vacant(b, k, root, map[]) && OwnSlots(b.mem, k, data, bias)
    ensures root != k && root != 0 && root !in before
  {
    hide Owned, Separate, Loads, Ph, HeaderOk, Count;
  }

  lemma AllBack(a: View, b: View, c: View, d: View, k: nat, before: set<nat>, root: nat, lost: set<nat>)
    requires NewSpace(a, b, k, before, root) && Kept(b, c, k, before + {root}, root, lost)
      && TornDown(c, d, k, root, before)
    requires LostFrame(c, k, before + {root}, lost)
    ensures d.free + lost == a.free && d.free !! lost && |lost| <= 1 && before + {root} - {root} == before
  {
    hide Owned, Unused, SlotsStay;
    forall f | f in lost
      ensures f !in d.free
    {
      assert Unused(d, k, before, f);
      UnusedNotFree(d, k, before, f);
    }
  }

  lemma {:induction false} SameFrames(m: Mem, m': Mem, r: nat, r': nat, pages: seq<Page>)
    requires forall q :: Depth(m', r', q) == Depth(m, r, q)
    ensures Frames(m', r', pages) == Frames(m, r, pages)
  {
    if pages != [] {
      SameFrames(m, m', r, r', pages[..|pages| - 1]);
      SameReached(m, m', r, r', pages[..|pages| - 1], pages[|pages| - 1]);
    }
  }

  lemma {:induction false} SameReached(m: Mem, m': Mem, r: nat, r': nat, done: seq<Page>, q: Page)
    requires forall p :: Depth(m', r', p) == Depth(m, r, p)
    ensures Reached(m', r', done, q) == Reached(m, r, done, q)
  {
    hide Depth;
    if done != [] {
      SameReached(m, m', r, r', done[..|done| - 1], q);
    }
  }

  lemma SameLosses(m: Mem, m': Mem, r: nat, r': nat, pages: seq<Page>, n: nat)
    requires forall q :: Depth(m', r', q) == Depth(m, r, q)
    ensures Loses(m', r', pages, n) <==> Loses(m, r, pages, n)
  {
    hide Depth, Frames;
    forall i | 0 <= i < |pages|
      ensures StopsAt(m', r', pages, n, i) <==> StopsAt(m, r, pages, n, i)
      ensures Frames(m', r', pages[..i]) == Frames(m, r, pages[..i])
    {
      SameFrames(m, m', r, r', pages[..i]);
      SameFrames(m, m', r, r', pages[..i + 1]);
    }
  }

  /** A new space needs the frames that the kernel's space would. */
  lemma SpaceFrames(a: View, b: View, k: nat, before: set<nat>, root: nat, data: seq<Byte>, bias: nat)
    requires Sound(a, k) && NewSpace(a, b, k, before, root)
    ensures |b.free| == |a.free| - 1 && a.free != {}
    ensures HeaderOk(data) ==> Frames(b.mem, root, FilePages(data, bias, 0)) == Frames(a.mem, k,
      FilePages(data, bias, 0))
    ensures LoadLoses(b.mem, root, data, bias, |b.free|) <==> LoadLoses(a.mem, k, data, bias, |b.free|)
    ensures Acceptable(data, bias) ==> HeaderOk(data)
  {
    hide HeaderOk, EntryFrom, FilePages, Owned, Undisturbed, Frames, Loses;
    forall q
      ensures Depth(b.mem, root, q) == Depth(a.mem, k, q)
    {
      SpaceDepth(a, b, k, before, root, q);
    }
    if HeaderOk(data) {
      SameFrames(a.mem, b.mem, k, root, FilePages(data, bias, 0));
      SameLosses(a.mem, b.mem, k, root, FilePages(data, bias, 0), |b.free|);
    }
  }

  lemma SpaceDepth(a: View, b: View, k: nat, before: set<nat>, root: nat, q: Page)
    requires Sound(a, k) && NewSpace(a, b, k, before, root)
    ensures Depth(b.mem, root, q) == Depth(a.mem, k, q)
  {
    WalkFacts(a.mem, a.shape, k, k, q);
    assert At(b.mem, root, q.i4) == At(a.mem, k, q.i4);
  }

  /** The smallest case, after boot: a page in an empty slot takes four frames, so
      with one to three of them free its load loses one, and else none. */
  lemma LossAfterBoot(m: Mem, p: Page, n: nat)
    requires m == BootMemory() && p.i4 != 0
    ensures Frames(m, 1, [p]) == 4
    ensures Loses(m, 1, [p], n) <==> 1 <= n <= 3
  {
    assert m[1] == BootRow(1);
    assert Depth(m, 1, p) == 0;
    assert [p][..0] == [] && [p][..1] == [p];
    assert Reached(m, 1, [], p) == 0;
    if n <= 3 {
      LosesAt(m, 1, [p], n, 0);
    } else {
      LosesNothing(m, 1, [p], n);
    }
  }
}
