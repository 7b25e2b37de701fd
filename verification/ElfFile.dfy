/** ELF files byte by byte (System V gABI, chapters 4 and 5): where each field of
    the header and of a program header lies, and what kernel/core/elf/elf_loader.c
    makes of a file with given fields. */
module ElfFile {
  import opened Base
  import opened Paging
  import opened Spaces
  import opened Vmm
  import opened Elf

  /** Value v stands at position o in n bytes, the least significant first. */
  predicate Field(data: seq<Byte>, o: nat, n: nat, v: nat) {
    && o + n <= |data| && v < Weight(n)
    && forall k :: 0 <= k < n ==> data[o + k] as int == v / Weight(k) % 256
  }

  function Weight(k: nat): (w: nat)
    ensures w > 0
  {
    if k == 0 then 1 else 256 * Weight(k - 1)
  }

  /** The header: magic, 64-bit class, and the fields at their places. */
  predicate HasHeader(data: seq<Byte>, h: Header) {
    && |data| >= 64
    && data[0] == 0x7F && data[1] == 0x45 && data[2] == 0x4C && data[3] == 0x46 && data[4] == 2
    && Field(data, 16, 2, h.kind) && Field(data, 18, 2, h.machine) && Field(data, 24, 8, h.entry)
    && Field(data, 32, 8, h.phoff) && Field(data, 54, 2, h.phentsize) && Field(data, 56, 2, h.phnum)
  }

  /** A program header at position o; bit 0 of its flags is the right to execute,
      bit 1 the right to write. */
  predicate HasSegment(data: seq<Byte>, o: nat, s: Segment, flags: nat) {
    && o + 56 <= |data|
    && Field(data, o, 4, s.kind) && Field(data, o + 4, 4, flags)
    && Field(data, o + 8, 8, s.offset) && Field(data, o + 16, 8, s.vaddr)
    && Field(data, o + 32, 8, s.filesz) && Field(data, o + 40, 8, s.memsz)
    && (s.executable <==> flags % 2 == 1) && (s.writable <==> flags / 2 % 2 == 1)
  }

  /** A file with this header and these program headers. */
  predicate Encodes(data: seq<Byte>, h: Header, segments: seq<Segment>, flags: seq<nat>) {
    && HasHeader(data, h) && h.phnum == |segments| == |flags| && h.phoff + 56 * |segments| <= |data|
    && forall i :: 0 <= i < |segments| ==> HasSegment(data, h.phoff + 56 * i, segments[i], flags[i])
  }

  // ---------------------------------------------------------------------------
  // Decoding

  lemma {:induction false} WordIs(data: seq<Byte>, o: nat, n: nat, v: nat)
    requires Field(data, o, n, v)
    ensures Word(data, o, n) == v
    decreases n
  {
    if n > 0 {
      forall k | 0 <= k < n - 1
        ensures data[o + 1 + k] as int == v / 256 / Weight(k) % 256
      {
        NextDigit(v, k);
        assert data[o + (k + 1)] as int == v / Weight(k + 1) % 256;
      }
      WordIs(data, o + 1, n - 1, v / 256);
      assert data[o + 0] as int == v / Weight(0) % 256;
    }
  }

  lemma NextDigit(v: nat, k: nat)
    ensures v / Weight(k + 1) == v / 256 / Weight(k)
  {
    DivideTwice(v, Weight(k));
  }

  lemma DivideTwice(v: nat, b: nat)
    requires b > 0
    ensures v / (256 * b) == v / 256 / b
  {
    var q, r := v / 256 / b, v / 256 % b;
    QuotientRest(v / 256, b);
    Reordered(q, b);
    Quotient(v, 256 * b, q, 256 * r + v % 256);
  }

  lemma QuotientRest(n: nat, b: nat)
    requires b > 0
    ensures n == n / b * b + n % b && n % b < b
  {
  }

  lemma Reordered(q: nat, b: nat)
    ensures q * (256 * b) == 256 * (q * b)
  {
  }

  lemma Quotient(v: nat, d: nat, q: nat, r: nat)
    requires d > 0 && v == q * d + r && r < d
    ensures v / d == q
  {
    var p, m := v / d, v % d;
    assert v == p * d + m;
    if p < q {
      Grows(p, q, d);
    } else if p > q {
      Grows(q, p, d);
    }
  }

  lemma Grows(a: nat, b: nat, d: nat)
    requires a < b
    ensures a * d + d <= b * d
  {
    assert (b - a - 1) * d >= 0;
    assert (b - a - 1) * d == b * d - a * d - d;
  }

  lemma HeaderIs(data: seq<Byte>, h: Header)
    requires HasHeader(data, h)
    ensures HeaderOf(data) == h
    ensures HeaderOk(data) <==>
      && h.machine == 62 && h.kind == 2 && h.phentsize == 56 && h.phoff + 56 * h.phnum <= |data|
  {
    hide Field, Word;
    WordIs(data, 16, 2, h.kind);
    WordIs(data, 18, 2, h.machine);
    WordIs(data, 24, 8, h.entry);
    WordIs(data, 32, 8, h.phoff);
    WordIs(data, 54, 2, h.phentsize);
    WordIs(data, 56, 2, h.phnum);
  }

  lemma SegmentIs(data: seq<Byte>, o: nat, s: Segment, flags: nat)
    requires HasSegment(data, o, s, flags)
    ensures SegmentAt(data, o) == s
    ensures s.offset < U64 && s.vaddr < U64 && s.filesz < U64 && s.memsz < U64
  {
    hide Field, Word;
    WordIs(data, o, 4, s.kind);
    WordIs(data, o + 4, 4, flags);
    WordIs(data, o + 8, 8, s.offset);
    WordIs(data, o + 16, 8, s.vaddr);
    WordIs(data, o + 32, 8, s.filesz);
    WordIs(data, o + 40, 8, s.memsz);
    WordLimit(data, o + 8, 8);
    WordLimit(data, o + 16, 8);
    WordLimit(data, o + 32, 8);
    WordLimit(data, o + 40, 8);
    Power8();
  }

  /** The loader reads exactly the fields of the file. */
  lemma FileIs(data: seq<Byte>, h: Header, segments: seq<Segment>, flags: seq<nat>)
    requires Encodes(data, h, segments, flags)
    ensures HeaderOf(data) == h && (HeaderOk(data) <==> h.machine == 62 && h.kind == 2 && h.phentsize == 56)
    ensures HeaderOk(data) ==> Count(data) == |segments| && forall i ::
      0 <= i < |segments| ==> Ph(data, i) == segments[i]
    ensures forall i :: 0 <= i < |segments| ==> InRange(segments[i])
  {
    hide HasSegment, HasHeader, HeaderOk, SegmentAt, HeaderOf;
    HeaderIs(data, h);
    forall i | 0 <= i < |segments|
      ensures SegmentAt(data, h.phoff + i * 56) == segments[i] && InRange(segments[i])
    {
      SegmentIs(data, h.phoff + 56 * i, segments[i], flags[i]);
    }
  }

  predicate InRange(s: Segment) {
    s.offset < U64 && s.vaddr < U64 && s.filesz < U64 && s.memsz < U64
  }

  // ---------------------------------------------------------------------------
  // What is accepted and where it goes, in plain numbers

  /** The checks of load_segment on a segment at address a, without wrap-around
      except in the last case: more than 2^64 - 4096 bytes are accepted if the
      wrapped end happens to be no smaller than the start. */
  predicate Accepted(size: nat, s: Segment, bias: nat) {
    var (a, extra) := (s.vaddr + bias, s.memsz + 4095 - U64);
    && s.filesz <= s.memsz && s.offset + s.filesz <= size && a < U64
    && (s.memsz == 0 || a + s.memsz + 4095 < U64
        || (extra >= 0 && a + extra < U64 && (a % 4096 == 0 || a % 4096 + extra >= 4096)))
  }

  lemma SegmentOkMeans(size: nat, s: Segment, bias: nat)
    requires InRange(s) && bias < U64
    ensures SegmentOk(size, s, bias) <==> Accepted(size, s, bias)
  {
    var a := s.vaddr + bias;
    Modulo(a);
    if a < U64 {
      RoundedEnd(a, s.memsz);
    }
  }

  lemma RoundedEnd(a: nat, size: nat)
    requires a < U64 && size < U64
    ensures var end := (a + size + 4095) % U64 / 4096 * 4096; var extra := size + 4095 - U64;
      end >= a <==>
        || a + size + 4095 < U64
        || (extra >= 0 && a + extra < U64 && (a % 4096 == 0 || a % 4096 + extra >= 4096))
  {
    var e := a + size + 4095;
    assert U64 % 4096 == 0;
    if e < U64 {
      Modulo(e);
      assert e / 4096 * 4096 == e - e % 4096;
    } else if e < 2 * U64 {
      Modulo(e);
      var w := e - U64;
      assert w / 4096 * 4096 == w - w % 4096;
      if w >= a {
        Rounds(a, w - a);
      }
    } else {
      TwiceAround(e);
    }
  }

  /** Adding d to a passes a multiple of 4096, or a is one. */
  lemma Rounds(a: nat, d: nat)
    requires d < 4096
    ensures (a + d) / 4096 * 4096 >= a <==> a % 4096 == 0 || a % 4096 + d >= 4096
  {
    var q, r := a / 4096, a % 4096;
    assert a == q * 4096 + r;
    assert (a + d) / 4096 == if r + d < 4096 then q else q + 1;
  }

  lemma TwiceAround(e: nat)
    requires 2 * U64 <= e < 2 * U64 + 4096
    ensures e % U64 / 4096 * 4096 == 0
  {
    Modulo(e - U64);
    assert e % U64 == (e - U64) % U64;
  }

  predicate Loadable(s: Segment) {
    s.kind == 1 && s.memsz > 0
  }

  /** Segments below 2^48, page-disjoint, with their file parts in the file. */
  predicate Plain(size: nat, segments: seq<Segment>, bias: nat) {
    && (forall i :: 0 <= i < |segments| && segments[i].kind == 1 ==>
          var s := segments[i];
          && s.filesz <= s.memsz && s.offset + s.filesz <= size && s.vaddr + bias + s.memsz <= 0x1_0000_0000_0000)
    && (forall i, j :: 0 <= i < j < |segments| && Loadable(segments[i]) && Loadable(segments[j]) ==>
          Disjoint(segments[i], segments[j], bias))
  }

  predicate Disjoint(s: Segment, t: Segment, bias: nat) {
    || (s.vaddr + bias + s.memsz + 4095) / 4096 <= (t.vaddr + bias) / 4096
    || (t.vaddr + bias + t.memsz + 4095) / 4096 <= (s.vaddr + bias) / 4096
  }

  lemma PlainEnds(s: Segment, bias: nat)
    requires InRange(s) && s.vaddr + bias + s.memsz <= 0x1_0000_0000_0000
    ensures Start(s, bias) == s.vaddr + bias && PageStart(s, bias) == (s.vaddr + bias) / 4096 * 4096
    ensures PageEnd(s, bias) == (s.vaddr + bias + s.memsz + 4095) / 4096 * 4096 <= 0x1_0000_0000_0000
    ensures s.memsz <= U64 - PAGE
  {
    Modulo(s.vaddr + bias);
    Modulo(s.vaddr + bias + s.memsz + 4095);
  }

  lemma PlainIsSeparate(data: seq<Byte>, h: Header, segments: seq<Segment>, flags: seq<nat>, bias: nat)
    requires Encodes(data, h, segments, flags) && HeaderOk(data) && Plain(|data|, segments, bias)
    ensures AllOk(data, bias, 0) && Separate(data, bias)
  {
    hide Encodes, HeaderOk, Ph, Count, SegmentOk, Start, PageStart, PageEnd;
    FileIs(data, h, segments, flags);
    forall i | 0 <= i < |segments| && segments[i].kind == 1
      ensures SegmentOk(|data|, segments[i], bias)
    {
      PlainEnds(segments[i], bias);
      SegmentOkMeans(|data|, segments[i], bias);
    }
    forall i | 0 <= i < |segments| && Loadable(segments[i])
      ensures PageEnd(segments[i], bias) <= 0x1_0000_0000_0000
    {
      PlainEnds(segments[i], bias);
    }
    forall i, j | 0 <= i < j < |segments| && Loadable(segments[i]) && Loadable(segments[j])
      ensures Apart(segments[i], segments[j], bias)
    {
      assert Disjoint(segments[i], segments[j], bias);
      PlainEnds(segments[i], bias);
      PlainEnds(segments[j], bias);
    }
  }

  /** The entry point lies in a segment with the right to execute. */
  predicate EntryInside(h: Header, segments: seq<Segment>) {
    exists j :: 0 <= j < |segments| && Holds(segments[j], h.entry)
  }

  predicate Holds(s: Segment, va: nat) {
    s.kind == 1 && s.executable && s.memsz > 0 && s.vaddr <= va < s.vaddr + s.memsz
  }

  lemma EntryIs(data: seq<Byte>, h: Header, segments: seq<Segment>, flags: seq<nat>, bias: nat)
    requires Encodes(data, h, segments, flags) && HeaderOk(data) && Plain(|data|, segments, bias)
    ensures EntryFrom(data, 0) <==> EntryInside(h, segments)
  {
    hide Encodes, HeaderOk, Ph, Count, EntryFrom, HeaderOf;
    FileIs(data, h, segments, flags);
    EntryMeans(data, 0);
    if EntryFrom(data, 0) {
      var j :| 0 <= j < Count(data) && Runs(Ph(data, j))
        && Ph(data, j).vaddr <= HeaderOf(data).entry < Ph(data, j).vaddr + Ph(data, j).memsz;
      assert Holds(segments[j], h.entry);
    }
    if EntryInside(h, segments) {
      var j :| 0 <= j < |segments| && Holds(segments[j], h.entry);
      assert Runs(Ph(data, j));
    }
  }

  /** Segment s is in memory at its address: mapped for user code with its right
      to be written, the file's bytes first and zeros after them. */
  ghost predicate InMemory(v: View, root: nat, data: seq<Byte>, s: Segment, bias: nat)
    requires s.offset + s.filesz <= |data|
  {
    forall k: nat :: k < s.memsz ==> ByteThere(v, root, data, s, bias, k)
  }

  predicate ByteThere(v: View, root: nat, data: seq<Byte>, s: Segment, bias: nat, k: nat)
    requires s.offset + s.filesz <= |data|
  {
    var va := s.vaddr + bias + k;
    var w := Walk(v.mem, root, PageOf(va));
    && w.Mapped? && w.user && w.writable == s.writable
    && ByteThrough(v, root, va) == if k < s.filesz then data[s.offset + k] else 0
  }

  lemma AllInMemory(v: View, root: nat, data: seq<Byte>, h: Header, segments: seq<Segment>, flags: seq<nat>, bias: nat,
                    frames: map<Page, nat>)
    requires Encodes(data, h, segments, flags) && HeaderOk(data) && Plain(|data|, segments, bias)
      && AllOk(data, bias, 0)
    requires InPlace(v, root, PlaceFrom(map[], data, bias, 0), frames)
    ensures forall j :: 0 <= j < |segments| && segments[j].kind == 1 ==> InMemory(v, root, data, segments[j], bias)
  {
    hide Encodes, HeaderOk, Ph, Count, AllOk, Separate, InPlace, PlaceFrom, Walk, PageOf, ByteThrough, Start;
    FileIs(data, h, segments, flags);
    PlainIsSeparate(data, h, segments, flags, bias);
    forall j, k: nat | 0 <= j < |segments| && segments[j].kind == 1 && k < segments[j].memsz
      ensures ByteThere(v, root, data, segments[j], bias, k)
    {
      PlainEnds(segments[j], bias);
      LoadedBytes(v, root, data, bias, frames, j, segments[j].vaddr + bias + k);
    }
  }

  /** elf_load on a file with given fields: it is accepted exactly for the right
      machine and type, an entry point inside an executable segment, and enough
      frames; then every segment is in memory. */
  method LoadFile(vm: AddressSpaces, space: nat, data: seq<Byte>, bias: nat, ghost h: Header,
                  ghost segments: seq<Segment>, ghost flags: seq<nat>) returns (ok: bool, entry: nat)
    requires vm.Valid() && FrameOf(space) in vm.spaces && bias < U64
    requires Encodes(data, h, segments, flags) && Plain(|data|, segments, bias)
    modifies vm`mem, vm`bytes, vm`shape, vm.pmm, vm.pmm.bitmap
    ensures vm.Valid()
    ensures ok <==>
      && h.machine == 62 && h.kind == 2 && h.phentsize == 56 && HeaderOk(data)
      && EntryInside(h, segments) && h.entry + bias < U64
      && Frames(old(vm.mem), FrameOf(space), FilePages(data, bias, 0)) <= |old(vm.pmm.free)|
    ensures ok ==> entry == h.entry + bias
    ensures ok ==> forall j :: 0 <= j < |segments| && segments[j].kind == 1 ==>
      InMemory(vm.Snap(), FrameOf(space), data, segments[j], bias)
  {
    hide Encodes, HeaderOk, HeaderOf, Plain, AllOk, EntryFrom, EntryInside, InMemory, InPlace, PlaceFrom, FilePages,
         Frames, FrameOf,
         Kept, Vacant, OwnSlots, LoadLoses, LostFrame, Separate;
    FileIs(data, h, segments, flags);
    if HeaderOk(data) {
      PlainIsSeparate(data, h, segments, flags, bias);
      EntryIs(data, h, segments, flags, bias);
    }
    ghost var l, frames, lost;
    ok, entry, l, frames, lost := ElfLoad(vm, space, data, bias);
    if ok {
      AllInMemory(vm.Snap(), FrameOf(space), data, h, segments, flags, bias, frames);
    }
  }
}
