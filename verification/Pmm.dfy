/** The physical frame allocator (kernel/mm/pmm.c): one bit per 4 KiB frame, a
    count of clear bits and a hint where the next single-frame scan starts. */
module Pmm {
  import opened Base

  const MAX_MEMORY: nat := 0x1_0000_0000
  const MAX_FRAMES: nat := 0x10_0000

  /** An entry of the firmware's memory map; base and length are 64-bit values. */
  datatype Region = Region(base: nat, length: nat, usable: bool)

  function RegionEnd(r: Region): nat {
    (r.base + r.length) % U64
  }

  /** Frame f lies wholly inside region r, below the tracked limit. */
  predicate Inside(r: Region, f: nat) {
    r.usable && f < MAX_FRAMES && r.base <= f * PAGE && (f + 1) * PAGE <= RegionEnd(r)
  }

  lemma NotInside(r: Region)
    ensures !r.usable || r.base >= MAX_MEMORY ==> forall f: nat :: !Inside(r, f)
  {
  }

  lemma InsideFrames(r: Region, first: nat, last: nat)
    requires r.usable && r.base < MAX_MEMORY && first == (r.base + PAGE - 1) / PAGE
    requires last == (if RegionEnd(r) > MAX_MEMORY then MAX_MEMORY else RegionEnd(r)) / PAGE
    ensures last <= MAX_FRAMES && forall f: nat :: first <= f < last <==> Inside(r, f)
  {
  }

  lemma TouchedFrames(start: nat, end: nat)
    requires start < end
    ensures start / PAGE <= (end + PAGE - 1) / PAGE
    ensures forall f: nat :: start / PAGE <= f < (end + PAGE - 1) / PAGE <==> Touches(start, end, f)
  {
  }

  predicate InsideSome(regions: seq<Region>, f: nat) {
    exists i :: 0 <= i < |regions| && Inside(regions[i], f)
  }

  /** Frame f shares at least one byte with the address range [start, end). */
  predicate Touches(start: nat, end: nat, f: nat) {
    f * PAGE < end && start < (f + 1) * PAGE
  }

  predicate Reserved(kernelEnd: nat, f: nat) {
    || Touches(0, 0x8200, f)
    || Touches(0x80000, 0xA0000, f)
    || Touches(0x8200, kernelEnd, f)
    || Touches(0xB8000, 0xB8000 + 4000, f)
  }

  /** `count` consecutive free frames starting at frame s. */
  predicate FreeRun(free: set<nat>, s: nat, count: nat) {
    s + count <= MAX_FRAMES && forall f :: s <= f < s + count ==> f in free
  }

  /** The frames [s, s + count). */
  function Frames(s: nat, count: nat): (r: set<nat>)
    ensures forall f: nat :: f in r <==> s <= f < s + count
  {
    if count == 0 then {} else Frames(s, count - 1) + {s + count - 1}
  }

  /** The frame looked at in step i of a scan that starts at the hint. */
  function Scanned(hint: nat, i: nat): nat {
    (hint + i) % MAX_FRAMES
  }

  /** i is the least scan offset from the hint at which a free frame sits. */
  predicate FirstFree(free: set<nat>, hint: nat, i: nat) {
    Scanned(hint, i) in free && forall k :: 0 <= k < i ==> Scanned(hint, k) !in free
  }

  /** The lowest run of `count` free frames starts at s. */
  ghost predicate LowestRun(free: set<nat>, s: nat, count: nat) {
    FreeRun(free, s, count) && forall t :: FreeRun(free, t, count) ==> s <= t
  }

  lemma LowestRunFits(free: set<nat>, s: nat, count: nat)
    requires LowestRun(free, s, count)
    ensures s + count <= MAX_FRAMES
    ensures forall f :: s <= f < s + count ==> f in free
  {
  }

  function Mask(k: nat): bv8
    requires k < 8
  {
    if k == 0 then 0x01 else if k == 1 then 0x02 else if k == 2 then 0x04 else if k == 3 then 0x08
    else if k == 4 then 0x10 else if k == 5 then 0x20 else if k == 6 then 0x40 else 0x80
  }

  function WithBit(b: bv8, k: nat): bv8
    requires k < 8
  {
    b | Mask(k)
  }

  function WithoutBit(b: bv8, k: nat): bv8
    requires k < 8
  {
    b & !Mask(k)
  }

  predicate BitSet(b: bv8, k: nat)
    requires k < 8
  {
    b & Mask(k) != 0
  }

  lemma SetBit(b: bv8, k: nat, j: nat)
    requires k < 8 && j < 8
    ensures BitSet(WithBit(b, k), j) <==> (j == k || BitSet(b, j))
  {
  }

  lemma ClearBit(b: bv8, k: nat, j: nat)
    requires k < 8 && j < 8
    ensures BitSet(WithoutBit(b, k), j) <==> (j != k && BitSet(b, j))
  {
  }

  /** The bitmap marks frame f used. */
  predicate Marked(bitmap: seq<bv8>, f: nat)
    requires |bitmap| == MAX_FRAMES / 8 && f < MAX_FRAMES
  {
    BitSet(bitmap[f / 8], f % 8)
  }

  lemma MarkUsed(bitmap: seq<bv8>, f: nat, g: nat)
    requires |bitmap| == MAX_FRAMES / 8 && f < MAX_FRAMES && g < MAX_FRAMES
    ensures Marked(bitmap[f / 8 := WithBit(bitmap[f / 8], f % 8)], g) <==> g == f || Marked(bitmap, g)
  {
    SetBit(bitmap[f / 8], f % 8, g % 8);
  }

  lemma MarkFree(bitmap: seq<bv8>, f: nat, g: nat)
    requires |bitmap| == MAX_FRAMES / 8 && f < MAX_FRAMES && g < MAX_FRAMES
    ensures Marked(bitmap[f / 8 := WithoutBit(bitmap[f / 8], f % 8)], g) <==> g != f && Marked(bitmap, g)
  {
    ClearBit(bitmap[f / 8], f % 8, g % 8);
  }

  /** The bitmap marks exactly the frames outside `free`. */
  ghost predicate Agrees(bitmap: seq<bv8>, free: set<nat>) {
    && |bitmap| == MAX_FRAMES / 8
    && (forall f: nat :: f < MAX_FRAMES ==> (f in free <==> !Marked(bitmap, f)))
    && (forall f :: f in free ==> f < MAX_FRAMES)
  }

  lemma TakeAgrees(bitmap: seq<bv8>, free: set<nat>, f: nat)
    requires Agrees(bitmap, free) && f < MAX_FRAMES
    ensures Agrees(bitmap[f / 8 := WithBit(bitmap[f / 8], f % 8)], free - {f})
  {
    forall g: nat | g < MAX_FRAMES {
      MarkUsed(bitmap, f, g);
    }
  }

  lemma GiveAgrees(bitmap: seq<bv8>, free: set<nat>, f: nat)
    requires Agrees(bitmap, free) && f < MAX_FRAMES
    ensures Agrees(bitmap[f / 8 := WithoutBit(bitmap[f / 8], f % 8)], free + {f})
  {
    forall g: nat | g < MAX_FRAMES {
      MarkFree(bitmap, f, g);
    }
  }

  /** After looking at frames [0, f) the last runLen of them are free, and any
      run of `count` free frames starts at f - runLen or later. */
  ghost predicate Scanning(free: set<nat>, f: nat, runLen: nat, count: nat) {
    && runLen <= f
    && (forall g :: f - runLen <= g < f ==> g in free)
    && (forall s :: FreeRun(free, s, count) ==> f - runLen <= s)
  }

  lemma ScanUsed(free: set<nat>, f: nat, runLen: nat, count: nat)
    requires Scanning(free, f, runLen, count) && runLen < count && f !in free
    ensures Scanning(free, f + 1, 0, count)
  {
    forall s: nat | FreeRun(free, s, count)
      ensures f + 1 <= s
    {
      assert f - runLen <= s;
      assert s <= f ==> f < s + count;
    }
  }

  /** The cyclic scan of MAX_FRAMES steps from any hint visits every frame. */
  lemma ScanReaches(hint: nat, f: nat)
    requires f < MAX_FRAMES
    ensures exists i :: 0 <= i < MAX_FRAMES && Scanned(hint, i) == f
  {
    var h := hint % MAX_FRAMES;
    var i := if f >= h then f - h else f + MAX_FRAMES - h;
    assert hint == (hint / MAX_FRAMES) * MAX_FRAMES + h;
    assert Scanned(hint, i) == f;
  }

  class FrameAllocator {
    const bitmap: array<bv8>
    var totalFrames: nat
    var freeFrames: nat
    var searchHint: nat
    ghost var free: set<nat>
    /** How many releases so far named a frame that was already free. */
    ghost var idleFrees: nat

    ghost predicate Valid()
      reads this, bitmap
    {
      && bitmap.Length == MAX_FRAMES / 8
      && Agrees(bitmap[..], free)
      && freeFrames == |free|
    }

    constructor ()
      ensures Valid() && fresh(bitmap)
      ensures free == {} && idleFrees == 0 && searchHint == 0 && totalFrames == 0
    {
      bitmap := new bv8[MAX_FRAMES / 8](_ => 0xFF);
      totalFrames, freeFrames, searchHint := 0, 0, 0;
      free, idleFrees := {}, 0;
    }

    method SetUsed(f: nat)
      requires Valid()
      modifies this`freeFrames, this`free, bitmap
      ensures Valid()
      ensures free == old(free) - {f}
    {
      hide BitSet, WithBit;
      if f >= MAX_FRAMES {
        return;
      }
      var byte, bit := f / 8, f % 8;
      assert BitSet(bitmap[byte], bit) == Marked(bitmap[..], f);
      if !BitSet(bitmap[byte], bit) {
        TakeAgrees(bitmap[..], free, f);
        ghost var before := bitmap[..];
        bitmap[byte] := WithBit(bitmap[byte], bit);
        assert bitmap[..] == before[byte := WithBit(before[byte], bit)];
        if freeFrames > 0 {
          freeFrames := freeFrames - 1;
        }
        free := free - {f};
      }
    }

    method SetFree(f: nat)
      requires Valid()
      modifies this`freeFrames, this`free, bitmap
      ensures Valid()
      ensures free == if f < MAX_FRAMES then old(free) + {f} else old(free)
    {
      hide BitSet, WithoutBit;
      if f >= MAX_FRAMES {
        return;
      }
      var byte, bit := f / 8, f % 8;
      assert BitSet(bitmap[byte], bit) == Marked(bitmap[..], f);
      if BitSet(bitmap[byte], bit) {
        GiveAgrees(bitmap[..], free, f);
        ghost var before := bitmap[..];
        bitmap[byte] := WithoutBit(bitmap[byte], bit);
        assert bitmap[..] == before[byte := WithoutBit(before[byte], bit)];
        freeFrames := freeFrames + 1;
        free := free + {f};
      }
    }

    method IsUsed(f: nat) returns (used: bool)
      requires Valid()
      ensures used <==> f !in free
    {
      if f >= MAX_FRAMES {
        return true;
      }
      used := BitSet(bitmap[f / 8], f % 8);
      assert used == Marked(bitmap[..], f);
    }

    method ReserveRange(start: nat, end: nat)
      requires Valid() && start < end
      modifies this`freeFrames, this`free, bitmap
      ensures Valid()
      ensures forall f: nat :: f in free <==> f in old(free) && !Touches(start, end, f)
    {
      hide Agrees, Touches;
      var first := start / PAGE;
      var last := (end + PAGE - 1) / PAGE;
      TouchedFrames(start, end);
      var f := first;
      while f < last
        invariant first <= f <= last
        invariant Valid()
        invariant forall g: nat :: g in free <==> g in old(free) && !(first <= g < f)
      {
        SetUsed(f);
        f := f + 1;
      }
    }

    /** Frees the whole frames of one region; firmware entries of other types
        and entries above the tracked range are skipped. */
    method AddRegion(r: Region)
      requires Valid()
      modifies this, bitmap
      ensures Valid() && idleFrees == old(idleFrees) && searchHint == old(searchHint)
      ensures forall f: nat :: f in free <==> f in old(free) || Inside(r, f)
    {
      hide Agrees, Inside;
      NotInside(r);
      if !r.usable || r.base >= MAX_MEMORY {
        return;
      }
      var end := RegionEnd(r);
      if end > MAX_MEMORY {
        end := MAX_MEMORY;
      }
      var first := (r.base + PAGE - 1) / PAGE;
      var last := end / PAGE;
      InsideFrames(r, first, last);
      var f := first;
      while f < last
        invariant first <= f && (f <= last || f == first)
        invariant Valid() && idleFrees == old(idleFrees) && searchHint == old(searchHint)
        invariant forall g: nat :: g in free <==> g in old(free) || (first <= g < f)
      {
        SetFree(f);
        totalFrames := totalFrames + 1;
        f := f + 1;
      }
    }

    /** Boot-time set-up from the memory map and the end of the kernel image. */
    method Init(regions: seq<Region>, kernelEnd: nat)
      requires Valid() && 0x8200 < kernelEnd
      modifies this, bitmap
      ensures Valid()
      ensures forall f: nat :: f in free <==> InsideSome(regions, f) && !Reserved(kernelEnd, f)
      ensures 0 !in free && searchHint == 0
    {
      var b := 0;
      while b < bitmap.Length
        invariant 0 <= b <= bitmap.Length
        invariant bitmap.Length == MAX_FRAMES / 8
        invariant forall k :: 0 <= k < b ==> bitmap[k] == 0xFF
      {
        bitmap[b] := 0xFF;
        b := b + 1;
      }
      totalFrames, freeFrames, searchHint := 0, 0, 0;
      free := {};
      assert Valid();
      var i := 0;
      while i < |regions|
        invariant 0 <= i <= |regions|
        invariant Valid() && searchHint == 0
        invariant forall f: nat :: f in free <==> InsideSome(regions[..i], f)
      {
        AddRegion(regions[i]);
        assert regions[..i + 1] == regions[..i] + [regions[i]];
        forall f: nat
          ensures InsideSome(regions[..i + 1], f) <==> InsideSome(regions[..i], f) || Inside(regions[i], f)
        {
          InsideSnoc(regions[..i], regions[i], f);
        }
        i := i + 1;
      }
      assert regions[..|regions|] == regions;
      ReserveRange(0, 0x8200);
      ReserveRange(0x80000, 0xA0000);
      ReserveRange(0x8200, kernelEnd);
      ReserveRange(0xB8000, 0xB8000 + 4000);
      assert Touches(0, 0x8200, 0);
    }

    /** Next-fit allocation of one frame; the result is a byte address, 0 on
        exhaustion. The scan starts at the hint and takes the first free frame. */
    method AllocFrame() returns (addr: nat)
      requires Valid()
      modifies this`freeFrames, this`free, this`searchHint, bitmap
      ensures Valid()
      ensures old(free) == {} ==> addr == 0 && free == {} && searchHint == old(searchHint)
      ensures old(free) != {} ==>
        exists i :: 0 <= i < MAX_FRAMES && FirstFree(old(free), old(searchHint), i)
          && addr == Scanned(old(searchHint), i) * PAGE
      ensures old(free) != {} ==>
        addr / PAGE in old(free) && addr % PAGE == 0 &&
        free == old(free) - {addr / PAGE} && searchHint == addr / PAGE + 1
    {
      var i := 0;
      while i < MAX_FRAMES
        invariant 0 <= i <= MAX_FRAMES
        invariant Valid() && free == old(free) && searchHint == old(searchHint)
        invariant forall k :: 0 <= k < i ==> Scanned(searchHint, k) !in free
      {
        var f := Scanned(searchHint, i);
        var used := IsUsed(f);
        if !used {
          assert FirstFree(free, searchHint, i);
          SetUsed(f);
          searchHint := f + 1;
          return f * PAGE;
        }
        i := i + 1;
      }
      forall f | f in free
        ensures false
      {
        ScanReaches(searchHint, f);
      }
      return 0;
    }

    /** The scan of AllocContiguous: the lowest run of `count` free frames. */
    method FindRun(count: nat) returns (found: bool, start: nat)
      requires Valid() && count > 0
      ensures found <==> exists s :: FreeRun(free, s, count)
      ensures found ==> LowestRun(free, start, count)
    {
      var runStart, runLen, f := 0, 0, 0;
      while f < MAX_FRAMES
        invariant 0 <= f <= MAX_FRAMES && 0 <= runLen < count
        invariant runLen > 0 ==> runStart + runLen == f
        invariant Scanning(free, f, runLen, count)
      {
        var used := IsUsed(f);
        if !used {
          if runLen == 0 {
            runStart := f;
          }
          runLen := runLen + 1;
          if runLen == count {
            assert FreeRun(free, runStart, count);
            return true, runStart;
          }
        } else {
          ScanUsed(free, f, runLen, count);
          runLen := 0;
        }
        f := f + 1;
      }
      return false, 0;
    }

    /** First-fit allocation of `count` adjacent frames, lowest run first. */
    method AllocContiguous(count: nat) returns (addr: nat)
      requires Valid()
      modifies this`freeFrames, this`free, bitmap
      ensures Valid()
      ensures count == 0 || (forall s :: !FreeRun(old(free), s, count)) ==> addr == 0 && free == old(free)
      ensures count != 0 && (exists s :: FreeRun(old(free), s, count)) ==>
        && addr % PAGE == 0
        && LowestRun(old(free), addr / PAGE, count)
        && free == old(free) - Frames(addr / PAGE, count)
    {
      hide BitSet, FreeRun, LowestRun, Agrees, Frames;
      if count == 0 {
        return 0;
      }
      var found, start := FindRun(count);
      if !found {
        return 0;
      }
      assert start + count <= MAX_FRAMES by {
        LowestRunFits(free, start, count);
      }
      Claim(start, count);
      addr := start * PAGE;
    }

    /** Marks a run of frames used. */
    method Claim(start: nat, count: nat)
      requires Valid() && start + count <= MAX_FRAMES
      modifies this`freeFrames, this`free, bitmap
      ensures Valid()
      ensures free == old(free) - Frames(start, count)
    {
      hide Agrees;
      ghost var was := free;
      var i := 0;
      while i < count
        invariant 0 <= i <= count
        invariant Valid()
        invariant forall f: nat :: f in free <==> f in was && !(start <= f < start + i)
      {
        SetUsed(start + i);
        i := i + 1;
      }
    }

    method FreeFrame(addr: nat)
      requires Valid()
      modifies this`freeFrames, this`free, this`idleFrees, bitmap
      ensures Valid()
      ensures free == if addr / PAGE < MAX_FRAMES then old(free) + {addr / PAGE} else old(free)
      ensures idleFrees == old(idleFrees) + if addr / PAGE in old(free) then 1 else 0
    {
      if addr / PAGE in free {
        idleFrees := idleFrees + 1;
      }
      SetFree(addr / PAGE);
    }
  }

  lemma InsideSnoc(rs: seq<Region>, r: Region, f: nat)
    ensures InsideSome(rs + [r], f) <==> InsideSome(rs, f) || Inside(r, f)
  {
    if InsideSome(rs, f) {
      var i :| 0 <= i < |rs| && Inside(rs[i], f);
      assert (rs + [r])[i] == rs[i];
    }
    if Inside(r, f) {
      assert (rs + [r])[|rs|] == r;
    }
    if InsideSome(rs + [r], f) && !Inside(r, f) {
      var i :| 0 <= i < |rs + [r]| && Inside((rs + [r])[i], f);
      assert i < |rs|;
    }
  }

  /** With frame 0 reserved, as Init leaves it, address 0 always means failure. */
  lemma ZeroMeansFailure(free: set<nat>, addr: nat)
    requires 0 !in free && addr / PAGE in free
    ensures addr != 0
  {
  }
}
