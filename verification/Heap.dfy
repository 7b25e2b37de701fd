/** The kernel heap of kernel/mm/heap.c: block headers in memory, linked from
    heap_head, over runs of frames taken from the frame allocator. First fit,
    splitting, growth in front of the list, merging in list order. */
module Heap {
  import opened Base
  import P = Pmm

  const HEADER: nat := 24
  const ALIGN: nat := 16

  /** A header as it lies in memory; next is an address, 0 at the end. */
  datatype Header = Header(size: nat, free: bool, next: nat)

  /** A block of the list: its header's address, its usable size. */
  datatype Block = Block(addr: nat, size: nat, free: bool)

  function End(b: Block): nat {
    b.addr + HEADER + b.size
  }

  predicate In(b: Block, x: nat) {
    b.addr <= x < End(b)
  }

  predicate Disjoint(b: Block, c: Block) {
    End(b) <= c.addr || End(c) <= b.addr
  }

  predicate Covers(blocks: seq<Block>, x: nat) {
    exists i :: 0 <= i < |blocks| && In(blocks[i], x)
  }

  predicate StartsRun(runs: seq<Block>, x: nat) {
    exists k :: 0 <= k < |runs| && runs[k].addr == x
  }

  predicate EndsRun(runs: seq<Block>, x: nat) {
    exists k :: 0 <= k < |runs| && End(runs[k]) == x
  }

  /** Block i ends where a run ends, or the next block of the list follows it in
      memory; and it starts where a run starts, or follows the block before. */
  predicate Follows(blocks: seq<Block>, runs: seq<Block>, i: nat)
    requires i < |blocks|
  {
    && (EndsRun(runs, End(blocks[i])) || (i + 1 < |blocks| && blocks[i + 1].addr == End(blocks[i])))
    && (StartsRun(runs, blocks[i].addr) || (i > 0 && End(blocks[i - 1]) == blocks[i].addr))
  }

  /** The blocks tile exactly the frames taken, run by run. */
  ghost predicate Tiled(blocks: seq<Block>, frames: set<nat>, runs: seq<Block>) {
    && (forall i :: 0 <= i < |blocks| ==> blocks[i].addr > 0)
    && (forall i, j :: 0 <= i < j < |blocks| ==> Disjoint(blocks[i], blocks[j]))
    && (forall x: nat :: Covers(blocks, x) <==> x / PAGE in frames)
    && (forall i :: 0 <= i < |blocks| ==> Follows(blocks, runs, i))
  }

  function NextOf(blocks: seq<Block>, i: nat): nat {
    if i + 1 < |blocks| then blocks[i + 1].addr else 0
  }

  function AddrAt(blocks: seq<Block>, i: nat): nat {
    if i < |blocks| then blocks[i].addr else 0
  }

  /** The headers in memory form the list. */
  predicate Linked(headers: map<nat, Header>, head: nat, blocks: seq<Block>) {
    && head == AddrAt(blocks, 0)
    && forall i :: 0 <= i < |blocks| ==>
         blocks[i].addr in headers
           && headers[blocks[i].addr] == Header(blocks[i].size, blocks[i].free, NextOf(blocks, i))
  }

  /** The blocks handed out. */
  function Live(blocks: seq<Block>): set<Block> {
    set i | 0 <= i < |blocks| && !blocks[i].free :: blocks[i]
  }

  /** Headers were written only outside the memory of live blocks. */
  ghost predicate Spares(headers: map<nat, Header>, headers': map<nat, Header>, live: set<Block>) {
    forall a, b :: a in headers' && !(a in headers && headers[a] == headers'[a]) && b in live ==>
      a + HEADER <= b.addr + HEADER || End(b) <= a
  }

  function AlignUp(n: nat): nat {
    (n + ALIGN - 1) / ALIGN * ALIGN
  }

  /** What becomes of a chosen block of B bytes when n are wanted: if the rest can
      hold a header and 16 bytes it is split off as a free block, else the whole
      block is handed out. */
  ghost predicate Carved(was: seq<Block>, now: seq<Block>, i: nat, n: nat, kept: nat) {
    && i < |was|
    && var (a, B) := (was[i].addr, was[i].size);
       if B >= n + 24 + 16 then
         && kept == n
         && now == was[..i] + [Block(a, n, false), Block(a + 24 + n, B - n - 24, true)] + was[i + 1..]
       else
         && kept == B
         && now == was[..i] + [Block(a, B, false)] + was[i + 1..]
  }

  lemma CarvedFacts(was: seq<Block>, now: seq<Block>, i: nat, n: nat, kept: nat)
    requires Carved(was, now, i, n, kept) && was[i].size >= n
    ensures n <= kept <= was[i].size
  {
  }

  // ---------------------------------------------------------------------------
  // Splitting

  function Split(blocks: seq<Block>, i: nat, size: nat): seq<Block>
    requires i < |blocks| && size + HEADER <= blocks[i].size
  {
    var b := blocks[i];
    blocks[..i] + [Block(b.addr, size, b.free),
      Block(b.addr + HEADER + size, b.size - size - HEADER, true)] + blocks[i + 1..]
  }

  lemma SplitDisjoint(blocks: seq<Block>, i: nat, size: nat)
    requires i < |blocks| && size + HEADER <= blocks[i].size
    requires forall j, k :: 0 <= j < k < |blocks| ==> Disjoint(blocks[j], blocks[k])
    ensures var r := Split(blocks, i, size); forall j, k :: 0 <= j < k < |r| ==> Disjoint(r[j], r[k])
  {
    var r := Split(blocks, i, size);
    forall j, k | 0 <= j < k < |r|
      ensures Disjoint(r[j], r[k])
    {
      var j', k' := if j <= i then j else j - 1, if k <= i then k else k - 1;
      assert j' != k' ==> Disjoint(blocks[j'], blocks[k']);
    }
  }

  lemma SplitTiled(blocks: seq<Block>, frames: set<nat>, runs: seq<Block>, i: nat, size: nat)
    requires Tiled(blocks, frames, runs) && i < |blocks| && size + HEADER <= blocks[i].size
    ensures Tiled(Split(blocks, i, size), frames, runs)
  {
    hide Covers, Disjoint;
    var r := Split(blocks, i, size);
    SplitDisjoint(blocks, i, size);
    forall x: nat
      ensures Covers(r, x) <==> x / PAGE in frames
    {
      SplitCovers(blocks, i, size, x);
    }
    forall j | 0 <= j < |r|
      ensures Follows(r, runs, j)
    {
      assert Follows(blocks, runs, if j <= i then j else j - 1);
    }
  }

  lemma SplitCovers(blocks: seq<Block>, i: nat, size: nat, x: nat)
    requires i < |blocks| && size + HEADER <= blocks[i].size
    ensures Covers(Split(blocks, i, size), x) <==> Covers(blocks, x)
  {
    var r := Split(blocks, i, size);
    if Covers(blocks, x) {
      var j: nat :| j < |blocks| && In(blocks[j], x);
      assert In(r[if j < i then j else if j == i && x < End(r[i]) then i else j + 1], x);
    }
    if Covers(r, x) {
      var j: nat :| j < |r| && In(r[j], x);
      assert In(blocks[if j <= i then j else j - 1], x);
    }
  }

  // ---------------------------------------------------------------------------
  // Changing the state of a block

  lemma MarkTiled(blocks: seq<Block>, frames: set<nat>, runs: seq<Block>, i: nat, free: bool)
    requires Tiled(blocks, frames, runs) && i < |blocks|
    ensures Tiled(blocks[i := blocks[i].(free := free)], frames, runs)
  {
    var r := blocks[i := blocks[i].(free := free)];
    forall j, k | 0 <= j < k < |r|
      ensures Disjoint(r[j], r[k])
    {
      assert Disjoint(blocks[j], blocks[k]);
    }
    forall x: nat
      ensures Covers(r, x) <==> x / PAGE in frames
    {
      assert forall j :: 0 <= j < |r| ==> In(r[j], x) == In(blocks[j], x);
      assert Covers(r, x) <==> Covers(blocks, x);
    }
    forall j | 0 <= j < |r|
      ensures Follows(r, runs, j)
    {
      assert Follows(blocks, runs, j);
    }
  }

  // ---------------------------------------------------------------------------
  // Growing

  lemma GrownTiled(blocks: seq<Block>, frames: set<nat>, runs: seq<Block>, start: nat, count: nat)
    requires Tiled(blocks, frames, runs) && count > 0 && start > 0
    requires forall f :: start <= f < start + count ==> f !in frames
    ensures Tiled([Block(start * PAGE, count * PAGE - HEADER, true)] + blocks, frames + P.Frames(start, count),
                  [Block(start * PAGE, count * PAGE - HEADER, true)] + runs)
  {
    hide Covers, Follows, StartsRun, EndsRun, In;
    var b := Block(start * PAGE, count * PAGE - HEADER, true);
    var r, all := [b] + blocks, frames + P.Frames(start, count);
    assert End(b) == (start + count) * PAGE;
    forall k | 0 <= k < |blocks|
      ensures Disjoint(b, blocks[k])
    {
      RunApart(blocks, frames, runs, start, count, k);
    }
    forall x: nat
      ensures Covers(r, x) <==> x / PAGE in all
    {
      RunCovers(b, start, count, x);
      GrownCovers(blocks, b, x);
    }
    GrownFollows(blocks, runs, b);
  }

  lemma GrownCovers(blocks: seq<Block>, b: Block, x: nat)
    ensures Covers([b] + blocks, x) <==> In(b, x) || Covers(blocks, x)
  {
    var r := [b] + blocks;
    if Covers(blocks, x) {
      var j: nat :| j < |blocks| && In(blocks[j], x);
      assert In(r[j + 1], x);
    }
    if Covers(r, x) {
      var j: nat :| j < |r| && In(r[j], x);
      assert j > 0 ==> In(blocks[j - 1], x);
    }
    assert In(b, x) ==> In(r[0], x);
  }

  lemma GrownFollows(blocks: seq<Block>, runs: seq<Block>, b: Block)
    requires forall j :: 0 <= j < |blocks| ==> Follows(blocks, runs, j)
    ensures forall j :: 0 <= j < |[b] + blocks| ==> Follows([b] + blocks, [b] + runs, j)
  {
    hide StartsRun, EndsRun;
    var r, more := [b] + blocks, [b] + runs;
    FirstRun(runs, b);
    forall j | 0 <= j < |r|
      ensures Follows(r, more, j)
    {
      if j > 0 {
        assert Follows(blocks, runs, j - 1);
        MoreRuns(runs, b, End(r[j]));
        MoreRuns(runs, b, r[j].addr);
      }
    }
  }

  lemma FirstRun(runs: seq<Block>, b: Block)
    ensures StartsRun([b] + runs, b.addr) && EndsRun([b] + runs, End(b))
  {
    assert ([b] + runs)[0] == b;
  }

  lemma MoreRuns(runs: seq<Block>, b: Block, x: nat)
    ensures EndsRun(runs, x) ==> EndsRun([b] + runs, x)
    ensures StartsRun(runs, x) ==> StartsRun([b] + runs, x)
  {
    if EndsRun(runs, x) {
      var k :| 0 <= k < |runs| && End(runs[k]) == x;
      assert End(([b] + runs)[k + 1]) == x;
    }
    if StartsRun(runs, x) {
      var k :| 0 <= k < |runs| && runs[k].addr == x;
      assert ([b] + runs)[k + 1].addr == x;
    }
  }

  lemma RunCovers(b: Block, start: nat, count: nat, x: nat)
    requires b.addr == start * PAGE && End(b) == (start + count) * PAGE
    ensures In(b, x) <==> start <= x / PAGE < start + count
  {
  }

  lemma RunApart(blocks: seq<Block>, frames: set<nat>, runs: seq<Block>, start: nat, count: nat, k: nat)
    requires Tiled(blocks, frames, runs) && k < |blocks|
    requires forall f :: start <= f < start + count ==> f !in frames
    requires count > 0
    ensures blocks[k].addr + HEADER + blocks[k].size <= start * PAGE || (start + count) * PAGE <= blocks[k].addr
  {
    var c := blocks[k];
    if c.addr < start * PAGE < End(c) {
      Taken(blocks, frames, runs, k, start * PAGE);
    } else if start * PAGE <= c.addr < (start + count) * PAGE {
      Taken(blocks, frames, runs, k, c.addr);
    }
  }

  /** Every byte of a block is in a frame of the heap. */
  lemma Taken(blocks: seq<Block>, frames: set<nat>, runs: seq<Block>, k: nat, x: nat)
    requires Tiled(blocks, frames, runs) && k < |blocks| && In(blocks[k], x)
    ensures x / PAGE in frames
  {
    assert Covers(blocks, x);
  }

  // ---------------------------------------------------------------------------
  // Merging

  predicate Mergeable(blocks: seq<Block>, i: nat) {
    i + 1 < |blocks| && blocks[i].free && blocks[i + 1].free && End(blocks[i]) == blocks[i + 1].addr
  }

  function MergeAt(blocks: seq<Block>, i: nat): seq<Block>
    requires Mergeable(blocks, i)
  {
    blocks[..i] + [Block(blocks[i].addr, blocks[i].size + HEADER + blocks[i + 1].size, true)] + blocks[i + 2..]
  }

  /** The merging pass of kfree, from block i on. */
  function Merged(blocks: seq<Block>, i: nat): seq<Block>
    decreases |blocks|, |blocks| - i
  {
    if i + 1 >= |blocks| then blocks
    else if Mergeable(blocks, i) then Merged(MergeAt(blocks, i), i)
    else Merged(blocks, i + 1)
  }

  lemma MergeTiled(blocks: seq<Block>, frames: set<nat>, runs: seq<Block>, i: nat)
    requires Tiled(blocks, frames, runs) && Mergeable(blocks, i)
    ensures Tiled(MergeAt(blocks, i), frames, runs) && Live(MergeAt(blocks, i)) == Live(blocks)
  {
    var r := MergeAt(blocks, i);
    forall j, k | 0 <= j < k < |r|
      ensures Disjoint(r[j], r[k])
    {
      var j', k' := if j <= i then j else j + 1, if k <= i then k else k + 1;
      assert Disjoint(blocks[j'], blocks[k']);
      assert j == i ==> Disjoint(blocks[i + 1], blocks[k']);
      assert k == i ==> Disjoint(blocks[j'], blocks[i + 1]);
    }
    forall x: nat
      ensures Covers(r, x) <==> x / PAGE in frames
    {
      MergeCovers(blocks, i, x);
    }
    MergeFollows(blocks, runs, i);
    MergeLive(blocks, i);
  }

  lemma MergeFollows(blocks: seq<Block>, runs: seq<Block>, i: nat)
    requires Mergeable(blocks, i) && forall j :: 0 <= j < |blocks| ==> Follows(blocks, runs, j)
    ensures forall j :: 0 <= j < |MergeAt(blocks, i)| ==> Follows(MergeAt(blocks, i), runs, j)
  {
    hide StartsRun, EndsRun;
    var r := MergeAt(blocks, i);
    assert Follows(blocks, runs, i) && Follows(blocks, runs, i + 1);
    forall j | 0 <= j < |r|
      ensures Follows(r, runs, j)
    {
      assert Follows(blocks, runs, if j < i then j else j + 1);
    }
  }

  lemma MergeCovers(blocks: seq<Block>, i: nat, x: nat)
    requires Mergeable(blocks, i)
    ensures Covers(MergeAt(blocks, i), x) <==> Covers(blocks, x)
  {
    var r := MergeAt(blocks, i);
    if Covers(blocks, x) {
      var j: nat :| j < |blocks| && In(blocks[j], x);
      assert In(r[if j <= i then j else j - 1], x);
    }
    if Covers(r, x) {
      var j: nat :| j < |r| && In(r[j], x);
      assert In(blocks[if j < i then j else if j == i && x < End(blocks[i]) then i else j + 1], x);
    }
  }

  lemma MergeLive(blocks: seq<Block>, i: nat)
    requires Mergeable(blocks, i)
    ensures Live(MergeAt(blocks, i)) == Live(blocks)
  {
    var r := MergeAt(blocks, i);
    forall b | b in Live(blocks)
      ensures b in Live(r)
    {
      var j: nat :| j < |blocks| && !blocks[j].free && blocks[j] == b;
      assert r[if j < i then j else j - 1] == b;
    }
    forall b | b in Live(r)
      ensures b in Live(blocks)
    {
      var j: nat :| j < |r| && !r[j].free && r[j] == b;
      assert blocks[if j < i then j else j + 1] == b;
    }
  }

  lemma MergeEarlier(blocks: seq<Block>, i: nat)
    requires Mergeable(blocks, i) && forall j: nat :: j < i ==> !Mergeable(blocks, j)
    ensures forall j: nat :: j < i ==> !Mergeable(MergeAt(blocks, i), j)
  {
    forall j: nat | j < i
      ensures !Mergeable(MergeAt(blocks, i), j)
    {
      assert !Mergeable(blocks, j);
    }
  }

  /** No two free blocks next to each other, in the list and in memory, are left,
      and nothing else changed. */
  lemma {:induction false} MergedKeeps(blocks: seq<Block>, frames: set<nat>, runs: seq<Block>, i: nat)
    requires Tiled(blocks, frames, runs)
    requires forall j: nat :: j < i ==> !Mergeable(blocks, j)
    ensures Tiled(Merged(blocks, i), frames, runs) && Live(Merged(blocks, i)) == Live(blocks)
    ensures forall j: nat :: !Mergeable(Merged(blocks, i), j)
    decreases |blocks|, |blocks| - i
  {
    hide Tiled, Live;
    if i + 1 < |blocks| {
      if Mergeable(blocks, i) {
        MergeTiled(blocks, frames, runs, i);
        MergeEarlier(blocks, i);
        MergedKeeps(MergeAt(blocks, i), frames, runs, i);
      } else {
        MergedKeeps(blocks, frames, runs, i + 1);
      }
    }
  }

  /** Every block starts where a run starts and ends where a run ends. */
  predicate WholeRuns(blocks: seq<Block>, runs: seq<Block>) {
    forall i :: 0 <= i < |blocks| ==> StartsRun(runs, blocks[i].addr) && EndsRun(runs, End(blocks[i]))
  }

  /** If nothing is handed out any more, then after merging no run from the frame
      allocator is left in pieces. */
  lemma NothingLeftInPieces(blocks: seq<Block>, frames: set<nat>, runs: seq<Block>)
    requires Tiled(blocks, frames, runs) && Live(blocks) == {}
    requires forall j: nat :: !Mergeable(blocks, j)
    ensures WholeRuns(blocks, runs)
  {
    hide StartsRun, EndsRun;
    assert forall j :: 0 <= j < |blocks| && !blocks[j].free ==> blocks[j] in Live(blocks);
    forall i | 0 <= i < |blocks|
      ensures StartsRun(runs, blocks[i].addr) && EndsRun(runs, End(blocks[i]))
    {
      assert Follows(blocks, runs, i) && !Mergeable(blocks, i) && (i > 0 ==> !Mergeable(blocks, i - 1));
    }
  }

  // ---------------------------------------------------------------------------
  // The list in memory

  /** Index of the first block at or after i that is free and large enough. */
  function FirstFit(blocks: seq<Block>, size: nat, i: nat): (r: nat)
    requires i <= |blocks|
    ensures i <= r <= |blocks| && (r < |blocks| ==> blocks[r].free && blocks[r].size >= size)
    ensures forall j :: i <= j < r ==> !(blocks[j].free && blocks[j].size >= size)
    decreases |blocks| - i
  {
    if i == |blocks| || (blocks[i].free && blocks[i].size >= size) then i else FirstFit(blocks, size, i + 1)
  }

  lemma DifferentAddresses(blocks: seq<Block>, frames: set<nat>, runs: seq<Block>, i: nat, j: nat)
    requires Tiled(blocks, frames, runs) && i < |blocks| && j < |blocks| && blocks[i].addr == blocks[j].addr
    ensures i == j
  {
    assert i < j ==> Disjoint(blocks[i], blocks[j]);
    assert j < i ==> Disjoint(blocks[j], blocks[i]);
  }

  lemma MarkLinked(headers: map<nat, Header>, head: nat, blocks: seq<Block>, frames: set<nat>, runs: seq<Block>, i: nat,
      free: bool)
    requires Tiled(blocks, frames, runs) && Linked(headers, head, blocks) && i < |blocks|
    ensures blocks[i].addr in headers
    ensures Linked(headers[blocks[i].addr := headers[blocks[i].addr].(free := free)], head,
      blocks[i := blocks[i].(free := free)])
  {
    var r := blocks[i := blocks[i].(free := free)];
    forall j | 0 <= j < |blocks|
      ensures blocks[j].addr == blocks[i].addr <==> j == i
      ensures NextOf(r, j) == NextOf(blocks, j)
    {
      if blocks[j].addr == blocks[i].addr {
        DifferentAddresses(blocks, frames, runs, i, j);
      }
    }
  }

  lemma SplitLinked(headers: map<nat, Header>, head: nat, blocks: seq<Block>, frames: set<nat>, runs: seq<Block>,
      i: nat, size: nat, headers': map<nat, Header>)
    requires Tiled(blocks, frames, runs) && Linked(headers, head, blocks) && i < |blocks|
      && size + HEADER <= blocks[i].size
    requires var b := blocks[i]; var a := b.addr + HEADER + size;
      headers' == headers[a := Header(b.size - size - HEADER, true, NextOf(blocks, i))][b.addr := Header(size, b.free,
        a)]
    ensures Linked(headers', head, Split(blocks, i, size))
  {
    hide Tiled, Linked;
    var r := Split(blocks, i, size);
    SplitTiled(blocks, frames, runs, i, size);
    forall j | 0 <= j < |r|
      ensures r[j].addr == r[i].addr ==> j == i
      ensures r[j].addr == r[i + 1].addr ==> j == i + 1
    {
      if r[j].addr == r[i].addr {
        DifferentAddresses(r, frames, runs, i, j);
      } else if r[j].addr == r[i + 1].addr {
        DifferentAddresses(r, frames, runs, i + 1, j);
      }
    }
    SplitEntries(headers, head, blocks, i, size, headers');
  }

  lemma SplitEntries(headers: map<nat, Header>, head: nat, blocks: seq<Block>, i: nat, size: nat, headers': map<nat,
      Header>)
    requires Linked(headers, head, blocks) && i < |blocks| && size + HEADER <= blocks[i].size
    requires var b := blocks[i]; var a := b.addr + HEADER + size;
      headers' == headers[a := Header(b.size - size - HEADER, true, NextOf(blocks, i))][b.addr := Header(size, b.free,
        a)]
    requires forall j :: 0 <= j < |Split(blocks, i, size)| ==>
      (Split(blocks, i, size)[j].addr == blocks[i].addr ==> j == i)
      && (Split(blocks, i, size)[j].addr == blocks[i].addr + HEADER + size ==> j == i + 1)
    ensures Linked(headers', head, Split(blocks, i, size))
  {
    var r := Split(blocks, i, size);
    forall j | 0 <= j < |r|
      ensures r[j].addr in headers' && headers'[r[j].addr] == Header(r[j].size, r[j].free, NextOf(r, j))
    {
      var k := if j <= i then j else j - 1;
      assert blocks[k].addr in headers
        && headers[blocks[k].addr] == Header(blocks[k].size, blocks[k].free, NextOf(blocks, k));
      if j < i {
        assert r[j] == blocks[j] && NextOf(r, j) == NextOf(blocks, j);
      } else if j > i + 1 {
        assert r[j] == blocks[j - 1] && NextOf(r, j) == NextOf(blocks, j - 1);
      }
    }
  }

  lemma MergeLinked(headers: map<nat, Header>, head: nat, blocks: seq<Block>, frames: set<nat>, runs: seq<Block>,
      i: nat, headers': map<nat, Header>)
    requires Tiled(blocks, frames, runs) && Linked(headers, head, blocks) && Mergeable(blocks, i)
    requires headers' == headers[blocks[i].addr := Header(blocks[i].size + HEADER + blocks[i + 1].size, true,
      NextOf(blocks, i + 1))]
    ensures Linked(headers', head, MergeAt(blocks, i))
  {
    hide Tiled, Linked, Live;
    var r := MergeAt(blocks, i);
    MergeTiled(blocks, frames, runs, i);
    forall j | 0 <= j < |r|
      ensures r[j].addr == blocks[i].addr ==> j == i
    {
      if r[j].addr == r[i].addr {
        DifferentAddresses(r, frames, runs, i, j);
      }
    }
    MergeEntries(headers, head, blocks, i, headers');
  }

  lemma MergeEntries(headers: map<nat, Header>, head: nat, blocks: seq<Block>, i: nat, headers': map<nat, Header>)
    requires Linked(headers, head, blocks) && Mergeable(blocks, i)
    requires headers' == headers[blocks[i].addr := Header(blocks[i].size + HEADER + blocks[i + 1].size, true,
      NextOf(blocks, i + 1))]
    requires forall j :: 0 <= j < |MergeAt(blocks, i)| ==> (MergeAt(blocks, i)[j].addr == blocks[i].addr ==> j == i)
    ensures Linked(headers', head, MergeAt(blocks, i))
  {
    var r := MergeAt(blocks, i);
    forall j | 0 <= j < |r|
      ensures r[j].addr in headers' && headers'[r[j].addr] == Header(r[j].size, r[j].free, NextOf(r, j))
    {
      if j != i {
        var k := if j < i then j else j + 1;
        assert r[j] == blocks[k] && NextOf(r, j) == NextOf(blocks, k);
        assert blocks[k].addr in headers
          && headers[blocks[k].addr] == Header(blocks[k].size, blocks[k].free, NextOf(blocks, k));
      }
    }
  }

  /** A header written inside a free block, or at the start of any block, spares
      the memory of the live ones. */
  lemma SparesFree(headers: map<nat, Header>, headers': map<nat, Header>, blocks: seq<Block>, frames: set<nat>,
      runs: seq<Block>, i: nat)
    requires Tiled(blocks, frames, runs) && i < |blocks|
    requires forall a :: a in headers' && !(a in headers && headers[a] == headers'[a]) ==>
      a == blocks[i].addr || (blocks[i].free && blocks[i].addr <= a && a + HEADER <= End(blocks[i]))
    ensures Spares(headers, headers', Live(blocks))
  {
    forall a, b | a in headers' && !(a in headers && headers[a] == headers'[a]) && b in Live(blocks)
      ensures a + HEADER <= b.addr + HEADER || End(b) <= a
    {
      var j: nat :| j < |blocks| && !blocks[j].free && blocks[j] == b;
      assert i < j ==> Disjoint(blocks[i], blocks[j]);
      assert j < i ==> Disjoint(blocks[j], blocks[i]);
    }
  }

  class KernelHeap {
    const pmm: P.FrameAllocator
    var head: nat
    var headers: map<nat, Header>
    /** The list from heap_head on. */
    ghost var blocks: seq<Block>
    /** The frames taken from the frame allocator, and the block each run was. */
    ghost var frames: set<nat>
    ghost var runs: seq<Block>

    constructor (pmm: P.FrameAllocator)
      requires pmm.Valid() && 0 !in pmm.free
      ensures Valid() && this.pmm == pmm && blocks == [] && frames == {} && runs == []
    {
      this.pmm := pmm;
      head, headers, blocks, frames, runs := 0, map[], [], {}, [];
    }

    ghost predicate Valid()
      reads this, pmm, pmm.bitmap
    {
      && pmm.Valid() && 0 !in pmm.free && frames !! pmm.free && (forall f :: f in frames ==> f < P.MAX_FRAMES)
      && Linked(headers, head, blocks) && Tiled(blocks, frames, runs) && Tiled(runs, frames, runs)
    }

    /** Puts the lowest run of frames that holds a block of this size in front of
        the list; fails exactly when there is no such run. */
    method GrowHeap(required: nat) returns (block: nat)
      requires Valid() && required < U64
      modifies this, pmm`freeFrames, pmm`free, pmm.bitmap
      ensures Valid() && pmm.free + frames == old(pmm.free) + old(frames)
      ensures block == 0 ==>
        blocks == old(blocks) && frames == old(frames) && headers == old(headers) && pmm.free == old(pmm.free)
          && runs == old(runs)
      ensures block == 0 <==> !RunFor(old(pmm.free), required)
      ensures block != 0 ==>
        && |blocks| == |old(blocks)| + 1 && blocks[1..] == old(blocks) && blocks[0].addr == block
        && blocks[0].free && blocks[0].size >= required && old(frames) <= frames
        && blocks == [Block(block, (required + 24 + 4095) / 4096 * 4096 - 24, true)] + old(blocks)
        && runs == [blocks[0]] + old(runs)
        && P.LowestRun(old(pmm.free), block / PAGE, (required + 24 + 4095) / 4096)
        && (forall x: nat :: In(blocks[0], x) ==> x / PAGE in old(pmm.free))
        && headers == old(headers)[block := headers[block]]
    {
      hide P.Agrees, P.LowestRun, P.FreeRun, Tiled, Linked, P.Frames, RunFor, In, Covers, Follows;
      if required > U64 - 1 - HEADER {
        TooLarge(pmm.free, required);
        return 0;
      }
      var addr, count := TakeRun(required);
      if addr == 0 {
        return 0;
      }
      ghost var start := addr / PAGE;
      RunApartFrom(old(pmm.free), pmm.free, frames, start, count);
      PutFront(addr, count);
      RunBytes(blocks[0], start, count, old(pmm.free));
      block := addr;
    }

    /** The header at the start of a new run, in front of the list. */
    method PutFront(addr: nat, count: nat)
      requires Linked(headers, head, blocks) && Tiled(blocks, frames, runs) && Tiled(runs, frames, runs)
      requires addr == addr / PAGE * PAGE && addr > 0 && count > 0
      requires forall f :: addr / PAGE <= f < addr / PAGE + count ==> f !in frames
      modifies this`head, this`headers, this`blocks, this`frames, this`runs
      ensures Linked(headers, head, blocks) && Tiled(blocks, frames, runs) && Tiled(runs, frames, runs)
      ensures blocks == [Block(addr, count * PAGE - HEADER, true)] + old(blocks)
      ensures runs == [Block(addr, count * PAGE - HEADER, true)] + old(runs)
      ensures frames == old(frames) + P.Frames(addr / PAGE, count)
      ensures headers == old(headers)[addr := Header(count * PAGE - HEADER, true, old(head))]
    {
      hide P.Frames, Tiled, Linked;
      ghost var start, b := addr / PAGE, Block(addr, count * PAGE - HEADER, true);
      GrownTiled(blocks, frames, runs, start, count);
      GrownTiled(runs, frames, runs, start, count);
      headers := headers[addr := Header(count * PAGE - HEADER, true, head)];
      GrownLinked(old(headers), head, blocks, frames + P.Frames(start, count), [b] + runs, headers, b);
      head, blocks, frames, runs := addr, [b] + blocks, frames + P.Frames(start, count), [b] + runs;
    }

    /** The lowest run of frames for a header and `required` bytes. */
    method TakeRun(required: nat) returns (addr: nat, count: nat)
      requires pmm.Valid() && 0 !in pmm.free && required <= U64 - 1 - HEADER
      modifies pmm`freeFrames, pmm`free, pmm.bitmap
      ensures pmm.Valid() && (addr == 0 <==> !RunFor(old(pmm.free), required))
      ensures addr == 0 ==> pmm.free == old(pmm.free)
      ensures addr != 0 ==>
        && addr == addr / PAGE * PAGE && count > 0 && count * PAGE - HEADER >= required
          && addr / PAGE + count <= P.MAX_FRAMES
        && count == (required + 24 + 4095) / 4096 && P.LowestRun(old(pmm.free), addr / PAGE, count)
        && pmm.free == old(pmm.free) - P.Frames(addr / PAGE, count)
        && forall f :: addr / PAGE <= f < addr / PAGE + count ==> f in old(pmm.free)
    {
      hide P.Agrees, P.FreeRun, P.LowestRun, P.Frames, RunFor;
      count := (HEADER + required + PAGE - 1) % U64 / PAGE;
      addr := pmm.AllocContiguous(count);
      RunChoice(old(pmm.free), pmm.free, required, count, addr);
    }

    /** kmalloc: first fit, the rest of a large block split off. A success adds
        exactly one live block, of at least the size asked for; it takes the
        first free block of the list that is large enough, or grows the heap if
        there is none, and it fails only if that is impossible too. */
    method Kmalloc(request: nat) returns (ptr: nat, ghost size: nat)
      requires Valid() && request < U64
      modifies this, pmm`freeFrames, pmm`free, pmm.bitmap
      ensures Valid() && pmm.free + frames == old(pmm.free) + old(frames)
      ensures ptr == 0 ==>
        && blocks == old(blocks) && headers == old(headers) && pmm.free == old(pmm.free) && runs == old(runs)
      ensures ptr == 0 <==>
        request == 0 || request > U64 - ALIGN
        || (FirstFit(old(blocks), AlignUp(request), 0) == |old(blocks)| && !RunFor(old(pmm.free), AlignUp(request)))
      ensures ptr != 0 ==>
        && ptr > HEADER && size >= request && Handed(old(blocks), blocks, Block(ptr - HEADER, size, false))
      ensures ptr != 0 && FirstFit(old(blocks), AlignUp(request), 0) < |old(blocks)| ==>
        ptr == old(blocks)[FirstFit(old(blocks), AlignUp(request), 0)].addr + HEADER && frames == old(frames)
          && runs == old(runs)
      ensures ptr != 0 && FirstFit(old(blocks), AlignUp(request), 0) == |old(blocks)| ==>
        |runs| == |old(runs)| + 1 && runs[1..] == old(runs) && runs[0].addr == ptr - HEADER && runs[0].size >= size
      ensures ptr != 0 ==>
        var n := (request + 15) / 16 * 16;
        if FirstFit(old(blocks), n, 0) < |old(blocks)| then
          Carved(old(blocks), blocks, FirstFit(old(blocks), n, 0), n, size)
        else Carved([Block(ptr - 24, (n + 24 + 4095) / 4096 * 4096 - 24, true)] + old(blocks), blocks, 0, n, size)
      ensures Spares(old(headers), headers, Live(old(blocks)))
    {
      hide P.Agrees, Tiled, Linked, P.Frames, RunFor, In, Spares, Handed, Live, Carved;
      SparesSame(headers, Live(blocks));
      ptr, size := 0, 0;
      if request == 0 {
        return;
      }
      if request > U64 - 1 - (ALIGN - 1) {
        return;
      }
      AlignedUp(request);
      var wanted := AlignUp(request);
      ghost var i;
      var block;
      block, i := FindFit(wanted);
      if block == 0 {
        block := GrowHeap(wanted);
        if block == 0 {
          return;
        }
        i := 0;
        LiveGrown(old(blocks), blocks);
        SparesGrown(old(headers), headers, blocks, frames, runs);
      }
      ghost var middle := headers;
      ghost var base := blocks;
      ptr, size := Carve(block, wanted, i);
      CarvedFacts(base, blocks, i, wanted, size);
      SparesTwice(old(headers), middle, headers, Live(old(blocks)));
      HandedOut(old(blocks), blocks, frames, runs, Block(block, size, false));
    }

    method FindFit(size: nat) returns (block: nat, ghost i: nat)
      requires Valid()
      ensures i == FirstFit(blocks, size, 0) && block == AddrAt(blocks, i) && (block == 0 <==> i == |blocks|)
    {
      hide P.Agrees, Tiled, Linked;
      block, i := head, 0;
      EntryIs(headers, head, blocks, frames, runs, 0);
      while block != 0 && !(headers[block].free && headers[block].size >= size)
        invariant 0 <= i <= |blocks| && block == AddrAt(blocks, i) && (block == 0 <==> i == |blocks|)
        invariant FirstFit(blocks, size, 0) == FirstFit(blocks, size, i)
        invariant block != 0 ==>
          && block in headers && headers[block] == Header(blocks[i].size, blocks[i].free, NextOf(blocks, i))
        decreases |blocks| - i
      {
        block := headers[block].next;
        i := i + 1;
        EntryIs(headers, head, blocks, frames, runs, i);
      }
    }

    method FindBlock(ptr: nat) returns (block: nat, ghost i: nat)
      requires Valid()
      ensures i <= |blocks| && block == AddrAt(blocks, i) && (block == 0 <==> i == |blocks|)
      ensures forall j :: 0 <= j < i ==> blocks[j].addr + HEADER != ptr
      ensures block != 0 ==> block + HEADER == ptr && block in headers && headers[block].free == blocks[i].free
    {
      hide P.Agrees, Tiled, Linked;
      block, i := head, 0;
      EntryIs(headers, head, blocks, frames, runs, 0);
      while block != 0 && block + HEADER != ptr
        invariant 0 <= i <= |blocks| && block == AddrAt(blocks, i) && (block == 0 <==> i == |blocks|)
        invariant forall j :: 0 <= j < i ==> blocks[j].addr + HEADER != ptr
        invariant block != 0 ==>
          && block in headers && headers[block] == Header(blocks[i].size, blocks[i].free, NextOf(blocks, i))
        decreases |blocks| - i
      {
        block := headers[block].next;
        i := i + 1;
        EntryIs(headers, head, blocks, frames, runs, i);
      }
    }

    /** Takes block i out of the free ones, splitting off what is not needed. */
    method Carve(block: nat, size: nat, ghost i: nat) returns (ptr: nat, ghost kept: nat)
      requires Valid() && i < |blocks| && blocks[i].addr == block && blocks[i].free && blocks[i].size >= size
      modifies this`headers, this`blocks
      ensures Valid() && ptr == block + HEADER && Carved(old(blocks), blocks, i, size, kept)
      ensures Live(blocks) == Live(old(blocks)) + {Block(block, kept, false)}
      ensures Block(block, kept, false) !in Live(old(blocks))
      ensures Spares(old(headers), headers, Live(old(blocks)))
    {
      hide P.Agrees, Tiled, Linked, In, Spares, Live;
      EntryIs(headers, head, blocks, frames, runs, i);
      BlockSmall(blocks, frames, runs, i);
      if headers[block].size >= (size + HEADER + ALIGN) % U64 {
        var rest := block + HEADER + size;
        headers := headers[rest := Header(headers[block].size - size - HEADER, true, headers[block].next)]
                          [block := Header(size, headers[block].free, rest)];
        SplitLinked(old(headers), head, blocks, frames, runs, i, size, headers);
        SplitTiled(blocks, frames, runs, i, size);
        SplitLive(blocks, i, size);
        blocks := Split(blocks, i, size);
      }
      EntryIs(headers, head, blocks, frames, runs, i);
      kept := blocks[i].size;
      MarkLinked(headers, head, blocks, frames, runs, i, false);
      MarkTiled(blocks, frames, runs, i, false);
      MarkUsed(blocks, frames, runs, i);
      headers := headers[block := headers[block].(free := false)];
      SparesFree(old(headers), headers, old(blocks), frames, runs, i);
      blocks := blocks[i := blocks[i].(free := false)];
      ptr := block + HEADER;
    }

    /** kfree: an unknown or already free pointer changes nothing; otherwise
        exactly that block stops being live, and no two free blocks that are
        neighbours in the list and in memory remain. */
    method Kfree(ptr: nat)
      requires Valid()
      modifies this`headers, this`blocks
      ensures Valid()
      ensures (forall b :: b in Live(old(blocks)) ==> b.addr + HEADER != ptr) ==>
        && headers == old(headers) && blocks == old(blocks)
      ensures forall b :: b in Live(old(blocks)) && b.addr + HEADER == ptr ==>
        && Live(blocks) == Live(old(blocks)) - {b} && (forall j: nat :: !Mergeable(blocks, j))
        && (Live(old(blocks)) == {b} ==> WholeRuns(blocks, runs))
      ensures Spares(old(headers), headers, Live(blocks))
    {
      hide P.Agrees, Tiled, Linked, In, Spares, Live, Mergeable, WholeRuns;
      SparesSame(headers, Live(blocks));
      if ptr == 0 {
        NoneAt(blocks, ptr);
        return;
      }
      ghost var i;
      var block;
      block, i := FindBlock(ptr);
      if block == 0 || headers[block].free {
        NotLive(blocks, frames, runs, i, ptr);
        return;
      }
      OnlyLive(blocks, frames, runs, i, ptr);
      MarkLinked(headers, head, blocks, frames, runs, i, true);
      MarkTiled(blocks, frames, runs, i, true);
      MarkFree(blocks, frames, runs, i);
      headers := headers[block := headers[block].(free := true)];
      blocks := blocks[i := blocks[i].(free := true)];
      SparesFree(old(headers), headers, blocks, frames, runs, i);
      MergePass();
      if Live(blocks) == {} {
        NothingLeftInPieces(blocks, frames, runs);
      }
    }

    /** The merging loop of kfree. */
    method MergePass()
      requires Valid()
      modifies this`headers, this`blocks
      ensures Valid() && blocks == Merged(old(blocks), 0) && Live(blocks) == Live(old(blocks))
      ensures forall j: nat :: !Mergeable(blocks, j)
      ensures forall h :: Spares(h, old(headers), Live(blocks)) ==> Spares(h, headers, Live(blocks))
    {
      hide P.Agrees, Tiled, Linked, In, Spares, Live;
      ghost var live := Live(blocks);
      MergedKeeps(blocks, frames, runs, 0);
      var current := head;
      ghost var i := 0;
      EntryIs(headers, head, blocks, frames, runs, 0);
      SparesSame(headers, live);
      while current != 0 && headers[current].next != 0
        invariant Valid() && 0 <= i <= |blocks| && current == AddrAt(blocks, i) && (current == 0 ==> i == |blocks|)
        invariant current != 0 ==>
          && i < |blocks| && current in headers
          && headers[current] == Header(blocks[i].size, blocks[i].free, NextOf(blocks, i))
        invariant Merged(blocks, i) == Merged(old(blocks), 0) && Live(blocks) == live
        invariant Spares(old(headers), headers, live)
        decreases |blocks|, |blocks| - i
      {
        var next := headers[current].next;
        EntryIs(headers, head, blocks, frames, runs, i + 1);
        if headers[current].free && headers[next].free && current + HEADER + headers[current].size == next {
          ghost var was := headers;
          headers := headers[current := Header(headers[current].size + HEADER + headers[next].size, true,
            headers[next].next)];
          MergeLinked(was, head, blocks, frames, runs, i, headers);
          SparesFree(was, headers, blocks, frames, runs, i);
          SparesTwice(old(headers), was, headers, live);
          MergeTiled(blocks, frames, runs, i);
          blocks := MergeAt(blocks, i);
          EntryIs(headers, head, blocks, frames, runs, i);
        } else {
          current := next;
          i := i + 1;
        }
      }
      EntryIs(headers, head, blocks, frames, runs, i + 1);
      forall h | Spares(h, old(headers), live)
        ensures Spares(h, headers, live)
      {
        SparesTwice(h, old(headers), headers, live);
      }
    }
  }

  lemma TooLarge(free: set<nat>, required: nat)
    requires required > U64 - 1 - HEADER
    ensures !RunFor(free, required)
  {
  }

  /** What the frame allocator answers to grow_heap. */
  lemma RunChoice(free: set<nat>, free': set<nat>, required: nat, count: nat, addr: nat)
    requires 0 !in free && required <= U64 - 1 - HEADER && count == (HEADER + required + PAGE - 1) % U64 / PAGE
    requires count == 0 || (forall s :: !P.FreeRun(free, s, count)) ==> addr == 0 && free' == free
    requires count != 0 && (exists s :: P.FreeRun(free, s, count)) ==>
      addr % PAGE == 0 && P.LowestRun(free, addr / PAGE, count) && free' == free - P.Frames(addr / PAGE, count)
    ensures addr == 0 <==> !RunFor(free, required)
    ensures addr == 0 ==> free' == free
    ensures addr != 0 ==>
      && addr == addr / PAGE * PAGE && count > 0 && count * PAGE - HEADER >= required
        && addr / PAGE + count <= P.MAX_FRAMES
      && count == (required + HEADER + PAGE - 1) / PAGE && P.LowestRun(free, addr / PAGE, count)
      && free' == free - P.Frames(addr / PAGE, count)
      && forall f :: addr / PAGE <= f < addr / PAGE + count ==> f in free
  {
    if HEADER + required + PAGE - 1 >= U64 {
      assert count == 0;
      assert (required + HEADER + PAGE - 1) / PAGE > P.MAX_FRAMES;
    } else {
      assert count == (required + HEADER + PAGE - 1) / PAGE;
    }
  }

  lemma RunApartFrom(free: set<nat>, free': set<nat>, frames: set<nat>, start: nat, count: nat)
    requires frames !! free && free' == free - P.Frames(start, count)
    requires forall f :: start <= f < start + count ==> f in free
    ensures frames + P.Frames(start, count) !! free' && free' + (frames + P.Frames(start, count)) == free + frames
    ensures forall f :: start <= f < start + count ==> f !in frames
    ensures (forall f :: f in frames ==> f < P.MAX_FRAMES) && start + count <= P.MAX_FRAMES ==>
      forall f :: f in frames + P.Frames(start, count) ==> f < P.MAX_FRAMES
  {
  }

  lemma RunBytes(b: Block, start: nat, count: nat, free: set<nat>)
    requires b.addr == start * PAGE && b.size == count * PAGE - HEADER && count > 0
    requires forall f :: start <= f < start + count ==> f in free
    ensures forall x: nat :: In(b, x) ==> x / PAGE in free
  {
    forall x: nat | In(b, x)
      ensures x / PAGE in free
    {
      RunCovers(b, start, count, x);
    }
  }

  lemma GrownLinked(headers: map<nat, Header>, head: nat, blocks: seq<Block>, frames: set<nat>, runs: seq<Block>,
      headers': map<nat, Header>, b: Block)
    requires Linked(headers, head, blocks) && Tiled([b] + blocks, frames, runs)
    requires headers' == headers[b.addr := Header(b.size, b.free, head)]
    ensures Linked(headers', b.addr, [b] + blocks)
  {
    var r := [b] + blocks;
    forall j | 0 <= j < |r|
      ensures r[j].addr in headers' && headers'[r[j].addr] == Header(r[j].size, r[j].free, NextOf(r, j))
    {
      if j > 0 {
        assert blocks[j - 1].addr in headers
          && headers[blocks[j - 1].addr] == Header(blocks[j - 1].size, blocks[j - 1].free, NextOf(blocks, j - 1));
        if r[j].addr == b.addr {
          DifferentAddresses(r, frames, runs, 0, j);
        }
      }
    }
  }

  /** A run of free frames can hold a header and `required` bytes. */
  ghost predicate RunFor(free: set<nat>, required: nat) {
    required + HEADER < U64 && HasRun(free, (required + HEADER + PAGE - 1) / PAGE)
  }

  ghost predicate HasRun(free: set<nat>, count: nat) {
    exists s :: P.FreeRun(free, s, count)
  }

  lemma SparesSame(headers: map<nat, Header>, live: set<Block>)
    ensures Spares(headers, headers, live)
  {
  }

  lemma EntryIs(headers: map<nat, Header>, head: nat, blocks: seq<Block>, frames: set<nat>, runs: seq<Block>, i: nat)
    requires Linked(headers, head, blocks) && Tiled(blocks, frames, runs)
    ensures head == AddrAt(blocks, 0)
    ensures i < |blocks| ==> blocks[i].addr != 0 && blocks[i].addr in headers
                             && headers[blocks[i].addr] == Header(blocks[i].size, blocks[i].free, NextOf(blocks, i))
  {
  }

  /** The new live blocks are the old ones and b, which is apart from them. */
  predicate Handed(blocks: seq<Block>, blocks': seq<Block>, b: Block) {
    && Live(blocks') == Live(blocks) + {b}
    && forall c :: c in Live(blocks) ==> Disjoint(b, c)
  }

  lemma SparesTwice(h: map<nat, Header>, h1: map<nat, Header>, h2: map<nat, Header>, live: set<Block>)
    requires Spares(h, h1, live) && Spares(h1, h2, live)
    ensures Spares(h, h2, live)
  {
  }

  lemma SparesGrown(h: map<nat, Header>, h1: map<nat, Header>, blocks: seq<Block>, frames: set<nat>, runs: seq<Block>)
    requires Tiled(blocks, frames, runs) && |blocks| > 0 && blocks[0].addr in h1
      && h1 == h[blocks[0].addr := h1[blocks[0].addr]]
    ensures Spares(h, h1, Live(blocks))
  {
    SparesFree(h, h1, blocks, frames, runs, 0);
  }

  lemma LiveGrown(was: seq<Block>, now: seq<Block>)
    requires |now| == |was| + 1 && now[1..] == was && now[0].free
    ensures Live(now) == Live(was)
  {
    forall b | b in Live(was)
      ensures b in Live(now)
    {
      var j: nat :| j < |was| && !was[j].free && was[j] == b;
      assert now[j + 1] == b;
    }
    forall b | b in Live(now)
      ensures b in Live(was)
    {
      var j: nat :| j < |now| && !now[j].free && now[j] == b;
      assert was[j - 1] == b;
    }
  }

  lemma SplitLive(blocks: seq<Block>, i: nat, size: nat)
    requires i < |blocks| && blocks[i].free && size + HEADER <= blocks[i].size
    ensures Live(Split(blocks, i, size)) == Live(blocks)
  {
    var r := Split(blocks, i, size);
    forall b | b in Live(blocks)
      ensures b in Live(r)
    {
      var j: nat :| j < |blocks| && !blocks[j].free && blocks[j] == b;
      assert r[if j < i then j else j + 1] == b;
    }
    forall b | b in Live(r)
      ensures b in Live(blocks)
    {
      var j: nat :| j < |r| && !r[j].free && r[j] == b;
      assert blocks[if j < i then j else j - 1] == b;
    }
  }

  /** A block is smaller than memory. */
  lemma BlockSmall(blocks: seq<Block>, frames: set<nat>, runs: seq<Block>, i: nat)
    requires Tiled(blocks, frames, runs) && i < |blocks| && forall f :: f in frames ==> f < P.MAX_FRAMES
    ensures blocks[i].size < P.MAX_FRAMES * PAGE < U64 - HEADER - ALIGN
  {
    Taken(blocks, frames, runs, i, End(blocks[i]) - 1);
  }

  lemma MarkUsed(blocks: seq<Block>, frames: set<nat>, runs: seq<Block>, i: nat)
    requires Tiled(blocks, frames, runs) && i < |blocks| && blocks[i].free
    ensures Live(blocks[i := blocks[i].(free := false)]) == Live(blocks) + {blocks[i].(free := false)}
    ensures blocks[i].(free := false) !in Live(blocks)
  {
    var r, b := blocks[i := blocks[i].(free := false)], blocks[i].(free := false);
    forall c | c in Live(blocks)
      ensures c in Live(r) && c != b
    {
      var j: nat :| j < |blocks| && !blocks[j].free && blocks[j] == c;
      assert r[j] == c;
      if c.addr == b.addr {
        DifferentAddresses(blocks, frames, runs, i, j);
      }
    }
    assert r[i] == b;
  }

  lemma MarkFree(blocks: seq<Block>, frames: set<nat>, runs: seq<Block>, i: nat)
    requires Tiled(blocks, frames, runs) && i < |blocks| && !blocks[i].free
    ensures Live(blocks[i := blocks[i].(free := true)]) == Live(blocks) - {blocks[i]}
  {
    var r := blocks[i := blocks[i].(free := true)];
    forall c | c in Live(r)
      ensures c in Live(blocks) - {blocks[i]}
    {
      var j: nat :| j < |r| && !r[j].free && r[j] == c;
      assert blocks[j] == c;
      if c == blocks[i] {
        DifferentAddresses(blocks, frames, runs, i, j);
      }
    }
    forall c | c in Live(blocks) - {blocks[i]}
      ensures c in Live(r)
    {
      var j: nat :| j < |blocks| && !blocks[j].free && blocks[j] == c;
      assert r[j] == c;
    }
  }

  lemma NoneAt(blocks: seq<Block>, ptr: nat)
    requires ptr < HEADER
    ensures forall b :: b in Live(blocks) ==> b.addr + HEADER != ptr
  {
  }

  lemma NotLive(blocks: seq<Block>, frames: set<nat>, runs: seq<Block>, i: nat, ptr: nat)
    requires Tiled(blocks, frames, runs) && i <= |blocks|
    requires forall j :: 0 <= j < i ==> blocks[j].addr + HEADER != ptr
    requires i < |blocks| ==> blocks[i].free && blocks[i].addr + HEADER == ptr
    ensures forall b :: b in Live(blocks) ==> b.addr + HEADER != ptr
  {
    forall b | b in Live(blocks)
      ensures b.addr + HEADER != ptr
    {
      var j: nat :| j < |blocks| && !blocks[j].free && blocks[j] == b;
      if b.addr + HEADER == ptr && i < |blocks| {
        DifferentAddresses(blocks, frames, runs, i, j);
      }
    }
  }

  lemma OnlyLive(blocks: seq<Block>, frames: set<nat>, runs: seq<Block>, i: nat, ptr: nat)
    requires Tiled(blocks, frames, runs) && i < |blocks| && !blocks[i].free && blocks[i].addr + HEADER == ptr
    ensures blocks[i] in Live(blocks)
    ensures forall b :: b in Live(blocks) && b.addr + HEADER == ptr ==> b == blocks[i]
  {
    forall b | b in Live(blocks) && b.addr + HEADER == ptr
      ensures b == blocks[i]
    {
      var j: nat :| j < |blocks| && !blocks[j].free && blocks[j] == b;
      DifferentAddresses(blocks, frames, runs, i, j);
    }
  }

  lemma AlignedUp(n: nat)
    ensures n <= AlignUp(n) < n + ALIGN
  {
  }

  lemma HandedOut(was: seq<Block>, now: seq<Block>, frames: set<nat>, runs: seq<Block>, b: Block)
    requires Tiled(now, frames, runs) && Live(now) == Live(was) + {b} && b !in Live(was)
    ensures Handed(was, now, b)
  {
    var i: nat :| i < |now| && !now[i].free && now[i] == b;
    forall c | c in Live(was)
      ensures Disjoint(b, c)
    {
      assert c in Live(now);
      var j: nat :| j < |now| && !now[j].free && now[j] == c;
      assert i < j ==> Disjoint(now[i], now[j]);
      assert j < i ==> Disjoint(now[j], now[i]);
    }
  }
}
