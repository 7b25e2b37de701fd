/** The writable file system of kernel/core/ufs.c: a directory of 64 entries of
    40 bytes, kept in memory and on disk, and file extents handed out by a bump
    allocator that doubles a file's capacity and moves it when it grows. The
    disk is an array of sectors; accesses inside it succeed. */
module Ufs {
  import opened Base

  const SB_LBA: nat := 8192
  const DIR_LBA: nat := 8193
  const DIR_SECTORS: nat := 5
  const DATA_LBA: nat := 8198
  const DATA_END: nat := 16390
  const ENTRY: nat := 40
  const SLOTS: nat := 64
  const DIR_BYTES: nat := 2560
  const NAME_MAX: nat := 20
  /** Above this many bytes the sector count of sectors_for_bytes wraps. */
  const LIMIT: nat := U32 - SECTOR

  type Disk = seq<seq<Byte>>

  predicate DiskOk(d: Disk) {
    |d| >= DATA_END && forall s :: 0 <= s < |d| ==> |d[s]| == SECTOR
  }

  // ---------------------------------------------------------------------------
  // Bytes over sectors

  /** Byte k of the area that begins at sector `start`. */
  function ByteAt(d: Disk, start: nat, k: nat): Byte {
    var s := start + k / SECTOR;
    if s < |d| && k % SECTOR < |d[s]| then d[s][k % SECTOR] else 0
  }

  function Bytes(d: Disk, start: nat, n: nat): (r: seq<Byte>)
    ensures |r| == n && forall k :: 0 <= k < n ==> r[k] == ByteAt(d, start, k)
  {
    seq(n, k requires 0 <= k => ByteAt(d, start, k))
  }

  /** Writing whole sectors. */
  function Put(d: Disk, lba: nat, buf: seq<Byte>): (r: Disk)
    requires |buf| % SECTOR == 0
    ensures |r| == |d|
    ensures forall s :: 0 <= s < |d| && !(lba <= s < lba + |buf| / SECTOR) ==> r[s] == d[s]
  {
    seq(|d|, s requires 0 <= s < |d| =>
      if lba <= s < lba + |buf| / SECTOR then buf[(s - lba) * SECTOR..(s - lba) * SECTOR + SECTOR] else d[s])
  }

  lemma PutThenRead(d: Disk, lba: nat, buf: seq<Byte>)
    requires DiskOk(d) && |buf| % SECTOR == 0 && lba + |buf| / SECTOR <= |d|
    ensures DiskOk(Put(d, lba, buf)) && Bytes(Put(d, lba, buf), lba, |buf|) == buf
  {
    var r := Put(d, lba, buf);
    forall k | 0 <= k < |buf|
      ensures ByteAt(r, lba, k) == buf[k]
    {
      var s := lba + k / SECTOR;
      assert r[s] == buf[(s - lba) * SECTOR..(s - lba) * SECTOR + SECTOR];
    }
  }

  lemma SameSectors(d: Disk, d': Disk, start: nat, start': nat, n: nat)
    requires start + SectorsFor(n) <= |d| && start' + SectorsFor(n) <= |d'|
    requires d'[start'..start' + SectorsFor(n)] == d[start..start + SectorsFor(n)]
    ensures Bytes(d', start', n) == Bytes(d, start, n)
  {
    forall k | 0 <= k < n
      ensures ByteAt(d', start', k) == ByteAt(d, start, k)
    {
      assert d'[start'..start' + SectorsFor(n)][k / SECTOR] == d[start..start + SectorsFor(n)][k / SECTOR];
    }
  }

  /** From d to d' the bytes `data` were written at byte `offset` of the area
      that begins at sector `start`, and nothing else changed. */
  ghost predicate Wrote(d: Disk, d': Disk, start: nat, offset: nat, data: seq<Byte>) {
    && |d'| == |d|
    && (forall s :: 0 <= s < |d| ==> |d'[s]| == |d[s]|)
    && (forall s :: 0 <= s < |d| && !(start <= s < start + SectorsFor(offset + |data|)) ==> d'[s] == d[s])
    && (forall k: nat :: ByteAt(d', start, k) ==
          if offset <= k < offset + |data| then data[k - offset] else ByteAt(d, start, k))
  }

  lemma WroteMore(d: Disk, d1: Disk, d2: Disk, start: nat, offset: nat, data: seq<Byte>, done: nat, cur: nat,
      chunk: nat, sector: seq<Byte>)
    requires done <= |data| && cur == offset + done && Wrote(d, d1, start, offset, data[..done])
    requires 0 < chunk <= |data| - done && cur % SECTOR + chunk <= SECTOR
    requires start + cur / SECTOR < |d1| && |d1[start + cur / SECTOR]| == SECTOR == |sector|
    requires sector == Overlaid(d1[start + cur / SECTOR], cur % SECTOR, data[done..done + chunk])
    requires d2 == d1[start + cur / SECTOR := sector]
    ensures Wrote(d, d2, start, offset, data[..done + chunk])
  {
    forall k: nat
      ensures ByteAt(d2, start, k) ==
        if offset <= k < offset + done + chunk then data[..done + chunk][k - offset] else ByteAt(d, start, k)
    {
      InChunk(k, cur, chunk);
      assert ByteAt(d1, start, k) == if offset <= k < cur then data[..done][k - offset] else ByteAt(d, start, k);
      if k / SECTOR == cur / SECTOR {
        assert ByteAt(d2, start, k) == sector[k % SECTOR];
        assert ByteAt(d1, start, k) == d1[start + cur / SECTOR][k % SECTOR];
      }
    }
  }

  lemma InChunk(k: nat, cur: nat, chunk: nat)
    requires cur % SECTOR + chunk <= SECTOR
    ensures k / SECTOR == cur / SECTOR ==> k - cur == k % SECTOR - cur % SECTOR
    ensures cur <= k < cur + chunk ==> k / SECTOR == cur / SECTOR
  {
  }

  /** dst with src written over it from position `at`. */
  function Overlaid(dst: seq<Byte>, at: nat, src: seq<Byte>): (r: seq<Byte>)
    requires at + |src| <= |dst|
    ensures |r| == |dst|
  {
    dst[..at] + src + dst[at + |src|..]
  }

  lemma OverlaidNone(dst: seq<Byte>, at: nat)
    requires at <= |dst|
    ensures Overlaid(dst, at, []) == dst
  {
  }

  lemma OverlaidMore(dst: seq<Byte>, at: nat, src: seq<Byte>, b: Byte)
    requires at + |src| < |dst|
    ensures Overlaid(dst, at, src)[at + |src| := b] == Overlaid(dst, at, src + [b])
  {
  }

  // ---------------------------------------------------------------------------
  // Little-endian words and directory entries

  function ReadU32(b: seq<Byte>, o: nat): (v: nat)
    requires o + 4 <= |b|
    ensures v < U32
  {
    b[o] as int + 0x100 * b[o + 1] as int + 0x1_0000 * b[o + 2] as int + 0x100_0000 * b[o + 3] as int
  }

  function WriteU32(b: seq<Byte>, o: nat, v: nat): (r: seq<Byte>)
    requires o + 4 <= |b| && v < U32
    ensures |r| == |b|
  {
    b[o := (v % 0x100) as Byte][o + 1 := (v / 0x100 % 0x100) as Byte]
     [o + 2 := (v / 0x1_0000 % 0x100) as Byte][o + 3 := (v / 0x100_0000 % 0x100) as Byte]
  }

  lemma WordRoundTrip(b: seq<Byte>, o: nat, v: nat)
    requires o + 4 <= |b| && v < U32
    ensures ReadU32(WriteU32(b, o, v), o) == v
    ensures forall p: nat :: p + 4 <= |b| && (p + 4 <= o || o + 4 <= p) ==>
      ReadU32(WriteU32(b, o, v), p) == ReadU32(b, p)
  {
    assert v == v % 0x100 + 0x100 * (v / 0x100 % 0x100)
                + 0x1_0000 * (v / 0x1_0000 % 0x100) + 0x100_0000 * (v / 0x100_0000 % 0x100) by {
      assert v / 0x1_0000 == v / 0x100 / 0x100 && v / 0x100_0000 == v / 0x100 / 0x100 / 0x100;
    }
  }

  /** Where the bytes of a stored word go, the least significant first. */
  lemma WordBytes(b: seq<Byte>, o: nat, v: nat)
    requires o + 4 <= |b| && v < U32
    ensures var w := WriteU32(b, o, v);
      && w[o] as int == v % 256 && w[o + 1] as int == v / 256 % 256
      && w[o + 2] as int == v / 65536 % 256 && w[o + 3] as int == v / 16777216
      && forall k :: 0 <= k < |b| && !(o <= k < o + 4) ==> w[k] == b[k]
  {
  }

  /** What is read of four bytes. */
  lemma BytesWord(b: seq<Byte>, o: nat, v: nat)
    requires o + 4 <= |b| && v < U32
    requires b[o] as int == v % 256 && b[o + 1] as int == v / 256 % 256
    requires b[o + 2] as int == v / 65536 % 256 && b[o + 3] as int == v / 16777216
    ensures ReadU32(b, o) == v
  {
    assert v == v % 256 + 256 * (v / 256 % 256) + 65536 * (v / 65536 % 256) + 16777216 * (v / 16777216) by {
      assert v / 65536 == v / 256 / 256 && v / 16777216 == v / 256 / 256 / 256;
    }
  }

  /** A decoded directory entry; `raw` is the 20-byte name field. */
  datatype Slot = Slot(raw: seq<Byte>, start: nat, size: nat, cap: nat, owner: nat, perm: Byte)

  function SlotAt(dir: seq<Byte>, i: nat): Slot
    requires |dir| == DIR_BYTES && i < SLOTS
  {
    var o := i * ENTRY;
    Slot(dir[o..o + NAME_MAX], ReadU32(dir, o + 20), ReadU32(dir, o + 24), ReadU32(dir, o + 28), ReadU32(dir, o + 32),
      dir[o + 36])
  }

  predicate Used(dir: seq<Byte>, i: nat)
    requires |dir| == DIR_BYTES && i < SLOTS
  {
    dir[i * ENTRY] != 0
  }

  function UsedBelow(dir: seq<Byte>, n: nat): (c: nat)
    requires |dir| == DIR_BYTES && n <= SLOTS
    ensures c <= n
  {
    if n == 0 then 0 else UsedBelow(dir, n - 1) + if Used(dir, n - 1) then 1 else 0
  }

  /** Only entry i differs. */
  ghost predicate OnlySlot(dir: seq<Byte>, dir': seq<Byte>, i: nat) {
    && |dir'| == |dir| == DIR_BYTES
    && forall b :: 0 <= b < DIR_BYTES && !(i * ENTRY <= b < i * ENTRY + ENTRY) ==> dir'[b] == dir[b]
  }

  lemma OtherSlots(dir: seq<Byte>, dir': seq<Byte>, i: nat, j: nat)
    requires OnlySlot(dir, dir', i) && i < SLOTS && j < SLOTS && j != i
    ensures SlotAt(dir', j) == SlotAt(dir, j) && Used(dir', j) == Used(dir, j)
  {
    assert j * ENTRY + ENTRY <= i * ENTRY || i * ENTRY + ENTRY <= j * ENTRY;
    assert dir'[j * ENTRY..j * ENTRY + NAME_MAX] == dir[j * ENTRY..j * ENTRY + NAME_MAX];
  }

  lemma {:induction false} UsedChange(dir: seq<Byte>, dir': seq<Byte>, i: nat, n: nat)
    requires OnlySlot(dir, dir', i) && i < SLOTS && n <= SLOTS
    ensures UsedBelow(dir', n) - UsedBelow(dir, n) ==
      if i < n then (if Used(dir', i) then 1 else 0) - (if Used(dir, i) then 1 else 0) else 0
  {
    if n > 0 {
      UsedChange(dir, dir', i, n - 1);
      if n - 1 != i {
        OtherSlots(dir, dir', i, n - 1);
      }
    }
  }

  lemma SetStart(dir: seq<Byte>, i: nat, v: nat)
    requires |dir| == DIR_BYTES && i < SLOTS && v < U32
    ensures var d := WriteU32(dir, i * ENTRY + 20, v);
      OnlySlot(dir, d, i) && SlotAt(d, i) == SlotAt(dir, i).(start := v)
  {
    WordRoundTrip(dir, i * ENTRY + 20, v);
    assert WriteU32(dir, i * ENTRY + 20, v)[i * ENTRY..i * ENTRY + NAME_MAX] == dir[i * ENTRY..i * ENTRY + NAME_MAX];
  }

  lemma SetSize(dir: seq<Byte>, i: nat, v: nat)
    requires |dir| == DIR_BYTES && i < SLOTS && v < U32
    ensures var d := WriteU32(dir, i * ENTRY + 24, v); OnlySlot(dir, d, i) && SlotAt(d, i) == SlotAt(dir, i).(size := v)
  {
    WordRoundTrip(dir, i * ENTRY + 24, v);
    assert WriteU32(dir, i * ENTRY + 24, v)[i * ENTRY..i * ENTRY + NAME_MAX] == dir[i * ENTRY..i * ENTRY + NAME_MAX];
  }

  lemma SetCap(dir: seq<Byte>, i: nat, v: nat)
    requires |dir| == DIR_BYTES && i < SLOTS && v < U32
    ensures var d := WriteU32(dir, i * ENTRY + 28, v); OnlySlot(dir, d, i) && SlotAt(d, i) == SlotAt(dir, i).(cap := v)
  {
    WordRoundTrip(dir, i * ENTRY + 28, v);
    assert WriteU32(dir, i * ENTRY + 28, v)[i * ENTRY..i * ENTRY + NAME_MAX] == dir[i * ENTRY..i * ENTRY + NAME_MAX];
  }

  lemma SetOwner(dir: seq<Byte>, i: nat, v: nat)
    requires |dir| == DIR_BYTES && i < SLOTS && v < U32
    ensures var d := WriteU32(dir, i * ENTRY + 32, v);
      OnlySlot(dir, d, i) && SlotAt(d, i) == SlotAt(dir, i).(owner := v)
  {
    WordRoundTrip(dir, i * ENTRY + 32, v);
    assert WriteU32(dir, i * ENTRY + 32, v)[i * ENTRY..i * ENTRY + NAME_MAX] == dir[i * ENTRY..i * ENTRY + NAME_MAX];
  }

  // ---------------------------------------------------------------------------
  // Names

  /** The C string at the start of a field. */
  function Str(raw: seq<Byte>): (s: seq<Byte>)
    ensures |s| <= |raw| && 0 !in s && s == raw[..|s|]
    ensures |s| < |raw| ==> raw[|s|] == 0
  {
    if raw == [] || raw[0] == 0 then [] else [raw[0]] + Str(raw[1..])
  }

  predicate NameOk(name: seq<Byte>) {
    0 < |name| < NAME_MAX && 0 !in name
  }

  function Pad(name: seq<Byte>): (r: seq<Byte>)
    requires |name| <= NAME_MAX
    ensures |r| == NAME_MAX
  {
    name + seq(NAME_MAX - |name|, _ => 0)
  }

  lemma {:induction false} StrIsPrefix(raw: seq<Byte>, name: seq<Byte>)
    requires |name| < |raw| && 0 !in name && raw[..|name|] == name && raw[|name|] == 0
    ensures Str(raw) == name
  {
    if name != [] {
      assert raw[0] == name[0];
      assert raw[1..][..|name| - 1] == raw[..|name|][1..];
      StrIsPrefix(raw[1..], name[1..]);
    }
  }

  lemma StrOfPad(name: seq<Byte>)
    requires NameOk(name)
    ensures Str(Pad(name)) == name
  {
    StrIsPrefix(Pad(name), name);
  }

  predicate PaddedName(raw: seq<Byte>) {
    |raw| == NAME_MAX && NameOk(Str(raw)) && raw == Pad(Str(raw))
  }

  /** Byte i of a C string. */
  function CharAt(name: seq<Byte>, i: nat): Byte {
    if i < |name| then name[i] else 0
  }

  // ---------------------------------------------------------------------------
  // Capacities

  predicate Pow2(n: nat) {
    n == 1 || (n > 0 && n % 2 == 0 && Pow2(n / 2))
  }

  function Doubled(cap: nat, n: nat): nat
    requires cap > 0
    decreases n - cap
  {
    if cap >= n then cap else Doubled(cap * 2, n)
  }

  lemma {:induction false} DoubledFacts(cap: nat, n: nat)
    requires Pow2(cap)
    ensures Pow2(Doubled(cap, n)) && Doubled(cap, n) >= n && Doubled(cap, n) >= cap
    ensures cap < n ==> Doubled(cap, n) < 2 * n && Doubled(cap, n) >= 2 * cap
    ensures cap >= n ==> Doubled(cap, n) == cap
    decreases n - cap
  {
    if cap < n {
      assert Pow2(cap * 2) by { assert cap * 2 / 2 == cap; }
      DoubledFacts(cap * 2, n);
    }
  }

  /** sectors_for_bytes on 32-bit words. */
  function Sectors32(n: nat): nat {
    (n + SECTOR - 1) % U32 / SECTOR
  }

  function NewCap(cap: nat, needed: nat): nat {
    Doubled(if cap == 0 then 1 else cap, Sectors32(needed))
  }

  /** Growing reaches the needed size exactly when the sector count does not
      wrap, and then less than doubles it. */
  lemma NewCapFacts(cap: nat, needed: nat)
    requires cap == 0 || Pow2(cap)
    requires cap * SECTOR < needed < U32
    ensures Pow2(NewCap(cap, needed)) && NewCap(cap, needed) >= cap
    ensures NewCap(cap, needed) < 0x100_0000
    ensures needed <= LIMIT <==> NewCap(cap, needed) * SECTOR >= needed
    ensures needed <= LIMIT ==> NewCap(cap, needed) >= 2 * cap && NewCap(cap, needed) < 2 * SectorsFor(needed)
  {
    var from := if cap == 0 then 1 else cap;
    DoubledFacts(from, Sectors32(needed));
    if needed > LIMIT {
      assert Sectors32(needed) == 0;
      assert cap < 0x80_0000;
    } else {
      assert Sectors32(needed) == SectorsFor(needed);
      assert SectorsFor(needed) > cap;
    }
  }

  // ---------------------------------------------------------------------------
  // The mounted file system

  /** A snapshot; granted[i] counts the sectors ever given to the file in slot i. */
  datatype Fs = Fs(disk: Disk, dir: seq<Byte>, count: nat, next: nat, granted: seq<nat>)

  /** The superblock: magic, file count, next free sector. */
  function Super(count: nat, next: nat): (r: seq<Byte>)
    requires count < U32 && next < U32
    ensures |r| == SECTOR
  {
    WriteU32(WriteU32(['U' as int as Byte, 'F' as int as Byte, 'S' as int as Byte, '1' as int as Byte]
                      + seq(SECTOR - 4, _ => 0), 4, count), 8, next)
  }

  predicate Magic(sector: seq<Byte>) {
    |sector| == SECTOR
      && sector[..4] == ['U' as int as Byte, 'F' as int as Byte, 'S' as int as Byte, '1' as int as Byte]
  }

  lemma SuperFacts(count: nat, next: nat)
    requires count < U32 && next < U32
    ensures Magic(Super(count, next)) && ReadU32(Super(count, next), 8) == next
  {
    var z := ['U' as int as Byte, 'F' as int as Byte, 'S' as int as Byte, '1' as int as Byte] + seq(SECTOR - 4, _ => 0);
    WordRoundTrip(WriteU32(z, 4, count), 8, next);
  }

  /** The superblock byte by byte: magic, file count at byte 4, next free sector
      at byte 8, the rest zero. */
  lemma SuperBytes(count: nat, next: nat)
    requires count < U32 && next < U32
    ensures var b := Super(count, next);
      && b[0] == 0x55 && b[1] == 0x46 && b[2] == 0x53 && b[3] == 0x31
      && b[4] as int == count % 256 && b[5] as int == count / 256 % 256
      && b[6] as int == count / 65536 % 256 && b[7] as int == count / 16777216
      && b[8] as int == next % 256 && b[9] as int == next / 256 % 256
      && b[10] as int == next / 65536 % 256 && b[11] as int == next / 16777216
      && forall k :: 12 <= k < 512 ==> b[k] == 0
  {
    hide WriteU32;
    var z := ['U' as int as Byte, 'F' as int as Byte, 'S' as int as Byte, '1' as int as Byte] + seq(SECTOR - 4, _ => 0);
    WordBytes(z, 4, count);
    WordBytes(WriteU32(z, 4, count), 8, next);
  }

  /** An entry of the directory byte by byte: 40 bytes, the name in the first 20,
      then start, size, capacity and owner, and the permissions. */
  lemma EntryBytes(dir: seq<Byte>, i: nat, e: Slot)
    requires |dir| == 2560 && i < 64
    requires dir[40 * i..40 * i + 20] == e.raw && dir[40 * i + 36] == e.perm
    requires WordHere(dir, 40 * i + 20, e.start) && WordHere(dir, 40 * i + 24, e.size)
    requires WordHere(dir, 40 * i + 28, e.cap) && WordHere(dir, 40 * i + 32, e.owner)
    ensures SlotAt(dir, i) == e
  {
    hide ReadU32;
    BytesWord(dir, 40 * i + 20, e.start);
    BytesWord(dir, 40 * i + 24, e.size);
    BytesWord(dir, 40 * i + 28, e.cap);
    BytesWord(dir, 40 * i + 32, e.owner);
  }

  predicate WordHere(b: seq<Byte>, o: nat, v: nat) {
    && o + 4 <= |b| && v < 0x1_0000_0000
    && b[o] as int == v % 256 && b[o + 1] as int == v / 256 % 256
    && b[o + 2] as int == v / 65536 % 256 && b[o + 3] as int == v / 16777216
  }

  predicate SlotOk(e: Slot, next: nat) {
    && PaddedName(e.raw)
    && e.size <= e.cap * SECTOR
    && (e.cap > 0 ==> Pow2(e.cap) && DATA_LBA <= e.start && e.start + e.cap <= next)
  }

  /** Different names, disjoint extents. */
  predicate Apart(e: Slot, f: Slot) {
    e.raw != f.raw && (e.cap == 0 || f.cap == 0 || e.start + e.cap <= f.start || f.start + f.cap <= e.start)
  }

  /** The disk holds what is in memory. */
  ghost predicate Stored(fs: Fs) {
    && DiskOk(fs.disk) && |fs.dir| == DIR_BYTES && fs.count < U32 && fs.next < U32
    && fs.disk[SB_LBA] == Super(fs.count, fs.next)
    && Bytes(fs.disk, DIR_LBA, DIR_BYTES) == fs.dir
  }

  ghost predicate FsOk(fs: Fs) {
    && Stored(fs) && |fs.granted| == SLOTS
    && DATA_LBA <= fs.next <= DATA_END
    && fs.count == UsedBelow(fs.dir, SLOTS)
    && (forall i :: 0 <= i < SLOTS && Used(fs.dir, i) ==> SlotOk(SlotAt(fs.dir, i), fs.next))
    && (forall i, j :: 0 <= i < SLOTS && 0 <= j < SLOTS && i != j && Used(fs.dir, i) && Used(fs.dir, j) ==>
      Apart(SlotAt(fs.dir, i), SlotAt(fs.dir, j)))
  }

  /** At most 2 * capacity - 1 sectors were ever given to a file. */
  predicate GrantOk(granted: nat, cap: nat) {
    if cap == 0 then granted == 0 else granted <= 2 * cap - 1
  }

  ghost predicate Frugal(fs: Fs)
    requires |fs.dir| == DIR_BYTES && |fs.granted| == SLOTS
  {
    forall i :: 0 <= i < SLOTS && Used(fs.dir, i) ==> GrantOk(fs.granted[i], SlotAt(fs.dir, i).cap)
  }

  lemma FrugalSame(a: Fs, b: Fs)
    requires b.dir == a.dir && b.granted == a.granted && |a.dir| == DIR_BYTES && |a.granted| == SLOTS
    ensures Frugal(b) == Frugal(a)
  {
  }

  lemma FrugalKept(a: Fs, b: Fs, i: nat)
    requires OnlySlot(a.dir, b.dir, i) && i < SLOTS && |a.granted| == |b.granted| == SLOTS
    requires forall j :: 0 <= j < SLOTS && j != i ==> b.granted[j] == a.granted[j]
    requires Frugal(a) && (Used(b.dir, i) ==> GrantOk(b.granted[i], SlotAt(b.dir, i).cap))
    ensures Frugal(b)
  {
    forall j | 0 <= j < SLOTS && j != i && Used(b.dir, j)
      ensures GrantOk(b.granted[j], SlotAt(b.dir, j).cap)
    {
      OtherSlots(a.dir, b.dir, i, j);
    }
  }

  datatype File = File(bytes: seq<Byte>, owner: nat, perm: Byte)

  function FileIn(disk: Disk, e: Slot): File {
    File(Bytes(disk, e.start, e.size), e.owner, e.perm)
  }

  function NameAt(dir: seq<Byte>, i: nat): seq<Byte>
    requires |dir| == DIR_BYTES && i < SLOTS
  {
    Str(SlotAt(dir, i).raw)
  }

  lemma NamesDiffer(fs: Fs, i: nat, j: nat)
    requires FsOk(fs) && i < SLOTS && j < SLOTS && Used(fs.dir, i) && Used(fs.dir, j)
      && NameAt(fs.dir, i) == NameAt(fs.dir, j)
    ensures i == j
  {
    assert SlotOk(SlotAt(fs.dir, i), fs.next) && SlotOk(SlotAt(fs.dir, j), fs.next);
    assert i != j ==> Apart(SlotAt(fs.dir, i), SlotAt(fs.dir, j));
  }

  /** What the file system means: names and their contents. */
  ghost function Files(fs: Fs): map<seq<Byte>, File>
    requires |fs.dir| == DIR_BYTES
  {
    map name | name in Names(fs.dir) :: FileIn(fs.disk, SlotAt(fs.dir, SlotOf(fs.dir, name)))
  }

  ghost function Names(dir: seq<Byte>): set<seq<Byte>>
    requires |dir| == DIR_BYTES
  {
    set i | 0 <= i < SLOTS && Used(dir, i) :: NameAt(dir, i)
  }

  ghost function SlotOf(dir: seq<Byte>, name: seq<Byte>): (i: nat)
    requires |dir| == DIR_BYTES && name in Names(dir)
    ensures i < SLOTS && Used(dir, i) && NameAt(dir, i) == name
  {
    var i: nat :| i < SLOTS && Used(dir, i) && NameAt(dir, i) == name;
    i
  }

  lemma FileFound(fs: Fs, i: nat)
    requires FsOk(fs) && i < SLOTS && Used(fs.dir, i)
    ensures NameAt(fs.dir, i) in Files(fs) && Files(fs)[NameAt(fs.dir, i)] == FileIn(fs.disk, SlotAt(fs.dir, i))
  {
    NamesDiffer(fs, i, SlotOf(fs.dir, NameAt(fs.dir, i)));
  }

  /** The extents of the files in the other slots were not written. */
  ghost predicate OthersKept(a: Fs, b: Fs, i: nat)
    requires |a.dir| == DIR_BYTES
  {
    forall j, s ::
      (0 <= j < SLOTS && j != i && Used(a.dir, j)
       && SlotAt(a.dir, j).start <= s < SlotAt(a.dir, j).start + SlotAt(a.dir, j).cap
       && s < |a.disk| && s < |b.disk|) ==>
      b.disk[s] == a.disk[s]
  }

  /** Only slot i, its extent and the counters changed, and they fit the rest. */
  ghost predicate SlotStep(a: Fs, b: Fs, i: nat) {
    && i < SLOTS && OnlySlot(a.dir, b.dir, i) && OthersKept(a, b, i)
    && Stored(b) && |b.granted| == SLOTS == |a.granted| && |b.disk| == |a.disk|
    && a.next <= b.next <= DATA_END
    && b.count - a.count == (if Used(b.dir, i) then 1 else 0) - (if Used(a.dir, i) then 1 else 0)
    && (Used(b.dir, i) ==>
          && SlotOk(SlotAt(b.dir, i), b.next)
          && forall j :: 0 <= j < SLOTS && j != i && Used(a.dir, j) ==> Apart(SlotAt(b.dir, i), SlotAt(a.dir, j)))
  }

  lemma StepKeeps(a: Fs, b: Fs, i: nat)
    requires FsOk(a) && SlotStep(a, b, i)
    ensures FsOk(b)
  {
    UsedChange(a.dir, b.dir, i, SLOTS);
    forall j | 0 <= j < SLOTS && j != i
      ensures SlotAt(b.dir, j) == SlotAt(a.dir, j) && Used(b.dir, j) == Used(a.dir, j)
    {
      OtherSlots(a.dir, b.dir, i, j);
    }
    forall j, k | 0 <= j < SLOTS && 0 <= k < SLOTS && j != k && Used(b.dir, j) && Used(b.dir, k)
      ensures Apart(SlotAt(b.dir, j), SlotAt(b.dir, k))
    {
      assert j != i && k != i ==> Apart(SlotAt(a.dir, j), SlotAt(a.dir, k));
    }
  }

  lemma FileStays(d: Disk, d': Disk, e: Slot)
    requires e.size <= e.cap * SECTOR && |d'| == |d|
    requires e.cap > 0 ==> e.start + e.cap <= |d|
    requires forall s :: e.start <= s < e.start + e.cap && s < |d| ==> d'[s] == d[s]
    ensures FileIn(d', e) == FileIn(d, e)
  {
    if e.size > 0 {
      var n := SectorsFor(e.size);
      assert n <= e.cap;
      assert d'[e.start..e.start + n] == d[e.start..e.start + n];
      SameSectors(d, d', e.start, e.start, e.size);
    }
  }

  lemma OtherFile(a: Fs, b: Fs, i: nat, j: nat)
    requires FsOk(a) && SlotStep(a, b, i) && j < SLOTS && j != i && (Used(a.dir, j) || Used(b.dir, j))
    ensures Used(a.dir, j) && Used(b.dir, j) && NameAt(b.dir, j) == NameAt(a.dir, j)
    ensures FileIn(b.disk, SlotAt(b.dir, j)) == FileIn(a.disk, SlotAt(a.dir, j))
  {
    hide FsOk, SlotStep, SlotAt, Used, OnlySlot, OthersKept, Str;
    StepParts(a, b, i);
    OtherSlots(a.dir, b.dir, i, j);
    CapFits(a, j);
    KeptSectors(a, b, i, j);
    FileStays(a.disk, b.disk, SlotAt(a.dir, j));
  }

  lemma StepParts(a: Fs, b: Fs, i: nat)
    requires FsOk(a) && SlotStep(a, b, i)
    ensures i < SLOTS && OnlySlot(a.dir, b.dir, i) && OthersKept(a, b, i)
    ensures |b.disk| == |a.disk| >= DATA_END && |a.dir| == |b.dir| == DIR_BYTES
  {
  }

  lemma KeptSectors(a: Fs, b: Fs, i: nat, j: nat)
    requires |a.dir| == DIR_BYTES && j < SLOTS && j != i && Used(a.dir, j) && OthersKept(a, b, i)
      && |b.disk| == |a.disk|
    ensures forall s :: SlotAt(a.dir, j).start <= s < SlotAt(a.dir, j).start + SlotAt(a.dir, j).cap && s < |a.disk| ==>
      b.disk[s] == a.disk[s]
  {
  }

  function Entry1(present: bool, name: seq<Byte>, f: File): map<seq<Byte>, File> {
    if present then map[name := f] else map[]
  }

  /** All files but the one in slot i. */
  ghost function Rest(fs: Fs, i: nat): map<seq<Byte>, File>
    requires |fs.dir| == DIR_BYTES && i < SLOTS
  {
    Files(fs) - (if Used(fs.dir, i) then {NameAt(fs.dir, i)} else {})
  }

  lemma InRest(fs: Fs, i: nat, j: nat)
    requires |fs.dir| == DIR_BYTES && FsOk(fs) && i < SLOTS && j < SLOTS && Used(fs.dir, j) && j != i
    ensures NameAt(fs.dir, j) in Rest(fs, i) && Rest(fs, i)[NameAt(fs.dir, j)] == FileIn(fs.disk, SlotAt(fs.dir, j))
  {
    hide FsOk, SlotAt, NameAt, FileIn, Used, Files;
    FileFound(fs, j);
    if Used(fs.dir, i) && NameAt(fs.dir, i) == NameAt(fs.dir, j) {
      NamesDiffer(fs, i, j);
    }
  }

  lemma RestStays(a: Fs, b: Fs, i: nat)
    requires |a.dir| == |b.dir| == DIR_BYTES && i < SLOTS && FsOk(a) && FsOk(b) && SlotStep(a, b, i)
    ensures Rest(b, i) == Rest(a, i)
  {
    hide FsOk, SlotStep, SlotAt, NameAt, FileIn, Used, OnlySlot, SlotOf;
    forall name | name in Rest(b, i)
      ensures name in Rest(a, i) && Rest(b, i)[name] == Rest(a, i)[name]
    {
      var j := SlotOf(b.dir, name);
      OtherFile(a, b, i, j);
      InRest(a, i, j);
      InRest(b, i, j);
    }
    forall name | name in Rest(a, i)
      ensures name in Rest(b, i)
    {
      var j := SlotOf(a.dir, name);
      OtherFile(a, b, i, j);
      InRest(b, i, j);
    }
  }

  /** The meaning of a step on slot i: its old entry goes, its new one comes. */
  lemma StepFiles(a: Fs, b: Fs, i: nat)
    requires |a.dir| == |b.dir| == DIR_BYTES && i < SLOTS && FsOk(a) && SlotStep(a, b, i)
    ensures FsOk(b)
    ensures Files(b) == Rest(a, i) + Entry1(Used(b.dir, i), NameAt(b.dir, i), FileIn(b.disk, SlotAt(b.dir, i)))
  {
    hide FsOk, SlotStep, SlotAt, NameAt, FileIn, Used, Files;
    StepKeeps(a, b, i);
    RestStays(a, b, i);
    if Used(b.dir, i) {
      FileFound(b, i);
    }
  }

  // ---------------------------------------------------------------------------
  // Mounting

  /** What ufs_init reads off a disk that carries the magic number. */
  function MountNext(disk: Disk): nat
    requires DiskOk(disk)
  {
    var n := ReadU32(disk[SB_LBA], 8);
    if n < DATA_LBA || n > DATA_END then DATA_LBA else n
  }

  /** The disk alone determines the mounted file system. */
  lemma Remount(fs: Fs)
    requires FsOk(fs)
    ensures Magic(fs.disk[SB_LBA]) && Bytes(fs.disk, DIR_LBA, DIR_BYTES) == fs.dir
    ensures MountNext(fs.disk) == fs.next && UsedBelow(Bytes(fs.disk, DIR_LBA, DIR_BYTES), SLOTS) == fs.count
  {
    SuperFacts(fs.count, fs.next);
  }

  // ---------------------------------------------------------------------------
  // The steps of the operations

  ghost predicate SameData(d: Disk, d': Disk) {
    |d'| == |d| && forall s :: DATA_LBA <= s < |d| ==> d'[s] == d[s]
  }

  lemma DataKept(a: Fs, b: Fs, i: nat)
    requires FsOk(a) && SameData(a.disk, b.disk)
    ensures OthersKept(a, b, i) && |b.disk| == |a.disk|
    ensures i < SLOTS && Used(a.dir, i) ==> FileIn(b.disk, SlotAt(a.dir, i)) == FileIn(a.disk, SlotAt(a.dir, i))
  {
    forall j, s | 0 <= j < SLOTS && Used(a.dir, j)
      && SlotAt(a.dir, j).start <= s < SlotAt(a.dir, j).start + SlotAt(a.dir, j).cap && s < |a.disk|
      ensures b.disk[s] == a.disk[s]
    {
      assert SlotOk(SlotAt(a.dir, j), a.next);
    }
    if i < SLOTS && Used(a.dir, i) {
      FileStays(a.disk, b.disk, SlotAt(a.dir, i));
    }
  }

  /** The directory with a fresh entry i. */
  function WithEntry(dir: seq<Byte>, i: nat, name: seq<Byte>, owner: nat): seq<Byte>
    requires |dir| == DIR_BYTES && i < SLOTS && |name| < NAME_MAX && owner < U32
  {
    var o := i * ENTRY;
    var d := WriteU32(WriteU32(WriteU32(Overlaid(dir, o, Pad(name)), o + 20, 0), o + 24, 0), o + 28, 0);
    WriteU32(d, o + 32, owner)[o + 36 := 0]
  }

  lemma NewEntry(dir: seq<Byte>, i: nat, name: seq<Byte>, owner: nat)
    requires |dir| == DIR_BYTES && i < SLOTS && |name| < NAME_MAX && owner < U32
    ensures OnlySlot(dir, WithEntry(dir, i, name, owner), i)
    ensures SlotAt(WithEntry(dir, i, name, owner), i) == Slot(Pad(name), 0, 0, 0, owner, 0)
  {
    hide WriteU32, ReadU32, Overlaid, Pad, SlotAt, OnlySlot;
    var o := i * ENTRY;
    NamePut(dir, i, name);
    var d0 := Overlaid(dir, o, Pad(name));
    SetStart(d0, i, 0);
    var d1 := WriteU32(d0, o + 20, 0);
    SlotTwice(dir, d0, d1, i);
    SetSize(d1, i, 0);
    var d2 := WriteU32(d1, o + 24, 0);
    SlotTwice(dir, d1, d2, i);
    SetCap(d2, i, 0);
    var d3 := WriteU32(d2, o + 28, 0);
    SlotTwice(dir, d2, d3, i);
    SetOwner(d3, i, owner);
    var d4 := WriteU32(d3, o + 32, owner);
    SlotTwice(dir, d3, d4, i);
    SetPerm(d4, i);
    SlotTwice(dir, d4, d4[o + 36 := 0], i);
  }

  lemma NamePut(dir: seq<Byte>, i: nat, name: seq<Byte>)
    requires |dir| == DIR_BYTES && i < SLOTS && |name| < NAME_MAX
    ensures var d := Overlaid(dir, i * ENTRY, Pad(name)); OnlySlot(dir, d, i) && SlotAt(d, i).raw == Pad(name)
  {
    hide ReadU32;
    var d := Overlaid(dir, i * ENTRY, Pad(name));
    assert d[i * ENTRY..i * ENTRY + NAME_MAX] == Pad(name);
  }

  lemma SlotTwice(a: seq<Byte>, b: seq<Byte>, c: seq<Byte>, i: nat)
    requires OnlySlot(a, b, i) && OnlySlot(b, c, i)
    ensures OnlySlot(a, c, i)
  {
  }

  lemma SetPerm(dir: seq<Byte>, i: nat)
    requires |dir| == DIR_BYTES && i < SLOTS
    ensures var d := dir[i * ENTRY + 36 := 0]; OnlySlot(dir, d, i) && SlotAt(d, i) == SlotAt(dir, i).(perm := 0)
  {
    var o := i * ENTRY;
    assert dir[o + 36 := 0][o..o + NAME_MAX] == dir[o..o + NAME_MAX];
  }

  lemma Created(a: Fs, b: Fs, i: nat, name: seq<Byte>, owner: nat)
    requires |a.dir| == |b.dir| == DIR_BYTES && i < SLOTS && FsOk(a)
    requires !Used(a.dir, i) && NameOk(name) && name !in Names(a.dir)
    requires OnlySlot(a.dir, b.dir, i) && SlotAt(b.dir, i) == Slot(Pad(name), 0, 0, 0, owner, 0)
    requires Stored(b) && SameData(a.disk, b.disk) && b.count == a.count + 1 && b.next == a.next && |b.granted| == SLOTS
    ensures FsOk(b) && Files(b) == Files(a)[name := File([], owner, 0)]
  {
    hide FsOk, SlotAt, Used, OnlySlot, OthersKept, Stored, Apart, SlotOk, Names, NameAt, SameData, Files, FileIn;
    DataKept(a, b, i);
    NewSlot(a, b, i, name);
    assert SlotStep(a, b, i);
    StepFiles(a, b, i);
    EmptyFile(b.disk, SlotAt(b.dir, i));
    MapFacts(Files(a), name, File([], owner, 0));
  }

  lemma EmptyFile(d: Disk, e: Slot)
    requires e.size == 0
    ensures FileIn(d, e) == File([], e.owner, e.perm)
  {
  }

  lemma MapFacts(m: map<seq<Byte>, File>, name: seq<Byte>, f: File)
    ensures m - {} + map[name := f] == m[name := f]
    ensures m - {name} + map[name := f] == m[name := f]
  {
  }

  lemma NewSlot(a: Fs, b: Fs, i: nat, name: seq<Byte>)
    requires |a.dir| == |b.dir| == DIR_BYTES && i < SLOTS && FsOk(a)
    requires NameOk(name) && name !in Names(a.dir)
    requires SlotAt(b.dir, i).raw == Pad(name) && SlotAt(b.dir, i).cap == SlotAt(b.dir, i).size == 0
    ensures Used(b.dir, i) && NameAt(b.dir, i) == name && SlotOk(SlotAt(b.dir, i), b.next)
    ensures DATA_LBA <= a.next <= DATA_END && |a.granted| == SLOTS
    ensures forall j :: 0 <= j < SLOTS && j != i && Used(a.dir, j) ==> Apart(SlotAt(b.dir, i), SlotAt(a.dir, j))
  {
    StrOfPad(name);
    assert b.dir[i * ENTRY] == SlotAt(b.dir, i).raw[0];
    forall j | 0 <= j < SLOTS && j != i && Used(a.dir, j)
      ensures Apart(SlotAt(b.dir, i), SlotAt(a.dir, j))
    {
      assert NameAt(a.dir, j) in Names(a.dir);
    }
  }

  lemma Cleared(dir: seq<Byte>, i: nat)
    requires |dir| == DIR_BYTES && i < SLOTS
    ensures !Used(dir[i * ENTRY := 0], i) && OnlySlot(dir, dir[i * ENTRY := 0], i)
  {
  }

  lemma Deleted(a: Fs, b: Fs, i: nat)
    requires |a.dir| == |b.dir| == DIR_BYTES && i < SLOTS && FsOk(a) && Used(a.dir, i)
    requires b.dir == a.dir[i * ENTRY := 0]
    requires Stored(b) && SameData(a.disk, b.disk) && b.count == a.count - 1 && b.next == a.next && |b.granted| == SLOTS
    ensures FsOk(b) && Files(b) == Files(a) - {NameAt(a.dir, i)}
  {
    hide FsOk, SlotAt, Used, OnlySlot, OthersKept, Stored, Apart, SlotOk, SameData, Files, FileIn;
    DataKept(a, b, i);
    SlotStays(a, i);
    Cleared(a.dir, i);
    assert SlotStep(a, b, i);
    StepFiles(a, b, i);
  }

  /** The size field of file i became n, within its capacity. */
  lemma Resized(a: Fs, b: Fs, i: nat, n: nat)
    requires |a.dir| == |b.dir| == DIR_BYTES && i < SLOTS && FsOk(a) && Used(a.dir, i)
    requires OnlySlot(a.dir, b.dir, i) && SlotAt(b.dir, i) == SlotAt(a.dir, i).(size := n)
      && n <= SlotAt(a.dir, i).cap * SECTOR
    requires Stored(b) && SameData(a.disk, b.disk) && b.count == a.count && b.next == a.next && |b.granted| == SLOTS
    ensures FsOk(b) && Files(b) == Files(a)[NameAt(a.dir, i) := FileIn(b.disk, SlotAt(b.dir, i))]
  {
    hide FsOk, SlotAt, Used, OnlySlot, OthersKept, Stored, Apart, SlotOk, GrantOk, SameData, Files, FileIn;
    DataKept(a, b, i);
    SameField(a, b, i);
    SlotStays(a, i);
    SlotResized(SlotAt(a.dir, i), a.next, n);
    assert forall j :: 0 <= j < SLOTS && j != i && Used(a.dir, j) ==> Apart(SlotAt(b.dir, i), SlotAt(a.dir, j));
    assert SlotStep(a, b, i);
    StepFiles(a, b, i);
    MapFacts(Files(a), NameAt(a.dir, i), FileIn(b.disk, SlotAt(b.dir, i)));
  }

  lemma SlotResized(e: Slot, next: nat, n: nat)
    requires SlotOk(e, next) && n <= e.cap * SECTOR
    ensures SlotOk(e.(size := n), next)
    ensures forall f :: Apart(e, f) ==> Apart(e.(size := n), f)
  {
  }

  lemma SameField(a: Fs, b: Fs, i: nat)
    requires |a.dir| == |b.dir| == DIR_BYTES && i < SLOTS && SlotAt(b.dir, i).raw == SlotAt(a.dir, i).raw
    ensures Used(b.dir, i) <==> Used(a.dir, i)
  {
    assert a.dir[i * ENTRY] == SlotAt(a.dir, i).raw[0] && b.dir[i * ENTRY] == SlotAt(b.dir, i).raw[0];
  }

  lemma SlotStays(a: Fs, i: nat)
    requires FsOk(a) && i < SLOTS && Used(a.dir, i)
    ensures SlotOk(SlotAt(a.dir, i), a.next)
    ensures DATA_LBA <= a.next <= DATA_END && |a.granted| == SLOTS
    ensures a.count < U32 && DATA_END <= |a.disk|
    ensures forall j :: 0 <= j < SLOTS && j != i && Used(a.dir, j) ==> Apart(SlotAt(a.dir, i), SlotAt(a.dir, j))
  {
  }

  /** The extent of file i moved to the first free sectors, with more room. */
  lemma Moved(a: Fs, b: Fs, i: nat, cap: nat)
    requires |a.dir| == |b.dir| == DIR_BYTES && i < SLOTS && FsOk(a) && Used(a.dir, i)
    requires Pow2(cap) && cap >= SlotAt(a.dir, i).cap && a.next + cap <= DATA_END && b.next == a.next + cap
    requires OnlySlot(a.dir, b.dir, i) && SlotAt(b.dir, i) == SlotAt(a.dir, i).(start := a.next, cap := cap)
    requires Stored(b) && b.count == a.count && |b.granted| == SLOTS
    requires Relocated(a.disk, b.disk, SlotAt(a.dir, i), a.next)
    ensures FsOk(b) && Files(b) == Files(a)
    ensures FileIn(b.disk, SlotAt(b.dir, i)) == FileIn(a.disk, SlotAt(a.dir, i))
  {
    hide FsOk, SlotAt, Used, OnlySlot, OthersKept, Stored, Apart, SlotOk, Files, FileIn, Relocated, Pow2;
    SlotStays(a, i);
    SameField(a, b, i);
    MovedFits(a, SlotAt(b.dir, i), i, cap);
    RelocatedKept(a, b, i);
    assert SlotStep(a, b, i);
    StepFiles(a, b, i);
    FileFound(a, i);
    MapSame(Files(a), NameAt(a.dir, i));
  }

  lemma MapSame(m: map<seq<Byte>, File>, name: seq<Byte>)
    requires name in m
    ensures m - {name} + map[name := m[name]] == m
  {
  }

  lemma MovedFits(a: Fs, e: Slot, i: nat, cap: nat)
    requires FsOk(a) && i < SLOTS && Used(a.dir, i)
    requires Pow2(cap) && cap >= SlotAt(a.dir, i).cap && e == SlotAt(a.dir, i).(start := a.next, cap := cap)
    ensures SlotOk(e, a.next + cap)
    ensures forall j :: 0 <= j < SLOTS && j != i && Used(a.dir, j) ==> Apart(e, SlotAt(a.dir, j))
  {
    forall j | 0 <= j < SLOTS && j != i && Used(a.dir, j)
      ensures Apart(e, SlotAt(a.dir, j))
    {
      assert Apart(SlotAt(a.dir, i), SlotAt(a.dir, j)) && SlotOk(SlotAt(a.dir, j), a.next);
    }
  }

  /** Data sectors below `to` are as before, and the contents of e are at `to`. */
  ghost predicate Relocated(d: Disk, d': Disk, e: Slot, to: nat) {
    && |d'| == |d|
    && (forall s :: DATA_LBA <= s < to && s < |d| ==> d'[s] == d[s])
    && Bytes(d', to, e.size) == Bytes(d, e.start, e.size)
  }

  lemma RelocatedKept(a: Fs, b: Fs, i: nat)
    requires |a.dir| == |b.dir| == DIR_BYTES && i < SLOTS && FsOk(a) && Used(a.dir, i)
    requires Relocated(a.disk, b.disk, SlotAt(a.dir, i), a.next)
    requires SlotAt(b.dir, i).start == a.next && SlotAt(b.dir, i).size == SlotAt(a.dir, i).size
    requires SlotAt(b.dir, i).owner == SlotAt(a.dir, i).owner && SlotAt(b.dir, i).perm == SlotAt(a.dir, i).perm
    ensures OthersKept(a, b, i) && |b.disk| == |a.disk|
    ensures FileIn(b.disk, SlotAt(b.dir, i)) == FileIn(a.disk, SlotAt(a.dir, i))
  {
    forall j, s | 0 <= j < SLOTS && j != i && Used(a.dir, j)
      && SlotAt(a.dir, j).start <= s < SlotAt(a.dir, j).start + SlotAt(a.dir, j).cap && s < |a.disk|
      ensures b.disk[s] == a.disk[s]
    {
      assert SlotOk(SlotAt(a.dir, j), a.next);
    }
  }

  /** Bytes were written inside the extent of file i. */
  lemma Written(a: Fs, b: Fs, i: nat, offset: nat, data: seq<Byte>)
    requires |a.dir| == |b.dir| == DIR_BYTES && i < SLOTS && FsOk(a) && Used(a.dir, i)
    requires b == a.(disk := b.disk) && Wrote(a.disk, b.disk, SlotAt(a.dir, i).start, offset, data)
    requires 0 < |data| && offset + |data| <= SlotAt(a.dir, i).cap * SECTOR
    ensures FsOk(b) && Files(b) == Files(a)[NameAt(a.dir, i) := FileIn(b.disk, SlotAt(b.dir, i))]
  {
    hide FsOk, SlotAt, Used, OthersKept, Stored, Apart, SlotOk, Files, FileIn, Wrote;
    SlotStays(a, i);
    WrittenKept(a, b, i, offset, data);
    assert SlotStep(a, b, i);
    StepFiles(a, b, i);
    MapFacts(Files(a), NameAt(a.dir, i), FileIn(b.disk, SlotAt(b.dir, i)));
  }

  lemma WrittenKept(a: Fs, b: Fs, i: nat, offset: nat, data: seq<Byte>)
    requires |a.dir| == DIR_BYTES && i < SLOTS && FsOk(a) && Used(a.dir, i)
    requires b == a.(disk := b.disk) && Wrote(a.disk, b.disk, SlotAt(a.dir, i).start, offset, data)
    requires 0 < |data| && offset + |data| <= SlotAt(a.dir, i).cap * SECTOR
    ensures OthersKept(a, b, i) && Stored(b) && |b.disk| == |a.disk|
  {
    hide Stored, PaddedName, Pow2;
    var e := SlotAt(a.dir, i);
    assert SlotOk(e, a.next) && SectorsFor(offset + |data|) <= e.cap;
    SlotStays(a, i);
    StoredStays(a, b);
    forall j, s | 0 <= j < SLOTS && j != i && Used(a.dir, j)
      && SlotAt(a.dir, j).start <= s < SlotAt(a.dir, j).start + SlotAt(a.dir, j).cap && s < |a.disk|
      ensures b.disk[s] == a.disk[s]
    {
      assert Apart(e, SlotAt(a.dir, j));
    }
  }

  lemma StoredStays(a: Fs, b: Fs)
    requires Stored(a) && b == a.(disk := b.disk) && |b.disk| == |a.disk|
    requires forall s :: 0 <= s < |a.disk| ==> |b.disk[s]| == |a.disk[s]|
    requires forall s :: 0 <= s < DATA_LBA ==> b.disk[s] == a.disk[s]
    ensures Stored(b)
  {
    assert b.disk[DIR_LBA..DIR_LBA + 5] == a.disk[DIR_LBA..DIR_LBA + 5];
    SameSectors(a.disk, b.disk, DIR_LBA, DIR_LBA, DIR_BYTES);
  }

  /** Contents `now` are `was` with data written at offset; if that lies beyond
      the old end, the bytes between are whatever the disk holds. */
  predicate Overwritten(was: seq<Byte>, now: seq<Byte>, offset: nat, data: seq<Byte>) {
    && |now| == (if offset + |data| > |was| then offset + |data| else |was|)
    && now[offset..offset + |data|] == data
    && forall k :: 0 <= k < |was| && !(offset <= k < offset + |data|) ==> now[k] == was[k]
  }

  lemma OverwrittenFile(a: Disk, b: Disk, c: Disk, e: Slot, offset: nat, data: seq<Byte>)
    requires DATA_LBA <= e.start && SameData(b, c)
    requires Wrote(a, b, e.start, offset, data)
    requires forall s :: 0 <= s < |a| ==> |a[s]| == SECTOR
    ensures Overwritten(Bytes(a, e.start, e.size),
              Bytes(c, e.start, if offset + |data| > e.size then offset + |data| else e.size), offset, data)
  {
    forall k: nat
      ensures ByteAt(c, e.start, k) == ByteAt(b, e.start, k)
    {
    }
  }

  /** From a to b the part of the data that lies on the disk was written. */
  ghost predicate StoredPart(a: Fs, b: Fs, i: nat, offset: nat, data: seq<Byte>)
    requires |a.dir| == DIR_BYTES && i < SLOTS
  {
    var start := SlotAt(a.dir, i).start;
    b == a.(disk := b.disk) && Wrote(a.disk, b.disk, start, offset, data[..Fitting(|a.disk|, start, offset, |data|)])
  }

  /** A write that stops half way leaves a sound file system. */
  lemma PartDone(a: Fs, b: Fs, i: nat, offset: nat, data: seq<Byte>)
    requires FsOk(a) && i < SLOTS && Used(a.dir, i) && SlotAt(a.dir, i).cap > 0 && b == a.(disk := b.disk)
    requires var start := SlotAt(a.dir, i).start; Wrote(a.disk, b.disk, start, offset,
      data[..Fitting(|a.disk|, start, offset, |data|)])
    ensures FsOk(b) && StoredPart(a, b, i, offset, data)
  {
    hide Used, SlotOk, Apart, SlotAt, UsedBelow, Fitting, ByteAt;
    CapFits(a, i);
    StoredStays(a, b);
  }

  /** From a to b the file grew if it had to, its contents and all others
      unchanged, and then the write stopped where the disk ends. */
  ghost predicate HalfWritten(a: Fs, b: Fs, i: nat, offset: nat, data: seq<Byte>)
    requires |a.dir| == DIR_BYTES && i < SLOTS
  {
    exists g: Fs :: GrewFor(a, g, i, offset + |data|) && StoredPart(g, b, i, offset, data)
  }

  ghost predicate GrewFor(a: Fs, g: Fs, i: nat, needed: nat)
    requires |a.dir| == DIR_BYTES && i < SLOTS
  {
    && |g.dir| == DIR_BYTES && Files(g) == Files(a) && |g.disk| == |a.disk|
    && if needed <= SlotAt(a.dir, i).cap * SECTOR then g == a else Grown(a, g, i, needed)
  }

  /** Where the extent is after the growth of a write that is not empty. */
  lemma HasCapacity(a: Fs, g: Fs, i: nat, needed: nat)
    requires FsOk(a) && i < SLOTS && Used(a.dir, i) && |g.dir| == DIR_BYTES && 0 < needed < U32
    requires if needed <= SlotAt(a.dir, i).cap * SECTOR then g == a else Grown(a, g, i, needed)
    ensures SlotAt(g.dir, i).cap > 0
    ensures SlotAt(g.dir, i).start == if needed <= SlotAt(a.dir, i).cap * SECTOR then SlotAt(a.dir, i).start else a.next
  {
    CapFits(a, i);
    if needed > SlotAt(a.dir, i).cap * SECTOR {
      NewCapFacts(SlotAt(a.dir, i).cap, needed);
    }
  }

  /** From a to b file i got a new extent of the grown capacity, at the first free sector. */
  ghost predicate Grown(a: Fs, b: Fs, i: nat, needed: nat) {
    && |a.granted| == |b.granted| == SLOTS && i < SLOTS && OnlySlot(a.dir, b.dir, i)
    && var cap := NewCap(SlotAt(a.dir, i).cap, needed);
       && SlotAt(b.dir, i) == SlotAt(a.dir, i).(start := a.next, cap := cap)
       && b.next == a.next + cap
       && b.granted == a.granted[i := a.granted[i] + cap]
  }

  /** The space bound survives growth, and what a file of n sectors was ever
      given stays below 4n. */
  lemma GrownFrugal(a: Fs, b: Fs, i: nat, needed: nat)
    requires FsOk(a) && i < SLOTS && Used(a.dir, i) && Frugal(a) && Grown(a, b, i, needed)
    requires SlotAt(a.dir, i).cap * SECTOR < needed <= LIMIT
    ensures Frugal(b) && b.granted[i] < 4 * SectorsFor(needed)
  {
    SlotStays(a, i);
    assert GrantOk(a.granted[i], SlotAt(a.dir, i).cap);
    NewCapFacts(SlotAt(a.dir, i).cap, needed);
    FrugalKept(a, b, i);
  }

  lemma WholeSectors(size: nat, cap: nat)
    requires size <= cap * SECTOR && cap <= 8192
    ensures Sectors32(size) == SectorsFor(size) <= cap
  {
  }

  lemma CapFits(fs: Fs, i: nat)
    requires FsOk(fs) && i < SLOTS && Used(fs.dir, i)
    ensures SlotAt(fs.dir, i).cap <= 8192 && (SlotAt(fs.dir, i).cap == 0 || Pow2(SlotAt(fs.dir, i).cap))
    ensures SlotAt(fs.dir, i).size <= SlotAt(fs.dir, i).cap * SECTOR
    ensures SlotAt(fs.dir, i).cap > 0 ==>
      && DATA_LBA <= SlotAt(fs.dir, i).start && SlotAt(fs.dir, i).start + SlotAt(fs.dir, i).cap <= fs.next
    ensures DATA_LBA <= fs.next <= DATA_END
  {
    SlotStays(fs, i);
  }

  lemma Chunk(d: Disk, d': Disk, from: nat, to: nat, n: nat)
    requires DiskOk(d) && from + n <= |d| && to + n <= |d|
    requires d' == Put(d, to, Bytes(d, from, n * SECTOR))
    ensures forall s :: to <= s < to + n ==> d'[s] == d[from + (s - to)]
  {
    hide Put, Bytes, DiskOk;
    forall s | to <= s < to + n
      ensures d'[s] == d[from + (s - to)]
    {
      ChunkSector(d, from, n, s - to);
      PutSector(d, to, Bytes(d, from, n * SECTOR), s);
    }
  }

  lemma PutSector(d: Disk, lba: nat, buf: seq<Byte>, s: nat)
    requires |buf| % SECTOR == 0 && lba <= s < lba + |buf| / SECTOR && s < |d|
    ensures Put(d, lba, buf)[s] == buf[(s - lba) * SECTOR..(s - lba) * SECTOR + SECTOR]
  {
  }

  lemma ChunkSector(d: Disk, from: nat, n: nat, c: nat)
    requires DiskOk(d) && from + n <= |d| && c < n
    ensures Bytes(d, from, n * SECTOR)[c * SECTOR..c * SECTOR + SECTOR] == d[from + c]
  {
    var sector := Bytes(d, from, n * SECTOR)[c * SECTOR..c * SECTOR + SECTOR];
    forall k | 0 <= k < SECTOR
      ensures sector[k] == d[from + c][k]
    {
      assert (c * SECTOR + k) / SECTOR == c && (c * SECTOR + k) % SECTOR == k;
    }
  }

  /** Sectors [to, to + n) of d' are a copy of those at `from`; the rest is as in d. */
  ghost predicate CopyOf(d: Disk, d': Disk, from: nat, to: nat, n: nat) {
    && |d'| == |d| && from + n <= to && to + n <= |d|
    && (forall s :: 0 <= s < |d| && !(to <= s < to + n) ==> d'[s] == d[s])
    && (forall s :: to <= s < to + n ==> d'[s] == d[from + (s - to)])
  }

  lemma CopyNone(d: Disk, from: nat, to: nat)
    requires from <= to <= |d|
    ensures CopyOf(d, d, from, to, 0)
  {
  }

  lemma SameSize(d: Disk, d': Disk, from: nat, to: nat, n: nat)
    requires CopyOf(d, d', from, to, n)
    ensures |d'| == |d|
  {
  }

  lemma CopyMore(d: Disk, d1: Disk, d2: Disk, from: nat, to: nat, done: nat, n: nat)
    requires DiskOk(d1) && CopyOf(d, d1, from, to, done) && from + done + n <= to && to + done + n <= |d|
    requires d2 == Put(d1, to + done, Bytes(d1, from + done, n * SECTOR))
    ensures CopyOf(d, d2, from, to, done + n)
  {
    hide Bytes, Put, DiskOk;
    Chunk(d1, d2, from + done, to + done, n);
  }

  lemma Copied(d: Disk, d': Disk, e: Slot, to: nat)
    requires CopyOf(d, d', e.start, to, SectorsFor(e.size)) || (e.size == 0 && d' == d)
    ensures Relocated(d, d', e, to)
  {
    if e.size > 0 {
      var n := SectorsFor(e.size);
      assert d'[to..to + n] == d[e.start..e.start + n];
      SameSectors(d, d', e.start, to, e.size);
    }
  }

  /** The new contents of file i after `data` went to its extent in b and its
      size was updated in c. */
  lemma WriteDone(a: Fs, b: Fs, c: Fs, i: nat, offset: nat, data: seq<Byte>)
    requires |a.dir| == |c.dir| == DIR_BYTES && i < SLOTS && FsOk(a) && Used(a.dir, i)
    requires offset + |data| <= SlotAt(a.dir, i).cap * SECTOR
    requires b == a.(disk := b.disk) && Wrote(a.disk, b.disk, SlotAt(a.dir, i).start, offset, data)
      && (data == [] ==> b == a)
    requires if offset + |data| <= SlotAt(a.dir, i).size then c == b else
      && OnlySlot(b.dir, c.dir, i) && SlotAt(c.dir, i) == SlotAt(b.dir, i).(size := offset + |data|)
      && Stored(c) && SameData(b.disk, c.disk) && c.count == b.count && c.next == b.next && |c.granted| == SLOTS
    ensures FsOk(c) && Rewritten(Files(a), Files(c), NameAt(a.dir, i), offset, data)
    ensures NameAt(c.dir, i) == NameAt(a.dir, i)
  {
    hide FsOk, SlotAt, Used, OnlySlot, Stored, Files, FileIn, Wrote, Bytes, SameData, Overwritten, Str;
    var e := SlotAt(a.dir, i);
    if data != [] {
      Written(a, b, i, offset, data);
    } else {
      FileFound(a, i);
    }
    if c != b {
      Resized(b, c, i, offset + |data|);
    }
    FileFound(a, i);
    FileFound(b, i);
    SameField(a, c, i);
    FileFound(c, i);
    CapFits(a, i);
    DiskSectors(a);
    FileBytes(a.disk, e);
    FileBytes(c.disk, SlotAt(c.dir, i));
    if e.cap > 0 {
      SameDataSelf(b.disk);
      OverwrittenFile(a.disk, b.disk, c.disk, e, offset, data);
    } else {
      OverwrittenNothing(Bytes(a.disk, e.start, 0), Bytes(c.disk, e.start, 0));
    }
  }

  lemma OverwrittenNothing(s: seq<Byte>, t: seq<Byte>)
    requires |s| == 0 == |t|
    ensures Overwritten(s, t, 0, [])
  {
  }

  lemma SameDataSelf(d: Disk)
    ensures SameData(d, d)
  {
  }

  lemma FileBytes(d: Disk, e: Slot)
    ensures FileIn(d, e) == File(Bytes(d, e.start, e.size), e.owner, e.perm)
  {
  }

  lemma DiskSectors(fs: Fs)
    requires FsOk(fs)
    ensures |fs.disk| >= DATA_END && forall s :: 0 <= s < |fs.disk| ==> |fs.disk[s]| == SECTOR
  {
  }

  /** Between two states of the file system only file `name` changed: `data` was
      written at `offset`. */
  ghost predicate Rewritten(was: map<seq<Byte>, File>, now: map<seq<Byte>, File>, name: seq<Byte>, offset: nat,
      data: seq<Byte>) {
    && name in was && name in now && now == was[name := now[name]]
    && now[name].owner == was[name].owner && now[name].perm == was[name].perm
    && Overwritten(was[name].bytes, now[name].bytes, offset, data)
  }

  lemma ReadsBack(was: map<seq<Byte>, File>, now: map<seq<Byte>, File>, name: seq<Byte>, offset: nat, data: seq<Byte>,
      back: seq<Byte>)
    requires Rewritten(was, now, name, offset, data) && name in now
    requires var bytes := now[name].bytes;
      back == if offset >= |bytes| then []
        else bytes[offset..if offset + |data| <= |bytes| then offset + |data| else |bytes|]
    ensures back == data
  {
  }

  lemma FreshOk(fs: Fs)
    requires Stored(fs) && |fs.granted| == SLOTS && fs.count == 0 && fs.next == DATA_LBA
    requires |fs.dir| == DIR_BYTES && forall k :: 0 <= k < DIR_BYTES ==> fs.dir[k] == 0
    ensures FsOk(fs) && Frugal(fs) && Files(fs) == map[] && forall i :: 0 <= i < SLOTS ==> !Used(fs.dir, i)
  {
    hide Stored;
    NoneUsed(fs.dir, SLOTS);
  }

  /** How many of the bytes lie on sectors that the disk has. */
  function Fitting(sectors: nat, start: nat, offset: nat, len: nat): (n: nat)
    ensures n <= len
  {
    var room := (sectors - start) * SECTOR - offset;
    if room <= 0 then 0 else if room < len then room else len
  }

  /** The sector at byte cur of a write is either there or where the write stops. */
  lemma LastSector(sectors: nat, start: nat, offset: nat, len: nat, done: nat, cur: nat)
    requires done < len && cur == offset + done
      && (done > 0 ==> start + SectorsFor(cur) <= sectors && cur % SECTOR == 0)
    ensures start + cur / SECTOR + 1 > sectors ==>
      Fitting(sectors, start, offset, len) == done && start + SectorsFor(offset + len) > sectors
  {
    if start + cur / SECTOR + 1 > sectors {
      assert SectorsFor(offset + len) >= cur / SECTOR + 1;
      assert (sectors - start) * SECTOR <= cur / SECTOR * SECTOR <= cur;
      if done > 0 {
        assert SectorsFor(cur) == cur / SECTOR;
      }
    }
  }

  lemma ChunkEnds(cur: nat, chunk: nat, remaining: nat)
    requires 0 < chunk <= remaining && (chunk == SECTOR - cur % SECTOR || chunk == remaining)
      && cur % SECTOR + chunk <= SECTOR
    ensures SectorsFor(cur + chunk) == cur / SECTOR + 1
    ensures chunk < remaining ==> (cur + chunk) % SECTOR == 0
  {
  }

  lemma AllFits(sectors: nat, start: nat, offset: nat, len: nat)
    requires len == 0 || start + SectorsFor(offset + len) <= sectors
    ensures Fitting(sectors, start, offset, len) == len
  {
  }

  /** One byte above the limit the sector count is 0 and nothing is reserved. */
  lemma GrowthWraps()
    ensures NewCap(0, LIMIT + 1) == 1 && NewCap(0, LIMIT + 1) * SECTOR < LIMIT + 1
    ensures NewCap(0, LIMIT) * SECTOR >= LIMIT
  {
    NewCapFacts(0, LIMIT);
  }

  /** File i of the file system, if `handle` names one. */
  predicate HandleValid(dir: seq<Byte>, handle: int)
    requires |dir| == DIR_BYTES
  {
    0 <= handle < SLOTS && Used(dir, handle)
  }

  class FileSystem {
    var disk: Disk
    var directory: seq<Byte>
    var superblock: seq<Byte>
    var ready: bool
    var count: nat
    var next: nat
    /** Sectors ever given to the file in each slot. */
    ghost var granted: seq<nat>

    ghost function Snap(): Fs
      reads this
    {
      Fs(disk, directory, count, next, granted)
    }

    ghost predicate Shaped()
      reads this
    {
      DiskOk(disk) && |directory| == DIR_BYTES && |superblock| == SECTOR && |granted| == SLOTS && count < U32
        && next < U32
    }

    ghost predicate Valid()
      reads this
    {
      Shaped() && (ready ==> FsOk(Snap()))
    }

    ghost predicate Thrifty()
      requires Valid()
      reads this
    {
      ready ==> Frugal(Snap())
    }

    /** The static buffers before ufs_init, over any disk. */
    constructor (disk: Disk)
      requires DiskOk(disk)
      ensures Valid() && !ready && this.disk == disk && granted == seq(SLOTS, _ => 0)
    {
      this.disk := disk;
      directory := seq(DIR_BYTES, _ => 0);
      superblock := seq(SECTOR, _ => 0);
      ready, count, next := false, 0, DATA_LBA;
      granted := seq(SLOTS, _ => 0);
    }

    method ReadSectors(lba: nat, n: nat) returns (ok: bool, buf: seq<Byte>)
      ensures ok <==> 1 <= n <= 256 && lba + n <= |disk|
      ensures ok ==> buf == Bytes(disk, lba, n * SECTOR)
    {
      ok := 1 <= n <= 256 && lba + n <= |disk|;
      buf := if ok then Bytes(disk, lba, n * SECTOR) else [];
    }

    method WriteSectors(lba: nat, buf: seq<Byte>) returns (ok: bool)
      requires DiskOk(disk) && |buf| % SECTOR == 0
      modifies this`disk
      ensures ok <==> 1 <= |buf| / SECTOR <= 256 && lba + |buf| / SECTOR <= |disk|
      ensures DiskOk(disk) && disk == if ok then Put(old(disk), lba, buf) else old(disk)
    {
      ok := 1 <= |buf| / SECTOR <= 256 && lba + |buf| / SECTOR <= |disk|;
      if ok {
        PutThenRead(disk, lba, buf);
        disk := Put(disk, lba, buf);
      }
    }

    method PersistSuperblock() returns (ok: bool)
      requires Shaped()
      modifies this`disk, this`superblock
      ensures Shaped() && ok && |disk| == |old(disk)|
      ensures disk[SB_LBA] == Super(count, next)
      ensures forall s :: 0 <= s < |disk| && s != SB_LBA ==> disk[s] == old(disk)[s]
    {
      hide WriteU32, Super, DiskOk;
      SuperHead(superblock, count, next);
      superblock := superblock[0 := 'U' as int as Byte][1 := 'F' as int as Byte]
                              [2 := 'S' as int as Byte][3 := '1' as int as Byte];
      superblock := WriteU32(superblock, 4, count);
      superblock := WriteU32(superblock, 8, next);
      var i := 12;
      while i < SECTOR
        invariant 12 <= i <= SECTOR && |superblock| == SECTOR && disk == old(disk)
        invariant forall k :: 0 <= k < i ==> superblock[k] == Super(count, next)[k]
      {
        superblock := superblock[i := 0];
        i := i + 1;
      }
      assert superblock == Super(count, next);
      DiskFits(disk);
      PutThenRead(disk, SB_LBA, superblock);
      OneSector(disk, SB_LBA, superblock);
      ok := WriteSectors(SB_LBA, superblock);
    }

    method PersistDirectory() returns (ok: bool)
      requires Shaped()
      modifies this`disk
      ensures Shaped() && ok && |disk| == |old(disk)|
      ensures Bytes(disk, DIR_LBA, DIR_BYTES) == directory
      ensures forall s :: 0 <= s < |disk| && !(DIR_LBA <= s < DATA_LBA) ==> disk[s] == old(disk)[s]
    {
      PutThenRead(disk, DIR_LBA, directory);
      ok := WriteSectors(DIR_LBA, directory);
    }

    /** Directory and superblock go to disk; the data sectors stay. */
    method Persist() returns (ok: bool)
      requires Shaped()
      modifies this`disk, this`superblock
      ensures Shaped() && ok && Stored(Snap()) && SameData(old(disk), disk)
    {
      ok := PersistDirectory();
      if ok {
        ghost var d := disk;
        ok := PersistSuperblock();
        assert disk[DIR_LBA..DIR_LBA + 5] == d[DIR_LBA..DIR_LBA + 5];
        SameSectors(d, disk, DIR_LBA, DIR_LBA, DIR_BYTES);
      }
    }

    method CountUsedEntries() returns (n: nat)
      requires |directory| == DIR_BYTES
      ensures n == UsedBelow(directory, SLOTS)
    {
      n := 0;
      var i := 0;
      while i < SLOTS
        invariant 0 <= i <= SLOTS && n == UsedBelow(directory, i)
      {
        if directory[i * ENTRY] != 0 {
          n := n + 1;
        }
        i := i + 1;
      }
    }

    method FormatFresh()
      requires Shaped()
      modifies this
      ensures Valid() && ready && Thrifty() && Files(Snap()) == map[] && SameData(old(disk), disk)
      ensures next == DATA_LBA && forall i :: 0 <= i < SLOTS ==> !Used(directory, i)
    {
      hide FsOk, Files, Frugal, Stored, SameData, Used;
      var i := 0;
      while i < DIR_BYTES
        invariant 0 <= i <= DIR_BYTES && Shaped() && disk == old(disk)
        invariant forall k :: 0 <= k < i ==> directory[k] == 0
      {
        directory := directory[i := 0];
        i := i + 1;
      }
      count, next := 0, DATA_LBA;
      granted := seq(SLOTS, _ => 0);
      var ok := Persist();
      ready := true;
      FreshOk(Snap());
    }

    /** Mounting never fails on this disk: without the magic number the disk is
        formatted, with it everything is read back from the disk alone. A mounted
        file system is mounted again exactly as it was. */
    method Init()
      requires Shaped()
      modifies this
      ensures Shaped() && ready
      ensures Magic(old(disk[SB_LBA])) ==>
        && disk == old(disk) && granted == old(granted)
        && directory == Bytes(disk, DIR_LBA, DIR_BYTES)
        && next == MountNext(disk) && count == UsedBelow(directory, SLOTS)
      ensures !Magic(old(disk[SB_LBA])) ==> Valid() && Thrifty() && Files(Snap()) == map[]
      ensures FsOk(old(Snap())) ==> Valid() && Snap() == old(Snap())
    {
      hide FsOk, UsedBelow, ReadU32, Frugal, Files;
      ghost var before := Snap();
      if FsOk(before) {
        Remount(before);
      }
      ready := false;
      var ok, sector := ReadSectors(SB_LBA, 1);
      OneSectorRead(disk, SB_LBA);
      superblock := sector;
      if superblock[0] != 'U' as int as Byte || superblock[1] != 'F' as int as Byte
        || superblock[2] != 'S' as int as Byte || superblock[3] != '1' as int as Byte {
        FormatFresh();
        return;
      }
      assert Magic(superblock);
      ok, directory := ReadSectors(DIR_LBA, DIR_SECTORS);
      next := ReadU32(superblock, 8);
      if next < DATA_LBA || next > DATA_END {
        next := DATA_LBA;
      }
      count := CountUsedEntries();
      ready := true;
    }

    method Find(name: seq<Byte>) returns (r: int)
      requires Valid() && 0 !in name
      ensures -1 <= r < SLOTS
      ensures r >= 0 ==> ready && Used(directory, r) && NameAt(directory, r) == name
      ensures ready && r < 0 ==> name !in Names(directory)
    {
      hide FsOk, NameAt, DiskOk;
      if !ready {
        return -1;
      }
      var i := 0;
      while i < SLOTS
        invariant 0 <= i <= SLOTS
        invariant forall j :: 0 <= j < i && Used(directory, j) ==> NameAt(directory, j) != name
      {
        if directory[i * ENTRY] != 0 {
          NameField(Snap(), i);
          var eq := StrEq(directory[i * ENTRY..i * ENTRY + NAME_MAX], name);
          if eq {
            return i;
          }
        }
        i := i + 1;
      }
      return -1;
    }

    method SetName(slot: nat, name: seq<Byte>)
      requires slot < SLOTS && |directory| == DIR_BYTES && NameOk(name)
      modifies this`directory
      ensures directory == Overlaid(old(directory), slot * ENTRY, Pad(name))
    {
      hide Overlaid;
      NoZero(name);
      ghost var was := directory;
      var o := slot * ENTRY;
      OverlaidNone(was, o);
      assert name[..0] == [];
      var i := 0;
      while i < NAME_MAX - 1 && CharAt(name, i) != 0
        invariant 0 <= i <= |name| && |directory| == DIR_BYTES
        invariant directory == Overlaid(was, o, name[..i])
      {
        OverlaidMore(was, o, name[..i], CharAt(name, i));
        assert name[..i] + [CharAt(name, i)] == name[..i + 1];
        directory := directory[o + i := CharAt(name, i)];
        i := i + 1;
      }
      assert Pad(name)[..i] == name[..i];
      while i < NAME_MAX
        invariant |name| <= i <= NAME_MAX && |directory| == DIR_BYTES
        invariant directory == Overlaid(was, o, Pad(name)[..i])
        decreases NAME_MAX - i
      {
        OverlaidMore(was, o, Pad(name)[..i], 0);
        assert Pad(name)[..i] + [0] == Pad(name)[..i + 1];
        directory := directory[o + i := 0];
        i := i + 1;
      }
      assert Pad(name)[..NAME_MAX] == Pad(name);
    }

    /** Creates an empty file in the lowest free slot; fails, changing nothing, for
        a bad or taken name or a full directory. */
    method Create(name: seq<Byte>, owner: nat) returns (r: int)
      requires Valid() && 0 !in name && owner < U32
      modifies this
      ensures Valid() && ready == old(ready) && (old(Thrifty()) ==> Thrifty())
      ensures r < 0 ==> Snap() == old(Snap())
      ensures r >= 0 <==> old(ready && NameOk(name) && name !in Names(directory) && exists i ::
        0 <= i < SLOTS && !Used(directory, i))
      ensures r >= 0 ==>
        && r < SLOTS && Files(Snap()) == old(Files(Snap()))[name := File([], owner, 0)] && HandleValid(directory, r)
        && NameAt(directory, r) == name
      ensures r >= 0 ==>
        && SlotAt(directory, r) == Slot(Pad(name), 0, 0, 0, owner, 0) && next == old(next) && |disk| == |old(disk)|
      ensures r >= 0 ==> !old(Used(directory, r)) && forall j :: 0 <= j < r ==> old(Used(directory, j))
    {
      hide FsOk, Names, Files, NameAt, DiskOk, WriteU32, ReadU32, Overlaid, SlotAt, OnlySlot, Frugal, UsedBelow, Stored,
           SameData, Pad, Str;
      if !ready {
        return -1;
      }
      if |name| == 0 || |name| >= NAME_MAX {
        return -1;
      }
      var found := Find(name);
      if found >= 0 {
        InNames(directory, found);
        return -1;
      }
      var slot := -1;
      var i := 0;
      while i < SLOTS && slot < 0
        invariant 0 <= i <= SLOTS
        invariant slot == -1 || (0 <= slot < i && !Used(directory, slot))
        invariant forall j :: 0 <= j < (if slot < 0 then i else slot) ==> Used(directory, j)
      {
        if directory[i * ENTRY] == 0 {
          slot := i;
        }
        i := i + 1;
      }
      if slot < 0 {
        return -1;
      }
      ghost var a := Snap();
      CountFits(a);
      SetName(slot, name);
      NewEntry(a.dir, slot, name, owner);
      directory := WriteU32(directory, slot * ENTRY + 20, 0);
      directory := WriteU32(directory, slot * ENTRY + 24, 0);
      directory := WriteU32(directory, slot * ENTRY + 28, 0);
      directory := WriteU32(directory, slot * ENTRY + 32, owner);
      directory := directory[slot * ENTRY + 36 := 0];
      count := count + 1;
      granted := granted[slot := 0];
      var ok := Persist();
      if !ok {
        return -1;
      }
      Created(a, Snap(), slot, name, owner);
      StrOfPad(name);
      NameAtSlot(directory, slot);
      if Frugal(a) {
        FrugalKept(a, Snap(), slot);
      }
      return slot;
    }

    method Delete(name: seq<Byte>) returns (r: int)
      requires Valid() && 0 !in name
      modifies this
      ensures Valid() && ready == old(ready) && (old(Thrifty()) ==> Thrifty())
      ensures r == 0 || (r == -1 && Snap() == old(Snap()))
      ensures r == 0 <==> old(ready && name in Files(Snap()))
      ensures r == 0 ==> Files(Snap()) == old(Files(Snap())) - {name}
    {
      hide FsOk, Names, NameAt, DiskOk, SlotAt, OnlySlot, Frugal, UsedBelow, Stored, SameData;
      if !ready {
        return -1;
      }
      var slot := Find(name);
      if slot < 0 {
        return -1;
      }
      ghost var a := Snap();
      CountFits(a);
      FileFound(a, slot);
      Cleared(directory, slot);
      directory := directory[slot * ENTRY := 0];
      count := count - 1;
      var ok := Persist();
      if !ok {
        return -1;
      }
      Deleted(a, Snap(), slot);
      if Frugal(a) {
        FrugalKept(a, Snap(), slot);
      }
      return 0;
    }

    /** Changes the size within the capacity; bytes past the old end are
        whatever the extent holds. */
    method Truncate(handle: int, size: nat) returns (r: int)
      requires Valid() && size < U32
      modifies this
      ensures Valid() && ready == old(ready) && (old(Thrifty()) ==> Thrifty())
      ensures r == 0 || (r == -1 && Snap() == old(Snap()))
      ensures r == 0 <==>
        && old(ready) && HandleValid(old(directory), handle) && size <= SlotAt(old(directory), handle).cap * SECTOR
      ensures r == 0 ==> Resized1(old(Files(Snap())), Files(Snap()), NameAt(old(directory), handle), size)
      ensures r == 0 ==> HandleValid(directory, handle) && NameAt(directory, handle) == NameAt(old(directory), handle)
      ensures r == 0 ==> next == old(next) && SlotAt(directory, handle).cap == SlotAt(old(directory), handle).cap
    {
      hide FsOk, Files, NameAt, DiskOk, WriteU32, ReadU32, SlotAt, OnlySlot, Frugal, UsedBelow, Stored, SameData,
           FileIn, Resized1, Pow2;
      if !ready || !HandleValid(directory, handle) {
        return -1;
      }
      ghost var a := Snap();
      CapFits(a, handle);
      CapField(directory, handle);
      if size > ReadU32(directory, handle * ENTRY + 28) * SECTOR % U32 {
        return -1;
      }
      SetSize(directory, handle, size);
      directory := WriteU32(directory, handle * ENTRY + 24, size);
      CountFits(a);
      var ok := Persist();
      if !ok {
        return -1;
      }
      Resized(a, Snap(), handle, size);
      ResizedFile(a, Snap(), handle, size);
      SameField(a, Snap(), handle);
      NameAtSlot(a.dir, handle);
      NameAtSlot(directory, handle);
      if Frugal(a) {
        SameField(a, Snap(), handle);
        GrantAt(a, handle);
        FrugalKept(a, Snap(), handle);
      }
      return 0;
    }

    /** Moves n sectors, eight at a time, to a place above them. */
    method CopySectors(from: nat, to: nat, n: nat) returns (ok: bool)
      requires DiskOk(disk) && from + n <= to && to + n <= |disk|
      modifies this`disk
      ensures ok && DiskOk(disk) && CopyOf(old(disk), disk, from, to, n)
    {
      hide CopyOf, Bytes, ByteAt;
      CopyNone(disk, from, to);
      var done := 0;
      while done < n
        invariant 0 <= done <= n && DiskOk(disk) && CopyOf(old(disk), disk, from, to, done)
      {
        var chunk := n - done;
        if chunk > 8 {
          chunk := 8;
        }
        var buf;
        SameSize(old(disk), disk, from, to, done);
        ok, buf := ReadSectors(from + done, chunk);
        if !ok {
          return;
        }
        ghost var d := disk;
        ok := WriteSectors(to + done, buf);
        if !ok {
          return;
        }
        CopyMore(old(disk), d, disk, from, to, done, chunk);
        done := done + chunk;
      }
      ok := true;
    }

    /** Makes room for `needed` bytes, moving the file if it must grow. Running
        out of space changes nothing. A success leaves room for `needed` bytes
        exactly when `needed` is at most 2^32 - 512. */
    method EnsureCapacity(handle: nat, needed: nat) returns (ok: bool)
      requires Valid() && ready && HandleValid(directory, handle) && needed < U32
      modifies this
      ensures Valid() && ready && HandleValid(directory, handle) && Files(Snap()) == old(Files(Snap()))
      ensures ok <==>
        || needed <= SlotAt(old(directory), handle).cap * SECTOR
        || old(next) + NewCap(SlotAt(old(directory), handle).cap, needed) <= DATA_END
      ensures !ok || needed <= SlotAt(old(directory), handle).cap * SECTOR ==> Snap() == old(Snap())
      ensures ok && needed > SlotAt(old(directory), handle).cap * SECTOR ==> Grown(old(Snap()), Snap(), handle, needed)
      ensures ok ==> (needed <= SlotAt(directory, handle).cap * SECTOR <==> needed <= LIMIT)
      ensures ok ==> SlotAt(directory, handle).size == SlotAt(old(directory), handle).size && |disk| == |old(disk)|
      ensures needed <= LIMIT && old(Thrifty()) ==> Thrifty()
      ensures NameAt(directory, handle) == NameAt(old(directory), handle)
    {
      hide FsOk, Files, NameAt, DiskOk, WriteU32, ReadU32, SlotAt, OnlySlot, Frugal, UsedBelow, Stored, SameData,
           NewCap, Pow2, Relocated, Doubled, Sectors32;
      ghost var a, e := Snap(), SlotAt(directory, handle);
      CapFits(a, handle);
      CapField(directory, handle);
      var cap := ReadU32(directory, handle * ENTRY + 28);
      if needed <= cap * SECTOR % U32 {
        return true;
      }
      NewCapFacts(cap, needed);
      var newCap := DoubleUntil(cap, needed);
      if next + newCap > DATA_END {
        return false;
      }
      CountFits(a);
      ok := Relocate(handle);
      if !ok {
        return;
      }
      ghost var d := disk;
      SetStart(directory, handle, next);
      directory := WriteU32(directory, handle * ENTRY + 20, next);
      SetCap(directory, handle, newCap);
      directory := WriteU32(directory, handle * ENTRY + 28, newCap);
      OnlySlotTwice(a.dir, handle, next, newCap);
      next := next + newCap;
      granted := granted[handle := granted[handle] + newCap];
      ok := Persist();
      RelocatedStill(a.disk, d, disk, e, a.next);
      Moved(a, Snap(), handle, newCap);
      SameField(a, Snap(), handle);
      NameAtSlot(a.dir, handle);
      NameAtSlot(directory, handle);
      assert Grown(a, Snap(), handle, needed);
      if needed <= LIMIT && Frugal(a) {
        GrownFrugal(a, Snap(), handle, needed);
      }
    }

    /** The doubling loop of ensure_capacity. */
    method DoubleUntil(cap: nat, needed: nat) returns (newCap: nat)
      ensures newCap == NewCap(cap, needed)
    {
      var sectors := (needed + SECTOR - 1) % U32 / SECTOR;
      newCap := if cap == 0 then 1 else cap;
      while newCap < sectors
        invariant newCap > 0 && Doubled(newCap, sectors) == NewCap(cap, needed)
        decreases sectors - newCap
      {
        newCap := newCap * 2;
      }
    }

    /** Copies the contents of a file to the first free sector. */
    method Relocate(handle: nat) returns (ok: bool)
      requires Valid() && ready && HandleValid(directory, handle)
      requires next + SlotAt(directory, handle).cap <= DATA_END
      modifies this`disk
      ensures ok && Shaped() && Relocated(old(disk), disk, SlotAt(directory, handle), next)
    {
      hide FsOk, ReadU32, SlotAt, Stored, Pow2, Used, ByteAt, Relocated, Bytes, CopyOf, SectorsFor, Sectors32;
      CapFits(Snap(), handle);
      CapField(directory, handle);
      WholeSectors(SlotAt(directory, handle).size, SlotAt(directory, handle).cap);
      var start := ReadU32(directory, handle * ENTRY + 20);
      var size := ReadU32(directory, handle * ENTRY + 24);
      ok := true;
      if size > 0 {
        var n := Sectors32(size);
        ghost var d := disk;
        ok := CopySectors(start, next, n);
        Copied(d, disk, SlotAt(directory, handle), next);
      } else {
        Copied(disk, disk, SlotAt(directory, handle), next);
      }
    }

    /** Copies a chunk into the sector buffer. */
    method CopyInto(sector: seq<Byte>, at: nat, src: seq<Byte>) returns (r: seq<Byte>)
      requires at + |src| <= |sector|
      ensures r == Overlaid(sector, at, src)
    {
      r := sector;
      var i := 0;
      while i < |src|
        invariant 0 <= i <= |src| && r == Overlaid(sector, at, src[..i])
      {
        r := r[at + i := src[i]];
        i := i + 1;
      }
      assert src[..i] == src;
    }

    /** The read-modify-write loop. It stops with an error at the first sector
        that is not on the disk. */
    method WriteBytes(start: nat, offset: nat, data: seq<Byte>) returns (ok: bool)
      requires DiskOk(disk)
      modifies this`disk
      ensures DiskOk(disk) && |disk| == |old(disk)|
      ensures ok <==> data == [] || start + SectorsFor(offset + |data|) <= |disk|
      ensures Wrote(old(disk), disk, start, offset, data[..Fitting(|disk|, start, offset, |data|)])
      ensures ok ==> Wrote(old(disk), disk, start, offset, data)
      ensures data == [] ==> ok && disk == old(disk)
    {
      hide Wrote, ByteAt, Bytes, Fitting;
      var cur, remaining := offset, |data|;
      WroteNothing(disk, start, offset);
      var done := 0;
      assert data[..0] == [];
      while remaining > 0
        invariant done == |data| - remaining && cur == offset + done && 0 <= remaining
        invariant done > 0 ==> start + SectorsFor(cur) <= |disk| && (remaining > 0 ==> cur % SECTOR == 0)
        invariant DiskOk(disk) && |disk| == |old(disk)| && Wrote(old(disk), disk, start, offset, data[..done])
        invariant data == [] ==> disk == old(disk)
      {
        var chunk := SECTOR - cur % SECTOR;
        if chunk > remaining {
          chunk := remaining;
        }
        var lba := start + cur / SECTOR;
        var sector;
        ok, sector := ReadSectors(lba, 1);
        LastSector(|disk|, start, offset, |data|, done, cur);
        if !ok {
          return;
        }
        OneSectorRead(disk, lba);
        sector := CopyInto(sector, cur % SECTOR, data[done..done + chunk]);
        ghost var d := disk;
        ok := WriteSectors(lba, sector);
        if !ok {
          return;
        }
        OneSectorPut(d, lba, sector);
        WroteMore(old(disk), d, disk, start, offset, data, done, cur, chunk, sector);
        ChunkEnds(cur, chunk, remaining);
        cur, remaining, done := cur + chunk, remaining - chunk, done + chunk;
      }
      assert data[..done] == data;
      AllFits(|disk|, start, offset, |data|);
      ok := true;
    }

    /** Writes into the extent of file i and updates its size. Inside the extent
        this always succeeds; outside it, a success breaks the invariant. */
    method StoreData(i: nat, offset: nat, data: seq<Byte>) returns (ok: bool)
      requires Valid() && ready && HandleValid(directory, i) && offset + |data| < U32
      requires data != [] ==> SlotAt(directory, i).cap > 0
      modifies this
      ensures Shaped() && ready && granted == old(granted)
      ensures ok <==> data == [] || SlotAt(old(directory), i).start + SectorsFor(offset + |data|) <= |old(disk)|
      ensures !ok ==> Valid() && StoredPart(old(Snap()), Snap(), i, offset, data)
      ensures next == old(next) && SlotAt(directory, i).cap == SlotAt(old(directory), i).cap
      ensures offset + |data| <= SlotAt(old(directory), i).cap * SECTOR ==>
        && ok && Valid() && (old(Thrifty()) ==> Thrifty())
        && Rewritten(old(Files(Snap())), Files(Snap()), NameAt(old(directory), i), offset, data)
        && HandleValid(directory, i) && NameAt(directory, i) == NameAt(old(directory), i)
      ensures ok && offset + |data| > SlotAt(old(directory), i).cap * SECTOR ==> !FsOk(Snap())
    {
      hide FsOk, Files, NameAt, DiskOk, WriteU32, ReadU32, SlotAt, OnlySlot, Frugal, UsedBelow, Stored, SameData, Pow2,
           Wrote, Rewritten, SectorsFor;
      ghost var a, e := Snap(), SlotAt(directory, i);
      CapFits(a, i);
      CapField(directory, i);
      CountFits(a);
      ExtentOnDisk(a, i, offset + |data|);
      var start := ReadU32(directory, i * ENTRY + 20);
      ok := WriteBytes(start, offset, data);
      if !ok {
        PartDone(a, Snap(), i, offset, data);
        return;
      }
      ghost var b := Snap();
      if offset + |data| > ReadU32(directory, i * ENTRY + 24) {
        SetSize(directory, i, offset + |data|);
        directory := WriteU32(directory, i * ENTRY + 24, offset + |data|);
        SameField(a, Snap(), i);
        ok := Persist();
        if Frugal(a) {
          GrantAt(a, i);
          FrugalKept(a, Snap(), i);
        }
      }
      FrugalSame(a, b);
      if offset + |data| <= e.cap * SECTOR {
        WriteDone(a, b, Snap(), i, offset, data);
        SameField(a, Snap(), i);
      } else {
        TooLong(Snap(), i);
      }
    }

    /** ufs_write_at. A successful write leaves a sound file system exactly when
        its end is at most 2^32 - 512 or, for an empty write, within the capacity;
        then only this file changed, by exactly these bytes. */
    method WriteAt(handle: int, offset: nat, data: seq<Byte>) returns (r: int)
      requires Valid() && offset < U32 && |data| < U32
      modifies this
      ensures Shaped() && ready == old(ready) && (r == -1 || r == |data|)
      ensures !old(Accepts(handle, offset + |data|)) ==> r == -1 && Snap() == old(Snap())
      ensures old(Accepts(handle, offset + |data|) && Sensible(handle, offset, |data|)) ==>
        && Valid() && (old(Thrifty()) ==> Thrifty())
        && (r >= 0 <==> old(HasRoom(handle, offset, |data|)))
        && (r < 0 ==> Snap() == old(Snap()))
      ensures r >= 0 <==>
        old(Accepts(handle, offset + |data|))
          && (data == [] || old(HasRoom(handle, offset, |data|) && OnDisk(handle, offset, |data|)))
      ensures r >= 0 ==> next == old(next) + old(Growth(handle, offset, |data|))
      ensures r >= 0 && (data == [] || old(offset + |data| <= SlotAt(directory, handle).cap * SECTOR)) ==>
        SlotAt(directory, handle).cap == old(SlotAt(directory, handle).cap)
      ensures r >= 0 && data != [] && old(offset + |data| > SlotAt(directory, handle).cap * SECTOR) ==>
        SlotAt(directory, handle).cap == old(NewCap(SlotAt(directory, handle).cap, offset + |data|))
      ensures r < 0 ==>
        && Valid()
        && (old(!HandleValid(directory, handle) || !HasRoom(handle, offset, |data|)) ==> Snap() == old(Snap()))
      ensures r < 0 && old(Accepts(handle, offset + |data|) && HasRoom(handle, offset, |data|)) ==>
        HalfWritten(old(Snap()), Snap(), handle, offset, data)
      ensures r >= 0 ==> (FsOk(Snap()) <==> old(Sensible(handle, offset, |data|)))
      ensures r >= 0 && FsOk(Snap()) ==>
        && HandleValid(directory, handle) && NameAt(directory, handle) == NameAt(old(directory), handle)
        && Rewritten(old(Files(Snap())), Files(Snap()), NameAt(directory, handle), offset, data)
    {
      hide FsOk, Files, NameAt, DiskOk, OnlySlot, Frugal, UsedBelow, Stored, SlotAt, NewCap, Rewritten, StoredPart;
      if !ready || !HandleValid(directory, handle) {
        return -1;
      }
      var needed := (offset + |data|) % U32;
      if needed < offset {
        return -1;
      }
      ghost var a := Snap();
      if |data| > 0 {
        var ok := EnsureCapacity(handle, needed);
        if !ok {
          return -1;
        }
        HasCapacity(a, Snap(), handle, needed);
      }
      ghost var g := Snap();
      var ok := StoreData(handle, offset, data);
      if !ok {
        assert GrewFor(a, g, handle, needed) && StoredPart(g, Snap(), handle, offset, data);
        return -1;
      }
      return |data|;
    }

    /** The checks ufs_write_at makes first. */
    predicate Accepts(handle: int, end: nat)
      requires |directory| == DIR_BYTES
      reads this
    {
      ready && HandleValid(directory, handle) && end < U32
    }

    /** A caller can tell beforehand whether a write keeps the file system sound. */
    predicate Sensible(handle: int, offset: nat, len: nat)
      requires |directory| == DIR_BYTES
      reads this
    {
      HandleValid(directory, handle) && if len == 0 then offset <= SlotAt(directory, handle).cap * SECTOR
        else offset + len <= LIMIT
    }

    /** The disk reaches to the end of the write, in the extent the file has by then. */
    predicate OnDisk(handle: int, offset: nat, len: nat)
      requires |directory| == DIR_BYTES && HandleValid(directory, handle)
      reads this
    {
      var e := SlotAt(directory, handle);
      (if offset + len <= e.cap * SECTOR then e.start else next) + SectorsFor(offset + len) <= |disk|
    }

    /** The sectors that a write takes from the free ones. */
    function Growth(handle: int, offset: nat, len: nat): nat
      requires |directory| == DIR_BYTES && HandleValid(directory, handle)
      reads this
    {
      var cap := SlotAt(directory, handle).cap;
      if len == 0 || offset + len <= cap * SECTOR then 0 else NewCap(cap, offset + len)
    }

    predicate HasRoom(handle: int, offset: nat, len: nat)
      requires |directory| == DIR_BYTES
      reads this
    {
      && HandleValid(directory, handle)
      && (len == 0 || offset + len <= SlotAt(directory, handle).cap * SECTOR
          || next + NewCap(SlotAt(directory, handle).cap, offset + len) <= DATA_END)
    }

    method ReadBytes(start: nat, offset: nat, len: nat) returns (ok: bool, data: seq<Byte>)
      requires DiskOk(disk)
      ensures len == 0 || start + SectorsFor(offset + len) <= |disk| ==> ok
      ensures ok ==> |data| == len && forall k :: 0 <= k < len ==> data[k] == ByteAt(disk, start, offset + k)
    {
      data := [];
      var cur, remaining := offset, len;
      while remaining > 0
        invariant 0 <= remaining <= len && cur == offset + (len - remaining) && |data| == len - remaining
        invariant forall k :: 0 <= k < |data| ==> data[k] == ByteAt(disk, start, offset + k)
      {
        var chunk := SECTOR - cur % SECTOR;
        if chunk > remaining {
          chunk := remaining;
        }
        var sector;
        ok, sector := ReadSectors(start + cur / SECTOR, 1);
        if !ok {
          return;
        }
        OneSectorRead(disk, start + cur / SECTOR);
        var i := 0;
        while i < chunk
          invariant 0 <= i <= chunk && |data| == len - remaining + i
          invariant forall k :: 0 <= k < |data| ==> data[k] == ByteAt(disk, start, offset + k)
        {
          InSector(disk, start, cur, i);
          data := data + [sector[cur % SECTOR + i]];
          i := i + 1;
        }
        cur, remaining := cur + chunk, remaining - chunk;
      }
      ok := true;
    }

    /** ufs_read_at: the bytes of the file from `offset`, as many as there are. */
    method ReadAt(handle: int, offset: nat, len: nat) returns (r: int, data: seq<Byte>)
      requires Valid()
      ensures r < 0 <==> !ready || !HandleValid(directory, handle)
      ensures r >= 0 ==>
        && r == |data| && NameAt(directory, handle) in Files(Snap())
        && var bytes := Files(Snap())[NameAt(directory, handle)].bytes;
           data == if offset >= |bytes| then []
             else bytes[offset..if offset + len <= |bytes| then offset + len else |bytes|]
    {
      hide FsOk, Files, NameAt, ReadU32, SlotAt, Pow2, ByteAt, SectorsFor;
      if !ready || !HandleValid(directory, handle) {
        return -1, [];
      }
      FileFound(Snap(), handle);
      CapFits(Snap(), handle);
      CapField(directory, handle);
      var size := ReadU32(directory, handle * ENTRY + 24);
      if offset >= size {
        return 0, [];
      }
      var available := size - offset;
      var n := len;
      if n > available {
        n := available;
      }
      var start := ReadU32(directory, handle * ENTRY + 20);
      ExtentOnDisk(Snap(), handle, offset + n);
      var ok;
      ok, data := ReadBytes(start, offset, n);
      return n, data;
    }

    /** What was written is there after the machine restarts: the file system is
        mounted again from the disk alone and the same range is read back. */
    method WriteRebootRead(handle: int, offset: nat, data: seq<Byte>) returns (w: int, r: int, back: seq<Byte>)
      requires Valid() && offset < U32 && |data| < U32
      requires Sensible(handle, offset, |data|)
      modifies this
      ensures w >= 0 <==> old(ready && HasRoom(handle, offset, |data|))
      ensures w >= 0 ==> Valid() && ready && r == |data| && back == data
      ensures w >= 0 ==> Rewritten(old(Files(Snap())), Files(Snap()), NameAt(directory, handle), offset, data)
    {
      hide FsOk, NameAt, Magic, Files, Rewritten, Bytes, ReadU32, UsedBelow, MountNext, SlotAt, NewCap, HalfWritten;
      r, back := -1, [];
      w := WriteAt(handle, offset, data);
      if w >= 0 {
        Init();
        FileFound(Snap(), handle);
        r, back := ReadAt(handle, offset, |data|);
        ReadsBack(old(Files(Snap())), Files(Snap()), NameAt(directory, handle), offset, data, back);
      }
    }
  }

  lemma InNames(dir: seq<Byte>, i: nat)
    requires |dir| == DIR_BYTES && i < SLOTS && Used(dir, i)
    ensures NameAt(dir, i) in Names(dir)
  {
  }

  lemma NameAtSlot(dir: seq<Byte>, i: nat)
    requires |dir| == DIR_BYTES && i < SLOTS
    ensures NameAt(dir, i) == Str(SlotAt(dir, i).raw)
    ensures SlotAt(dir, i).raw != [] && dir[i * ENTRY] == SlotAt(dir, i).raw[0]
  {
  }

  lemma CapField(dir: seq<Byte>, i: nat)
    requires |dir| == DIR_BYTES && i < SLOTS
    ensures ReadU32(dir, i * ENTRY + 20) == SlotAt(dir, i).start
    ensures ReadU32(dir, i * ENTRY + 24) == SlotAt(dir, i).size
    ensures ReadU32(dir, i * ENTRY + 28) == SlotAt(dir, i).cap
  {
  }

  lemma GrantAt(fs: Fs, i: nat)
    requires |fs.dir| == DIR_BYTES && |fs.granted| == SLOTS && Frugal(fs) && i < SLOTS && Used(fs.dir, i)
    ensures GrantOk(fs.granted[i], SlotAt(fs.dir, i).cap)
  {
  }

  lemma CountFits(fs: Fs)
    requires FsOk(fs)
    ensures fs.count <= SLOTS && |fs.granted| == SLOTS && |fs.dir| == DIR_BYTES && Stored(fs)
    ensures forall i :: 0 <= i < SLOTS && Used(fs.dir, i) ==> fs.count > 0
  {
    forall i | 0 <= i < SLOTS && Used(fs.dir, i)
      ensures fs.count > 0
    {
      SomeUsed(fs.dir, i, SLOTS);
    }
  }

  lemma {:induction false} SomeUsed(dir: seq<Byte>, i: nat, n: nat)
    requires |dir| == DIR_BYTES && i < n <= SLOTS && Used(dir, i)
    ensures UsedBelow(dir, n) > 0
  {
    if i < n - 1 {
      SomeUsed(dir, i, n - 1);
    }
  }

  /** Only file `name` changed: its size, keeping what it had below both sizes. */
  ghost predicate Resized1(was: map<seq<Byte>, File>, now: map<seq<Byte>, File>, name: seq<Byte>, size: nat) {
    && name in was && name in now && now == was[name := now[name]]
    && now[name].owner == was[name].owner && now[name].perm == was[name].perm && |now[name].bytes| == size
    && forall k :: 0 <= k < size && k < |was[name].bytes| ==> now[name].bytes[k] == was[name].bytes[k]
  }

  lemma ResizedFile(a: Fs, b: Fs, i: nat, n: nat)
    requires |a.dir| == |b.dir| == DIR_BYTES && i < SLOTS && FsOk(a) && Used(a.dir, i)
    requires SlotAt(b.dir, i) == SlotAt(a.dir, i).(size := n) && SameData(a.disk, b.disk)
      && n <= SlotAt(a.dir, i).cap * SECTOR
    requires Files(b) == Files(a)[NameAt(a.dir, i) := FileIn(b.disk, SlotAt(b.dir, i))]
    ensures Resized1(Files(a), Files(b), NameAt(a.dir, i), n)
  {
    hide FsOk, SlotAt, Files, NameAt;
    FileFound(a, i);
    CapFits(a, i);
    var e := SlotAt(a.dir, i);
    forall k: nat | k < n
      ensures ByteAt(b.disk, e.start, k) == ByteAt(a.disk, e.start, k)
    {
    }
  }

  lemma OneSectorPut(d: Disk, lba: nat, buf: seq<Byte>)
    requires DiskOk(d) && lba < |d| && |buf| == SECTOR
    ensures Put(d, lba, buf) == d[lba := buf]
  {
    OneSector(d, lba, buf);
  }

  lemma WroteNothing(d: Disk, start: nat, offset: nat)
    ensures Wrote(d, d, start, offset, [])
  {
  }

  lemma OnlySlotTwice(dir: seq<Byte>, i: nat, start: nat, cap: nat)
    requires |dir| == DIR_BYTES && i < SLOTS && start < U32 && cap < U32
    ensures OnlySlot(dir, WriteU32(WriteU32(dir, i * ENTRY + 20, start), i * ENTRY + 28, cap), i)
  {
  }

  lemma RelocatedStill(a: Disk, b: Disk, c: Disk, e: Slot, to: nat)
    requires Relocated(a, b, e, to) && SameData(b, c) && DATA_LBA <= to
    ensures Relocated(a, c, e, to)
  {
    forall k: nat
      ensures ByteAt(c, to, k) == ByteAt(b, to, k)
    {
    }
  }

  lemma ExtentOnDisk(fs: Fs, i: nat, n: nat)
    requires FsOk(fs) && i < SLOTS && Used(fs.dir, i)
    ensures 0 < n <= SlotAt(fs.dir, i).cap * SECTOR ==> SlotAt(fs.dir, i).start + SectorsFor(n) <= |fs.disk|
  {
    CapFits(fs, i);
  }

  lemma TooLong(fs: Fs, i: nat)
    requires |fs.dir| == DIR_BYTES && i < SLOTS && Used(fs.dir, i)
      && SlotAt(fs.dir, i).size > SlotAt(fs.dir, i).cap * SECTOR
    ensures !FsOk(fs)
  {
    if FsOk(fs) {
      CapFits(fs, i);
    }
  }

  lemma InSector(d: Disk, start: nat, cur: nat, i: nat)
    requires DiskOk(d) && start + cur / SECTOR < |d| && cur % SECTOR + i < SECTOR
    ensures ByteAt(d, start, cur + i) == d[start + cur / SECTOR][cur % SECTOR + i]
  {
    assert (cur + i) / SECTOR == cur / SECTOR;
  }

  /** str_eq: compares the C string in a field with a name. */
  method StrEq(raw: seq<Byte>, name: seq<Byte>) returns (eq: bool)
    requires 0 in raw && 0 !in name
    ensures eq <==> Str(raw) == name
  {
    ghost var s := Str(raw);
    Terminated(raw);
    NoZero(s);
    NoZero(name);
    var i := 0;
    while raw[i] != 0 || CharAt(name, i) != 0
      invariant i <= |s| && i <= |name| && s[..i] == name[..i]
      decreases |s| - i
    {
      assert i < |s| ==> s[i] == raw[i];
      if raw[i] != CharAt(name, i) {
        return false;
      }
      assert i < |s|;
      i := i + 1;
    }
    eq := true;
  }

  lemma DiskFits(d: Disk)
    requires DiskOk(d)
    ensures |d| >= DATA_END
  {
  }

  lemma SuperHead(sb: seq<Byte>, count: nat, next: nat)
    requires |sb| == SECTOR && count < U32 && next < U32
    ensures
      var b := WriteU32(WriteU32(sb[0 := 'U' as int as Byte][1 := 'F' as int as Byte]
                                   [2 := 'S' as int as Byte][3 := '1' as int as Byte], 4, count), 8, next);
      forall k :: 0 <= k < 12 ==> b[k] == Super(count, next)[k]
    ensures forall k :: 12 <= k < SECTOR ==> Super(count, next)[k] == 0
  {
  }

  lemma NoZero(s: seq<Byte>)
    requires 0 !in s
    ensures forall k :: 0 <= k < |s| ==> s[k] != 0
  {
    assert forall k :: 0 <= k < |s| ==> s[k] in s;
  }

  lemma NameField(fs: Fs, i: nat)
    requires FsOk(fs) && i < SLOTS && Used(fs.dir, i)
    ensures |fs.dir| == DIR_BYTES && 0 in fs.dir[i * ENTRY..i * ENTRY + NAME_MAX]
    ensures NameAt(fs.dir, i) == Str(fs.dir[i * ENTRY..i * ENTRY + NAME_MAX])
  {
    var raw := SlotAt(fs.dir, i).raw;
    assert SlotOk(SlotAt(fs.dir, i), fs.next);
    assert raw[NAME_MAX - 1] == Pad(Str(raw))[NAME_MAX - 1] == 0;
  }

  lemma OneSector(d: Disk, lba: nat, buf: seq<Byte>)
    requires DiskOk(d) && lba < |d| && |buf| == SECTOR
    ensures Put(d, lba, buf)[lba] == buf
  {
    assert buf[0..SECTOR] == buf;
  }

  lemma OneSectorRead(d: Disk, lba: nat)
    requires DiskOk(d) && lba < |d|
    ensures Bytes(d, lba, SECTOR) == d[lba]
  {
  }

  lemma {:induction false} NoneUsed(dir: seq<Byte>, n: nat)
    requires |dir| == DIR_BYTES && n <= SLOTS && forall k :: 0 <= k < DIR_BYTES ==> dir[k] == 0
    ensures UsedBelow(dir, n) == 0
  {
    if n > 0 {
      NoneUsed(dir, n - 1);
    }
  }

  /** A field that holds a zero byte holds a whole C string. */
  lemma {:induction false} Terminated(raw: seq<Byte>)
    requires 0 in raw
    ensures |Str(raw)| < |raw|
  {
    if raw[0] != 0 {
      Terminated(raw[1..]);
    }
  }

  // ---------------------------------------------------------------------------
  // The two writes that a caller should not make

  /** An empty write past the capacity succeeds and leaves a size that the extent
      does not hold. */
  method EmptyWriteBreaks(disk: Disk) returns (fs: FileSystem, w: int)
    requires DiskOk(disk)
    ensures w == 0 && fs.ready && !FsOk(fs.Snap())
  {
    hide FsOk, Files, Frugal;
    var handle;
    fs, handle := FreshFile(disk);
    w := fs.WriteAt(handle, 1, []);
  }

  /** A write that ends one byte above the limit gets one sector of room; it
      succeeds on a disk of more than 4 GiB, far past that sector, and stops
      half way on a smaller one. */
  method LargeWriteBreaks(disk: Disk) returns (fs: FileSystem, w: int)
    requires DiskOk(disk)
    ensures w >= 0 <==> DATA_LBA + 0x80_0000 <= |disk|
    ensures fs.ready && (w >= 0 <==> !FsOk(fs.Snap()))
  {
    hide FsOk, Files, Frugal;
    var handle;
    fs, handle := FreshFile(disk);
    assert fs.Snap().next == DATA_LBA;
    assert NewCap(0, LIMIT + 1) == 1;
    assert SectorsFor(LIMIT + 1) == 0x80_0000;
    w := fs.WriteAt(handle, LIMIT, [1]);
  }

  /** A freshly formatted disk with one empty file. */
  method FreshFile(disk: Disk) returns (fs: FileSystem, handle: nat)
    requires DiskOk(disk)
    ensures fresh(fs) && fs.Valid() && fs.ready && |fs.disk| == |disk| && fs.next == DATA_LBA
    ensures HandleValid(fs.directory, handle) && SlotAt(fs.directory, handle).cap == 0
  {
    hide Files, Frugal, SlotAt, Used;
    fs := new FileSystem(disk);
    fs.FormatFresh();
    EmptyDirectory(fs.directory);
    var r := fs.Create(['a' as int as Byte], 0);
    handle := r;
  }

  lemma EmptyDirectory(dir: seq<Byte>)
    requires |dir| == DIR_BYTES && forall i :: 0 <= i < SLOTS ==> !Used(dir, i)
    ensures Names(dir) == {} && !Used(dir, 0)
  {
  }
}
