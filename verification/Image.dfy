/** The read-only file system: mkdisk.py writes it into the system image, and
    kernel/core/fs.c mounts and reads it. */
module Image {
  import opened Base
  import U = Ufs

  const BASE_LBA: nat := 2048
  const FIRST_LBA: nat := 2064
  const MAX_ENTRIES: nat := 16
  const DIRENT: nat := 32

  datatype Item = Item(name: seq<Byte>, data: seq<Byte>)

  function Zeros(n: nat): (z: seq<Byte>)
    ensures |z| == n
  {
    seq(n, _ => 0)
  }

  /** Data filled up with zeros to whole sectors. */
  function Whole(data: seq<Byte>): (r: seq<Byte>)
    ensures |r| == SectorsFor(|data|) * SECTOR && r[..|data|] == data
  {
    data + Zeros(SectorsFor(|data|) * SECTOR - |data|)
  }

  function Blobs(items: seq<Item>): seq<Byte> {
    if items == [] then [] else Blobs(items[..|items| - 1]) + Whole(items[|items| - 1].data)
  }

  function SectorsOf(items: seq<Item>): nat {
    if items == [] then 0 else SectorsOf(items[..|items| - 1]) + SectorsFor(|items[|items| - 1].data|)
  }

  /** First sector of item i. */
  function StartOf(items: seq<Item>, i: nat): nat
    requires i <= |items|
  {
    FIRST_LBA + SectorsOf(items[..i])
  }

  lemma {:induction false} BlobsSize(items: seq<Item>)
    ensures |Blobs(items)| == SectorsOf(items) * SECTOR
  {
    if items != [] {
      BlobsSize(items[..|items| - 1]);
    }
  }

  /** Item i stands at its start in the blobs of all items. */
  lemma {:induction false} BlobAt(items: seq<Item>, i: nat)
    requires i < |items|
    ensures SectorsOf(items[..i]) + SectorsFor(|items[i].data|) <= SectorsOf(items)
    ensures |Blobs(items)| == SectorsOf(items) * SECTOR
    ensures var s := SectorsOf(items[..i]) * SECTOR;
      s + SectorsFor(|items[i].data|) * SECTOR <= |Blobs(items)|
      && Blobs(items)[s..s + SectorsFor(|items[i].data|) * SECTOR] == Whole(items[i].data)
    decreases |items|
  {
    hide Blobs, SectorsOf, Whole;
    var most := items[..|items| - 1];
    var last := items[|items| - 1].data;
    BlobsSize(most);
    BlobsSize(items);
    LastBlob(items);
    if i < |items| - 1 {
      BlobAt(most, i);
      assert most[..i] == items[..i];
      var s := SectorsOf(items[..i]) * SECTOR;
      PartBefore(Blobs(most), Whole(last), s, s + SectorsFor(|items[i].data|) * SECTOR);
    } else {
      PartBehind(Blobs(most), Whole(last));
    }
  }

  lemma LastBlob(items: seq<Item>)
    requires items != []
    ensures var most, last := items[..|items| - 1], items[|items| - 1].data;
      Blobs(items) == Blobs(most) + Whole(last) && SectorsOf(items) == SectorsOf(most) + SectorsFor(|last|)
  {
  }

  lemma PartBefore(a: seq<Byte>, b: seq<Byte>, i: nat, j: nat)
    requires i <= j <= |a|
    ensures (a + b)[i..j] == a[i..j]
  {
  }

  lemma PartBehind(a: seq<Byte>, b: seq<Byte>)
    ensures (a + b)[|a|..|a| + |b|] == b
  {
  }

  // ---------------------------------------------------------------------------
  // The writer

  function Super(count: nat): (r: seq<Byte>)
    requires count < U32
    ensures |r| == SECTOR
  {
    U.WriteU32(['M' as int as Byte, 'F' as int as Byte, 'S' as int as Byte, '1' as int as Byte] + Zeros(SECTOR - 4), 4,
      count)
  }

  function Entry(name: seq<Byte>, start: nat, size: nat): (r: seq<Byte>)
    requires |name| <= U.NAME_MAX && start < U32 && size < U32
    ensures |r| == DIRENT
  {
    U.WriteU32(U.WriteU32(U.Pad(name) + Zeros(12), 20, start), 24, size)
  }

  lemma EntryFields(name: seq<Byte>, start: nat, size: nat)
    requires |name| <= U.NAME_MAX && start < U32 && size < U32
    ensures var e := Entry(name, start, size);
      e[..20] == U.Pad(name) && U.ReadU32(e, 20) == start && U.ReadU32(e, 24) == size
  {
    var z := U.Pad(name) + Zeros(12);
    U.WordRoundTrip(z, 20, start);
    U.WordRoundTrip(U.WriteU32(z, 20, start), 24, size);
    assert z[..20] == U.Pad(name);
  }

  /** The superblock byte by byte: magic, file count at byte 4, the rest zero. */
  lemma SuperBytes(count: nat)
    requires count < U32
    ensures var b := Super(count);
      && b[0] == 0x4D && b[1] == 0x46 && b[2] == 0x53 && b[3] == 0x31
      && b[4] as int == count % 256 && b[5] as int == count / 256 % 256
      && b[6] as int == count / 65536 % 256 && b[7] as int == count / 16777216
      && forall k :: 8 <= k < 512 ==> b[k] == 0
  {
    hide U.WriteU32;
    var z := ['M' as int as Byte, 'F' as int as Byte, 'S' as int as Byte, '1' as int as Byte] + Zeros(SECTOR - 4);
    U.WordBytes(z, 4, count);
  }

  /** A directory entry byte by byte: 32 bytes, the name from 0 with zeros up to
      20, first sector at 20 and size at 24, the rest zero. */
  lemma EntryBytes(name: seq<Byte>, start: nat, size: nat)
    requires |name| <= 20 && start < U32 && size < U32
    ensures var b := Entry(name, start, size);
      && |b| == 32 && b[..|name|] == name && (forall k :: |name| <= k < 20 ==> b[k] == 0)
      && U.WordHere(b, 20, start) && U.WordHere(b, 24, size)
      && forall k :: 28 <= k < 32 ==> b[k] == 0
  {
    hide U.WriteU32, U.ReadU32;
    var z := U.Pad(name) + Zeros(12);
    U.WordBytes(z, 20, start);
    U.WordBytes(U.WriteU32(z, 20, start), 24, size);
    assert z[..|name|] == name;
  }

  /** The items fit the format. */
  predicate Fits(items: seq<Item>) {
    && |items| <= MAX_ENTRIES && FIRST_LBA + SectorsOf(items) < U32
    && forall i :: 0 <= i < |items| ==> |items[i].name| < U.NAME_MAX && |items[i].data| < U32
  }

  lemma {:induction false} StartFits(items: seq<Item>, i: nat)
    requires i <= |items|
    ensures SectorsOf(items[..i]) <= SectorsOf(items)
    decreases |items| - i
  {
    if i < |items| {
      StartFits(items, i + 1);
      assert items[..i + 1][..i] == items[..i];
    } else {
      assert items[..i] == items;
    }
  }

  function Directory(items: seq<Item>, n: nat): (d: seq<Byte>)
    requires Fits(items) && n <= |items|
    ensures |d| == SECTOR
  {
    if n == 0 then Zeros(SECTOR) else
    StartFits(items, n - 1);
    U.Overlaid(Directory(items, n - 1), (n - 1) * DIRENT,
      Entry(items[n - 1].name, StartOf(items, n - 1), |items[n - 1].data|))
  }

  lemma {:induction false} DirectoryAt(items: seq<Item>, n: nat, i: nat)
    requires Fits(items) && i < n <= |items|
    ensures StartOf(items, i) < U32
    ensures Directory(items, n)[i * DIRENT..i * DIRENT + DIRENT] == Entry(items[i].name, StartOf(items, i),
      |items[i].data|)
    decreases n
  {
    StartFits(items, i);
    StartFits(items, n - 1);
    var d := Directory(items, n - 1);
    var e := Entry(items[n - 1].name, StartOf(items, n - 1), |items[n - 1].data|);
    if i < n - 1 {
      DirectoryAt(items, n - 1, i);
      assert U.Overlaid(d, (n - 1) * DIRENT, e)[i * DIRENT..i * DIRENT + DIRENT] == d[i * DIRENT..i * DIRENT + DIRENT];
    }
  }

  /** The image, when boot sector and kernel fit below the file system. */
  function ImageOf(system: seq<Byte>, items: seq<Item>): seq<Byte>
    requires Fits(items) && |system| <= BASE_LBA * SECTOR
  {
    var head := system + Zeros(BASE_LBA * SECTOR - |system|) + Super(|items|) + Directory(items, |items|);
    if items == [] then head else head + Zeros(14 * SECTOR) + Blobs(items)
  }

  /** build of mkdisk.py: refuses too many files and long names. */
  method Build(system: seq<Byte>, items: seq<Item>) returns (ok: bool, img: seq<Byte>)
    requires FIRST_LBA + SectorsOf(items) < U32 && forall i :: 0 <= i < |items| ==> |items[i].data| < U32
    ensures ok <==> Fits(items)
    ensures ok && |system| <= BASE_LBA * SECTOR ==> img == ImageOf(system, items)
  {
    img := system;
    if |img| < BASE_LBA * SECTOR {
      img := img + Zeros(BASE_LBA * SECTOR - |img|);
    }
    if |items| > MAX_ENTRIES {
      return false, [];
    }
    var directory;
    ok, directory := MakeDirectory(items);
    if !ok {
      return false, [];
    }
    img := img + Super(|items|) + directory;
    img := AddBlobs(img, items);
  }

  method MakeDirectory(items: seq<Item>) returns (ok: bool, directory: seq<Byte>)
    requires FIRST_LBA + SectorsOf(items) < U32 && forall i :: 0 <= i < |items| ==> |items[i].data| < U32
    requires |items| <= MAX_ENTRIES
    ensures ok <==> Fits(items)
    ensures ok ==> directory == Directory(items, |items|)
  {
    hide Entry, U.Overlaid, SectorsOf;
    directory := Zeros(SECTOR);
    var start := FIRST_LBA;
    var i := 0;
    SectorsNone(items);
    while i < |items|
      invariant 0 <= i <= |items| && forall k :: 0 <= k < i ==> |items[k].name| < U.NAME_MAX
      invariant start == StartOf(items, i) && |directory| == SECTOR
      invariant Fits(items) ==> directory == Directory(items, i)
    {
      if |items[i].name| >= 20 {
        return false, [];
      }
      StartFits(items, i);
      SectorsMore(items, i);
      directory := U.Overlaid(directory, i * DIRENT, Entry(items[i].name, start, |items[i].data|));
      start := start + SectorsFor(|items[i].data|);
      i := i + 1;
    }
    ok := true;
  }

  lemma SectorsNone(items: seq<Item>)
    ensures SectorsOf(items[..0]) == 0
  {
  }

  lemma SectorsMore(items: seq<Item>, i: nat)
    requires i < |items|
    ensures SectorsOf(items[..i + 1]) == SectorsOf(items[..i]) + SectorsFor(|items[i].data|)
  {
    assert items[..i + 1][..i] == items[..i];
  }

  /** The image after i files. */
  ghost predicate Placed(head: seq<Byte>, items: seq<Item>, i: nat, img: seq<Byte>)
    requires i <= |items|
  {
    |head| == (BASE_LBA + 2) * SECTOR ==> img == if i == 0 then head else head + Zeros(14 * SECTOR) + Blobs(items[..i])
  }

  lemma PlacedStart(head: seq<Byte>, items: seq<Item>)
    ensures Placed(head, items, 0, head) && items[..0] == [] && items[..|items|] == items
  {
  }

  lemma PlacedNext(head: seq<Byte>, items: seq<Item>, i: nat, img: seq<Byte>, padded: seq<Byte>, img': seq<Byte>)
    requires i < |items| && Placed(head, items, i, img)
    requires var current, target := |img| / SECTOR, FIRST_LBA + SectorsOf(items[..i]);
      padded == img + if current < target then Zeros((target - current) * SECTOR) else []
    requires |padded| % SECTOR == 0 ==> img' == padded + Whole(items[i].data)
    ensures Placed(head, items, i + 1, img')
  {
    BlobsSize(items[..i]);
    assert items[..i + 1][..i] == items[..i];
    assert i == 0 ==> items[..i] == [];
    if |head| == (BASE_LBA + 2) * SECTOR {
      assert padded == head + Zeros(14 * SECTOR) + Blobs(items[..i]);
      assert |padded| % SECTOR == 0;
    }
  }

  /** The second loop: every file at its sector, filled up with zeros. */
  method AddBlobs(head: seq<Byte>, items: seq<Item>) returns (img: seq<Byte>)
    ensures Placed(head, items, |items|, img) && items[..|items|] == items
  {
    hide Placed, Blobs, SectorsOf, Whole;
    PlacedStart(head, items);
    img := head;
    var i := 0;
    while i < |items|
      invariant 0 <= i <= |items| && Placed(head, items, i, img)
    {
      var current := |img| / SECTOR;
      var target := FIRST_LBA + SectorsOf(items[..i]);
      ghost var before := img;
      if current < target {
        img := img + Zeros((target - current) * SECTOR);
      }
      assert img == before + if current < target then Zeros((target - current) * SECTOR) else [];
      ghost var padded := img;
      img := img + items[i].data;
      var remainder := |img| % SECTOR;
      if remainder != 0 {
        img := img + Zeros(SECTOR - remainder);
      }
      assert img == padded + items[i].data + if remainder != 0 then Zeros(SECTOR - remainder) else [];
      FilledUp(padded, items[i].data, img);
      PlacedNext(head, items, i, before, padded, img);
      i := i + 1;
    }
  }

  lemma FilledUp(before: seq<Byte>, data: seq<Byte>, img: seq<Byte>)
    requires var r := (|before| + |data|) % SECTOR; img == before + data + if r != 0 then Zeros(SECTOR - r) else []
    ensures |before| % SECTOR == 0 ==> img == before + Whole(data)
  {
    if |before| % SECTOR == 0 {
      assert (|before| + |data|) % SECTOR == |data| % SECTOR;
    }
  }

  // ---------------------------------------------------------------------------
  // The reader

  /** Sectors read from the image, if they are there. */
  function SectorsAt(img: seq<Byte>, lba: nat, n: nat): (r: seq<Byte>)
    requires (lba + n) * SECTOR <= |img|
    ensures |r| == n * SECTOR
  {
    img[lba * SECTOR..(lba + n) * SECTOR]
  }

  datatype Dirent = Dirent(raw: seq<Byte>, start: nat, size: nat)

  lemma SectorsJoin(img: seq<Byte>, lba: nat, n: nat, more: nat)
    requires (lba + n) * SECTOR <= |img| || n == 0
    ensures (lba + n + more) * SECTOR <= |img| ==>
      SectorsAt(img, lba, n + more) == (if n == 0 then [] else SectorsAt(img, lba, n)) + SectorsAt(img, lba + n, more)
  {
  }

  class Reader {
    const img: seq<Byte>
    var ready: bool
    var count: nat
    var directory: seq<Byte>

    constructor (img: seq<Byte>)
      ensures this.img == img && !ready && |directory| == SECTOR
    {
      this.img := img;
      ready, count, directory := false, 0, Zeros(SECTOR);
    }

    /** ata_read_sectors on the image. */
    method ReadSectors(lba: nat, n: nat) returns (ok: bool, buf: seq<Byte>)
      ensures ok <==> 1 <= n <= 256 && (lba + n) * SECTOR <= |img|
      ensures ok ==> buf == SectorsAt(img, lba, n)
    {
      ok := 1 <= n <= 256 && (lba + n) * SECTOR <= |img|;
      buf := if ok then SectorsAt(img, lba, n) else [];
    }

    /** fs_init. */
    method Init()
      requires |directory| == SECTOR
      modifies this
      ensures |directory| == SECTOR && count <= MAX_ENTRIES
      ensures ready <==>
        && (BASE_LBA + 2) * SECTOR <= |img|
        && SectorsAt(img, BASE_LBA, 1)[..4] == ['M' as int as Byte, 'F' as int as Byte, 'S' as int as Byte,
          '1' as int as Byte]
      ensures forall system, items :: Fits(items) && |system| <= BASE_LBA * SECTOR && ImageOf(system, items) <= img ==>
        ready && count == |items| && directory == Directory(items, |items|)
    {
      hide ImageOf, Directory, Super, SectorsAt, U.ReadU32;
      ready, count := false, 0;
      Mounts(img);
      var ok, sector := ReadSectors(BASE_LBA, 1);
      if !ok {
        return;
      }
      if sector[0] != 'M' as int as Byte || sector[1] != 'F' as int as Byte || sector[2] != 'S' as int as Byte
        || sector[3] != '1' as int as Byte {
        return;
      }
      var read;
      ok, read := ReadSectors(BASE_LBA + 1, 1);
      if !ok {
        return;
      }
      directory := read;
      count := U.ReadU32(sector, 4);
      if count > MAX_ENTRIES {
        count := MAX_ENTRIES;
      }
      ready := true;
    }

    /** fs_entry. */
    method GetEntry(i: nat) returns (found: bool, e: Dirent)
      requires |directory| == SECTOR && count <= MAX_ENTRIES
      ensures found <==> ready && i < count
      ensures found ==> e == DirentAt(directory, i)
    {
      e := Dirent([], 0, 0);
      if !ready || i >= count {
        return false, e;
      }
      var o := i * DIRENT;
      e := Dirent(directory[o..o + U.NAME_MAX], U.ReadU32(directory, o + 20), U.ReadU32(directory, o + 24));
      return true, e;
    }

    /** fs_find, on a directory whose names end. */
    method Find(name: seq<Byte>) returns (found: bool, e: Dirent)
      requires |directory| == SECTOR && count <= MAX_ENTRIES && 0 !in name
      requires ready ==> forall i :: 0 <= i < count ==> 0 in DirentAt(directory, i).raw
      ensures found ==> exists i :: 0 <= i < count && e == DirentAt(directory, i) && U.Str(e.raw) == name
      ensures !found && ready ==> forall i :: 0 <= i < count ==> U.Str(DirentAt(directory, i).raw) != name
    {
      hide U.Str, U.ReadU32;
      var i := 0;
      e := Dirent([], 0, 0);
      var n := if ready then count else 0;
      while i < n
        invariant 0 <= i <= n
        invariant forall j :: 0 <= j < i ==> U.Str(DirentAt(directory, j).raw) != name
      {
        found, e := GetEntry(i);
        var eq := U.StrEq(e.raw, name);
        if eq {
          return true, e;
        }
        i := i + 1;
      }
      return false, e;
    }

    /** fs_read_file, into a buffer of whole sectors. */
    method ReadFile(e: Dirent) returns (ok: bool, buf: seq<Byte>)
      requires e.size < U32
      ensures var n := Sectors32(e.size); ok <==> (e.start + n) * SECTOR <= |img|
      ensures ok ==> buf == SectorsAt(img, e.start, Sectors32(e.size))
    {
      hide SectorsAt;
      var sectors := (e.size + 511) % U32 / 512;
      if sectors == 0 {
        sectors := 1;
      }
      ghost var n := sectors;
      buf := [];
      while sectors > 0
        invariant 0 <= sectors <= n && |buf| == (n - sectors) * SECTOR
        invariant (e.start + (n - sectors)) * SECTOR <= |img| || sectors == n
        invariant sectors < n ==> buf == SectorsAt(img, e.start, n - sectors)
      {
        var chunk := if sectors > 256 then 256 else sectors;
        var part;
        ok, part := ReadSectors(e.start + |buf| / 512, chunk);
        if !ok {
          return;
        }
        SectorsJoin(img, e.start, n - sectors, chunk);
        buf := buf + part;
        sectors := sectors - chunk;
      }
      ok := true;
    }

    /** The round trip: each file of an image is found by its name, with its exact
        size, and reads back as its bytes, whatever follows on the disk. An empty
        file is read too, one sector of it, if the disk goes on at its start. */
    method MountAndRead(system: seq<Byte>, items: seq<Item>, i: nat) returns (found: bool, size: nat, ok: bool,
        buf: seq<Byte>)
      requires |directory| == SECTOR && ImageOk(items) && |system| <= BASE_LBA * SECTOR && ImageOf(system, items) <= img
      requires i < |items|
      modifies this
      ensures found && size == |items[i].data| && StartOf(items, i) < U32
      ensures ok <==> items[i].data != [] || (StartOf(items, i) + 1) * SECTOR <= |img|
      ensures ok ==> size <= |buf| && buf[..size] == items[i].data
    {
      hide ImageOf, Fits, Directory, SectorsAt, Blobs;
      Init();
      NamesAt(items);
      var e;
      found, e := Find(items[i].name);
      size := e.size;
      ItemAt(system, items, i, img);
      ok, buf := ReadFile(e);
    }
  }

  predicate ImageOk(items: seq<Item>) {
    && Fits(items)
    && (forall i :: 0 <= i < |items| ==> U.NameOk(items[i].name) && |items[i].data| <= U32 - SECTOR)
    && (forall i, j :: 0 <= i < j < |items| ==> items[i].name != items[j].name)
  }

  function DirentAt(directory: seq<Byte>, i: nat): Dirent
    requires |directory| == SECTOR && i < MAX_ENTRIES
  {
    var o := i * DIRENT;
    Dirent(directory[o..o + U.NAME_MAX], U.ReadU32(directory, o + 20), U.ReadU32(directory, o + 24))
  }

  /** The sectors fs_read_file reads for a file of this size. */
  function Sectors32(size: nat): nat {
    var n := (size + 511) % U32 / 512;
    if n == 0 then 1 else n
  }

  lemma DirentIs(items: seq<Item>, i: nat)
    requires ImageOk(items) && i < |items|
    ensures DirentAt(Directory(items, |items|), i) == Dirent(U.Pad(items[i].name), StartOf(items, i), |items[i].data|)
    ensures U.Str(U.Pad(items[i].name)) == items[i].name && 0 in U.Pad(items[i].name)
  {
    hide Directory, Entry, StartOf, U.Str, U.ReadU32;
    DirectoryAt(items, |items|, i);
    EntryFields(items[i].name, StartOf(items, i), |items[i].data|);
    DirentFields(Directory(items, |items|), i);
    U.StrOfPad(items[i].name);
    PadEnds(items[i].name);
  }

  lemma PadEnds(name: seq<Byte>)
    requires |name| < U.NAME_MAX
    ensures 0 in U.Pad(name)
  {
    assert U.Pad(name)[U.NAME_MAX - 1] == 0;
  }

  /** The fields of an entry, read in the directory or by themselves. */
  lemma DirentFields(d: seq<Byte>, i: nat)
    requires |d| == SECTOR && i < MAX_ENTRIES
    ensures var e := d[i * DIRENT..i * DIRENT + DIRENT];
      DirentAt(d, i) == Dirent(e[..20], U.ReadU32(e, 20), U.ReadU32(e, 24))
  {
    assert d[i * DIRENT..i * DIRENT + DIRENT][..20] == d[i * DIRENT..i * DIRENT + U.NAME_MAX];
  }

  lemma NamesAt(items: seq<Item>)
    requires ImageOk(items)
    ensures |items| <= MAX_ENTRIES
    ensures forall i :: 0 <= i < |items| ==>
      DirentAt(Directory(items, |items|), i) == Dirent(U.Pad(items[i].name), StartOf(items, i), |items[i].data|)
      && U.Str(DirentAt(Directory(items, |items|), i).raw) == items[i].name
        && 0 in DirentAt(Directory(items, |items|), i).raw
  {
    forall i | 0 <= i < |items|
      ensures DirentAt(Directory(items, |items|), i) == Dirent(U.Pad(items[i].name), StartOf(items, i), |items[i].data|)
      ensures U.Str(U.Pad(items[i].name)) == items[i].name && 0 in U.Pad(items[i].name)
    {
      DirentIs(items, i);
    }
  }

  lemma ItemAt(system: seq<Byte>, items: seq<Item>, i: nat, img: seq<Byte>)
    requires ImageOk(items) && i < |items| && |system| <= BASE_LBA * SECTOR && ImageOf(system, items) <= img
    ensures var n, s, data := Sectors32(|items[i].data|), StartOf(items, i), items[i].data;
      && s < U32 && (data == [] ==> n == 1)
      && (data != [] ==> (s + n) * SECTOR <= |img| && SectorsAt(img, s, n) == Whole(data))
  {
    hide Blobs, Directory, Whole, Super;
    StartFits(items, i);
    BlobAt(items, i);
    var s, n := StartOf(items, i), SectorsFor(|items[i].data|);
    if items[i].data != [] {
      FewSectors(|items[i].data|);
      var head := system + Zeros(BASE_LBA * SECTOR - |system|) + Super(|items|) + Directory(items,
        |items|) + Zeros(14 * SECTOR);
      SliceOf(head, Blobs(items), SectorsOf(items[..i]) * SECTOR, n * SECTOR);
      assert |head| == FIRST_LBA * SECTOR;
      SliceLater(ImageOf(system, items), img, s * SECTOR, (s + n) * SECTOR);
    }
  }

  lemma FewSectors(size: nat)
    requires 0 < size <= U32 - SECTOR
    ensures Sectors32(size) == SectorsFor(size)
  {
  }

  lemma SliceLater(a: seq<Byte>, c: seq<Byte>, i: nat, j: nat)
    requires a <= c && i <= j <= |a|
    ensures c[i..j] == a[i..j]
  {
    assert c[..|a|] == a;
  }

  lemma SliceOf(a: seq<Byte>, b: seq<Byte>, o: nat, n: nat)
    requires o + n <= |b|
    ensures (a + b)[|a| + o..|a| + o + n] == b[o..o + n]
  {
  }

  lemma Mounts(img: seq<Byte>)
    ensures forall system, items :: Fits(items) && |system| <= BASE_LBA * SECTOR && ImageOf(system, items) <= img ==>
      && (BASE_LBA + 2) * SECTOR <= |img|
      && SectorsAt(img, BASE_LBA, 1) == Super(|items|) && SectorsAt(img, BASE_LBA + 1, 1) == Directory(items, |items|)
      && Super(|items|)[..4] == ['M' as int as Byte, 'F' as int as Byte, 'S' as int as Byte, '1' as int as Byte]
      && U.ReadU32(Super(|items|), 4) == |items|
  {
    hide ImageOf, Directory, Super, SectorsAt, U.ReadU32;
    forall system, items | Fits(items) && |system| <= BASE_LBA * SECTOR && ImageOf(system, items) <= img
      ensures (BASE_LBA + 2) * SECTOR <= |img|
      ensures SectorsAt(img, BASE_LBA, 1) == Super(|items|)
        && SectorsAt(img, BASE_LBA + 1, 1) == Directory(items, |items|)
      ensures Super(|items|)[..4] == ['M' as int as Byte, 'F' as int as Byte, 'S' as int as Byte, '1' as int as Byte]
      ensures U.ReadU32(Super(|items|), 4) == |items|
    {
      HeadAt(system, items, img);
      SuperFields(|items|);
    }
  }

  lemma SuperFields(count: nat)
    requires count < U32
    ensures Super(count)[..4] == ['M' as int as Byte, 'F' as int as Byte, 'S' as int as Byte, '1' as int as Byte]
    ensures U.ReadU32(Super(count), 4) == count
  {
    U.WordRoundTrip(['M' as int as Byte, 'F' as int as Byte, 'S' as int as Byte,
      '1' as int as Byte] + Zeros(SECTOR - 4), 4, count);
  }

  lemma HeadAt(system: seq<Byte>, items: seq<Item>, img: seq<Byte>)
    requires Fits(items) && |system| <= BASE_LBA * SECTOR && ImageOf(system, items) <= img
    ensures (BASE_LBA + 2) * SECTOR <= |img|
    ensures SectorsAt(img, BASE_LBA, 1) == Super(|items|)
    ensures SectorsAt(img, BASE_LBA + 1, 1) == Directory(items, |items|)
  {
    hide Super, Directory, Blobs, Zeros;
    var first, super, dir := system + Zeros(BASE_LBA * SECTOR - |system|), Super(|items|), Directory(items, |items|);
    var head := first + super + dir;
    assert head <= ImageOf(system, items);
    Longer(head, ImageOf(system, items), img);
    Longer(first + super, head, img);
    Between(first, super, img);
    Between(first + super, dir, img);
  }

  lemma Longer(a: seq<Byte>, b: seq<Byte>, c: seq<Byte>)
    requires a <= b <= c
    ensures a <= c
  {
  }

  lemma Between(a: seq<Byte>, b: seq<Byte>, c: seq<Byte>)
    requires a + b <= c
    ensures |a| + |b| <= |c| && c[|a|..|a| + |b|] == b
  {
    assert c[..|a| + |b|] == a + b;
  }

  // ---------------------------------------------------------------------------
  // The region of the writable file system behind the image

  const DISK_BYTES: nat := U.DATA_END * SECTOR

  /** format_ufs_region of mkdisk.py: refuses an image that reaches into the
      region, else appends an empty writable file system. */
  method FormatRegion(img: seq<Byte>) returns (ok: bool, disk: seq<Byte>)
    ensures ok <==> |img| <= U.SB_LBA * SECTOR
    ensures ok ==> disk == img + Region(|img|)
  {
    var padTo := U.SB_LBA * SECTOR;
    if |img| > padTo {
      return false, [];
    }
    disk := img;
    if |img| < padTo {
      disk := disk + Zeros(padTo - |img|);
    }
    assert disk == img + Zeros(padTo - |img|);
    disk := disk + U.Super(0, U.DATA_LBA) + Zeros(U.DIR_SECTORS * SECTOR) + Zeros(8192 * SECTOR);
    ok := true;
  }

  function Region(size: nat): (r: seq<Byte>)
    requires size <= U.SB_LBA * SECTOR
    ensures |r| == DISK_BYTES - size
  {
    Zeros(U.SB_LBA * SECTOR - size) + U.Super(0, U.DATA_LBA) + Zeros(U.DIR_SECTORS * SECTOR) + Zeros(8192 * SECTOR)
  }

  /** The whole of mkdisk.py. */
  method MakeDisk(system: seq<Byte>, items: seq<Item>) returns (ok: bool, disk: seq<Byte>)
    requires FIRST_LBA + SectorsOf(items) < U32 && forall i :: 0 <= i < |items| ==> |items[i].data| < U32
    requires |system| <= BASE_LBA * SECTOR
    ensures ok <==> Fits(items) && |ImageOf(system, items)| <= U.SB_LBA * SECTOR
    ensures ok ==> disk == ImageOf(system, items) + Region(|ImageOf(system, items)|)
  {
    hide ImageOf, Region;
    ok, disk := Build(system, items);
    if ok {
      ok, disk := FormatRegion(disk);
    }
  }

  /** The disk as its driver sees it. */
  function SectorsIn(img: seq<Byte>): (d: U.Disk)
    requires |img| % SECTOR == 0
    ensures |d| == |img| / SECTOR && forall s :: 0 <= s < |d| ==> d[s] == img[s * SECTOR..s * SECTOR + SECTOR]
  {
    seq(|img| / SECTOR, s requires 0 <= s < |img| / SECTOR => img[s * SECTOR..s * SECTOR + SECTOR])
  }

  lemma RegionAt(img: seq<Byte>, disk: seq<Byte>)
    requires |img| <= U.SB_LBA * SECTOR && disk == img + Region(|img|)
    ensures U.DiskOk(SectorsIn(disk)) && SectorsIn(disk)[U.SB_LBA] == U.Super(0, U.DATA_LBA)
    ensures U.Bytes(SectorsIn(disk), U.DIR_LBA, U.DIR_BYTES) == Zeros(U.DIR_BYTES)
  {
    hide U.Super;
    var super, dir := U.Super(0, U.DATA_LBA), Zeros(U.DIR_SECTORS * SECTOR);
    var first := img + Zeros(U.SB_LBA * SECTOR - |img|);
    assert disk == first + super + dir + Zeros(8192 * SECTOR);
    Between(first, super, disk);
    Between(first + super, dir, disk);
    var d := SectorsIn(disk);
    forall k | 0 <= k < U.DIR_BYTES
      ensures U.ByteAt(d, U.DIR_LBA, k) == 0
    {
      var s := U.DIR_LBA + k / SECTOR;
      assert d[s] == disk[s * SECTOR..s * SECTOR + SECTOR];
      assert disk[|first + super| + k] == dir[k];
    }
  }

  lemma EmptyOk(fs: U.Fs)
    requires U.DiskOk(fs.disk) && fs.disk[U.SB_LBA] == U.Super(0, U.DATA_LBA)
    requires fs.dir == U.Bytes(fs.disk, U.DIR_LBA, U.DIR_BYTES) == Zeros(U.DIR_BYTES)
    requires fs.next == U.MountNext(fs.disk) && fs.count == U.UsedBelow(fs.dir, U.SLOTS) && |fs.granted| == U.SLOTS
    ensures U.FsOk(fs) && U.Files(fs) == map[] && U.Frugal(fs)
  {
    hide U.Super, U.Bytes, U.ReadU32;
    U.SuperFacts(0, U.DATA_LBA);
    U.NoneUsed(fs.dir, U.SLOTS);
  }

  /** The first boot from a disk that mkdisk.py wrote: each of its files is found
      and reads back, and the writable file system is mounted, empty, as it is on
      the disk. */
  method FirstBoot(system: seq<Byte>, items: seq<Item>, i: nat)
    returns (made: bool, found: bool, size: nat, ok: bool, buf: seq<Byte>, fs: U.FileSystem)
    requires ImageOk(items) && |system| <= BASE_LBA * SECTOR && i < |items|
    ensures made <==> |ImageOf(system, items)| <= U.SB_LBA * SECTOR
    ensures made ==> found && size == |items[i].data| && ok && size <= |buf| && buf[..size] == items[i].data
    ensures made ==> fs.Valid() && fs.Thrifty() && fs.ready && U.Files(fs.Snap()) == map[]
  {
    hide ImageOf, Region, U.FsOk, U.Files, U.Frugal, U.Super, U.Bytes, U.UsedBelow, U.ReadU32, SectorsIn;
    var disk;
    made, disk := MakeDisk(system, items);
    fs := new U.FileSystem(seq(U.DATA_END, _ => Zeros(SECTOR)));
    found, size, ok, buf := false, 0, false, [];
    if !made {
      return;
    }
    DiskGoesOn(system, items, i, disk);
    var reader := new Reader(disk);
    found, size, ok, buf := reader.MountAndRead(system, items, i);
    RegionAt(ImageOf(system, items), disk);
    U.SuperFacts(0, U.DATA_LBA);
    fs := new U.FileSystem(SectorsIn(disk));
    fs.Init();
    EmptyOk(fs.Snap());
  }

  lemma DiskGoesOn(system: seq<Byte>, items: seq<Item>, i: nat, disk: seq<Byte>)
    requires ImageOk(items) && |system| <= BASE_LBA * SECTOR && i < |items|
    requires |ImageOf(system, items)| <= U.SB_LBA * SECTOR
      && disk == ImageOf(system, items) + Region(|ImageOf(system, items)|)
    ensures ImageOf(system, items) <= disk && |disk| == DISK_BYTES && (StartOf(items, i) + 1) * SECTOR <= |disk|
  {
    hide Region, Directory, Super, Whole;
    BlobsSize(items);
    StartFits(items, i);
  }
}
