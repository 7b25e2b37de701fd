/** The editor of programs/edit.c as a client of the file system: its line
    commands, and saving and loading through a descriptor with a cursor
    (kernel/core/fd.c). The user owns the file. */
module Edit {
  import opened Base
  import opened Ufs

  const MAX_LINES: nat := 200
  const MAX_LINE: nat := 120
  const BUFFER: nat := 24200
  /** What the 512-byte read loop can fill of the buffer. */
  const READABLE: nat := 24064
  const NEWLINE: Byte := 10

  predicate LineOk(line: seq<Byte>) {
    |line| <= MAX_LINE && NEWLINE !in line && 0 !in line
  }

  predicate TableOk(lines: seq<seq<Byte>>) {
    |lines| <= MAX_LINES && forall i :: 0 <= i < |lines| ==> LineOk(lines[i])
  }

  /** The saved text: every line ends with a newline. */
  function Text(lines: seq<seq<Byte>>): seq<Byte> {
    if lines == [] then [] else Text(lines[..|lines| - 1]) + lines[|lines| - 1] + [NEWLINE]
  }

  lemma TextNone()
    ensures Text([]) == []
  {
  }

  lemma TextMore(lines: seq<seq<Byte>>, i: nat)
    requires i < |lines|
    ensures lines[..0] == []
    ensures Text(lines[..i + 1]) == Text(lines[..i]) + lines[i] + [NEWLINE]
  {
    assert lines[..i + 1][..i] == lines[..i];
  }

  /** The table that load_file makes of a text, with the line it is in. */
  datatype Loaded = Loaded(lines: seq<seq<Byte>>, part: seq<Byte>)

  function Fed(l: Loaded, b: Byte): Loaded {
    if |l.lines| >= MAX_LINES then l
    else if b == NEWLINE then Loaded(l.lines + [l.part], [])
    else if |l.part| < MAX_LINE then l.(part := l.part + [b])
    else l
  }

  function Split(text: seq<Byte>): (l: Loaded)
    ensures |l.lines| <= MAX_LINES
  {
    if text == [] then Loaded([], []) else Fed(Split(text[..|text| - 1]), text[|text| - 1])
  }

  function Table(text: seq<Byte>): seq<seq<Byte>> {
    var l := Split(text);
    if |l.part| > 0 && |l.lines| < MAX_LINES then l.lines + [l.part] else l.lines
  }

  lemma SplitNothing()
    ensures Split([]) == Loaded([], [])
  {
  }

  lemma SplitLast(text: seq<Byte>, b: Byte)
    ensures Split(text + [b]) == Fed(Split(text), b)
  {
    assert (text + [b])[..|text + [b]| - 1] == text;
  }

  lemma {:induction false} SplitLine(text: seq<Byte>, line: seq<Byte>)
    requires Split(text).part == [] && |Split(text).lines| < MAX_LINES && LineOk(line)
    ensures Split(text + line) == Loaded(Split(text).lines, line)
    decreases |line|
  {
    hide Split;
    if line == [] {
      assert text + line == text;
    } else {
      var most, last := line[..|line| - 1], line[|line| - 1];
      assert last in line;
      assert forall b :: b in most ==> b in line;
      SplitLine(text, most);
      SplitLast(text + most, last);
      assert text + line == text + most + [last] && most + [last] == line;
    }
  }

  // ---------------------------------------------------------------------------
  // Long lines and many lines

  /** The part of a line that the editor keeps. */
  function Kept(line: seq<Byte>): (r: seq<Byte>)
    ensures |r| <= 120 && r <= line && (|line| <= 120 ==> r == line)
  {
    if |line| <= 120 then line else line[..120]
  }

  function AllKept(lines: seq<seq<Byte>>): (r: seq<seq<Byte>>)
    ensures |r| == |lines| && forall i :: 0 <= i < |lines| ==> r[i] == Kept(lines[i])
  {
    seq(|lines|, i requires 0 <= i < |lines| => Kept(lines[i]))
  }

  function First200(lines: seq<seq<Byte>>): seq<seq<Byte>> {
    if |lines| <= 200 then lines else lines[..200]
  }

  predicate NoNewline(line: seq<Byte>) {
    forall k :: 0 <= k < |line| ==> line[k] != 10
  }

  lemma {:induction false} SplitAnyLine(text: seq<Byte>, line: seq<Byte>)
    requires Split(text).part == [] && NoNewline(line)
    ensures Split(text + line) == if |Split(text).lines| >= 200 then Split(text)
      else Loaded(Split(text).lines, Kept(line))
    decreases |line|
  {
    hide Split;
    if line == [] {
      assert text + line == text;
    } else {
      var most, last := line[..|line| - 1], line[|line| - 1];
      SplitAnyLine(text, most);
      SplitLast(text + most, last);
      assert text + line == text + most + [last] && most + [last] == line;
    }
  }

  lemma {:induction false} SplitAnyLines(lines: seq<seq<Byte>>)
    requires forall i :: 0 <= i < |lines| ==> NoNewline(lines[i])
    ensures Split(Text(lines)) == Loaded(First200(AllKept(lines)), [])
  {
    hide Split, Kept;
    SplitNothing();
    if lines != [] {
      var most, last := lines[..|lines| - 1], lines[|lines| - 1];
      SplitAnyLines(most);
      SplitAnyLine(Text(most), last);
      SplitLast(Text(most) + last, 10);
      assert AllKept(lines) == AllKept(most) + [Kept(last)];
    }
  }

  /** What load_file makes of any text: the first 120 bytes of each of its first
      200 lines, counting an unfinished last line that is not empty. */
  lemma LoadedLines(lines: seq<seq<Byte>>, rest: seq<Byte>)
    requires NoNewline(rest) && forall i :: 0 <= i < |lines| ==> NoNewline(lines[i])
    ensures Table(Text(lines) + rest) == First200(AllKept(if rest == [] then lines else lines + [rest]))
  {
    hide Split, Text, NoNewline, Kept;
    SplitAnyLines(lines);
    SplitAnyLine(Text(lines), rest);
    if rest == [] {
      assert Text(lines) + rest == Text(lines);
    } else {
      KeptSome(rest);
      OneMoreKept(lines, rest);
    }
  }

  lemma KeptSome(line: seq<Byte>)
    requires line != []
    ensures Kept(line) != []
  {
  }

  lemma OneMoreKept(lines: seq<seq<Byte>>, line: seq<Byte>)
    ensures First200(AllKept(lines + [line])) ==
      if |lines| < 200 then First200(AllKept(lines)) + [Kept(line)] else First200(AllKept(lines))
  {
    hide Kept;
    assert AllKept(lines + [line]) == AllKept(lines) + [Kept(line)];
  }

  /** Every text is made of such lines. */
  lemma {:induction false} HasLines(text: seq<Byte>) returns (lines: seq<seq<Byte>>, rest: seq<Byte>)
    ensures text == Text(lines) + rest && NoNewline(rest) && forall i :: 0 <= i < |lines| ==> NoNewline(lines[i])
  {
    if text == [] {
      lines, rest := [], [];
    } else {
      var most, last := text[..|text| - 1], text[|text| - 1];
      lines, rest := HasLines(most);
      assert text == most + [last];
      if last == 10 {
        assert (lines + [rest])[..|lines|] == lines;
        lines, rest := lines + [rest], [];
      } else {
        rest := rest + [last];
      }
    }
  }

  /** Loading the text of a table gives the table. */
  lemma {:induction false} SplitText(lines: seq<seq<Byte>>)
    requires TableOk(lines)
    ensures Split(Text(lines)) == Loaded(lines, [])
  {
    hide Split;
    SplitNothing();
    if lines != [] {
      var most, last := lines[..|lines| - 1], lines[|lines| - 1];
      SplitText(most);
      SplitLine(Text(most), last);
      SplitLast(Text(most) + last, NEWLINE);
      assert most + [last] == lines;
    }
  }

  lemma {:induction false} TextSize(lines: seq<seq<Byte>>)
    requires TableOk(lines)
    ensures |Text(lines)| <= |lines| * (MAX_LINE + 1)
  {
    if lines != [] {
      TextSize(lines[..|lines| - 1]);
    }
  }

  lemma {:induction false} TextGrows(lines: seq<seq<Byte>>, i: nat, j: nat)
    requires i <= j <= |lines|
    ensures |Text(lines[..i])| <= |Text(lines[..j])|
  {
    if i < j {
      TextGrows(lines, i, j - 1);
      TextMore(lines, j - 1);
    }
  }

  // ---------------------------------------------------------------------------
  // What a save takes

  /** The sectors a file of this capacity takes while it grows to hold `total`
      bytes by writes of at most a sector. */
  function Doublings(cap: nat, total: nat): nat
    decreases total - cap * SECTOR
  {
    if total <= cap * SECTOR then 0
    else var n := if cap == 0 then 1 else 2 * cap;
      n + Doublings(n, total)
  }

  lemma OneSectorMore(cap: nat, needed: nat)
    requires cap * SECTOR < needed <= (cap + 1) * SECTOR && needed <= BUFFER
    ensures Sectors32(needed) == cap + 1
  {
  }

  lemma DoubledOnce(cap: nat)
    ensures Doubled(if cap == 0 then 1 else cap, cap + 1) == if cap == 0 then 1 else 2 * cap
  {
    if cap > 0 {
      assert Doubled(cap * 2, cap + 1) == cap * 2;
    }
  }

  /** A write that does not fit doubles the capacity. */
  lemma OneDoubling(cap: nat, cursor: nat, len: nat, total: nat)
    requires cursor <= cap * SECTOR < cursor + len <= total && len <= SECTOR && total <= BUFFER
    ensures NewCap(cap, cursor + len) == if cap == 0 then 1 else 2 * cap
    ensures Doublings(cap, total) == NewCap(cap, cursor + len) + Doublings(NewCap(cap, cursor + len), total)
  {
    OneSectorMore(cap, cursor + len);
    DoubledOnce(cap);
  }

  /** For a new file the largest table takes 1 + 2 + ... + 64 sectors. */
  lemma NewFileTakes(total: nat)
    requires total <= BUFFER
    ensures Doublings(0, total) <= 127
  {
    assert Doublings(64, total) == 0;
    assert Doublings(32, total) <= 64;
    assert Doublings(16, total) <= 96;
    assert Doublings(8, total) <= 112;
    assert Doublings(4, total) <= 120;
    assert Doublings(2, total) <= 124;
    assert Doublings(1, total) <= 126;
  }

  // ---------------------------------------------------------------------------
  // What a load gives back

  /** What the read loop gets of a file. */
  function Readable(bytes: seq<Byte>): seq<Byte> {
    if |bytes| <= READABLE then bytes else bytes[..READABLE]
  }

  lemma {:induction false} SplitSize(text: seq<Byte>)
    ensures |Text(Split(text).lines)| + |Split(text).part| <= |text|
  {
    if text != [] {
      var most, last := text[..|text| - 1], text[|text| - 1];
      SplitSize(most);
      var l := Split(most);
      assert (l.lines + [l.part])[..|l.lines|] == l.lines;
    }
  }

  /** Only the newline of an unfinished last line is added. */
  lemma TableSize(text: seq<Byte>)
    ensures |Text(Table(text))| <= |text| + 1
  {
    SplitSize(text);
    var l := Split(text);
    assert (l.lines + [l.part])[..|l.lines|] == l.lines;
  }

  /** The text without its last newline gives the table if the last line is not empty. */
  lemma CutText(lines: seq<seq<Byte>>)
    requires TableOk(lines) && lines != []
    ensures var t := Text(lines); Table(t[..|t| - 1]) == lines <==> lines[|lines| - 1] != []
  {
    hide Split;
    var most, last := lines[..|lines| - 1], lines[|lines| - 1];
    var t := Text(lines);
    assert t[..|t| - 1] == Text(most) + last;
    SplitText(most);
    SplitLine(Text(most), last);
    assert most + [last] == lines;
  }

  /** A saved table is loaded unchanged exactly when its text is at most 24064
      bytes long, or one byte longer with a last line that is not empty. */
  predicate ComesBack(lines: seq<seq<Byte>>) {
    |Text(lines)| <= READABLE || (|Text(lines)| == READABLE + 1 && lines != [] && lines[|lines| - 1] != [])
  }

  lemma LoadedBack(lines: seq<seq<Byte>>)
    requires TableOk(lines)
    ensures Table(Readable(Text(lines))) == lines <==> ComesBack(lines)
  {
    hide Split, Text;
    TextNone();
    SplitText(lines);
    var t := Text(lines);
    if |t| == READABLE + 1 {
      CutText(lines);
    } else if |t| > READABLE + 1 {
      TableSize(t[..READABLE]);
    }
  }

  /** The largest table does not come back. */
  lemma LargestIsLost()
    ensures var lines := seq(MAX_LINES, _ => seq(MAX_LINE, _ => 65 as Byte)); TableOk(lines) && !ComesBack(lines)
  {
    var lines := seq(MAX_LINES, _ => seq(MAX_LINE, _ => 65 as Byte));
    EqualLines(lines, MAX_LINES);
    assert lines[..MAX_LINES] == lines;
  }

  lemma {:induction false} EqualLines(lines: seq<seq<Byte>>, i: nat)
    requires i <= |lines| && forall j :: 0 <= j < |lines| ==> |lines[j]| == MAX_LINE
    ensures |Text(lines[..i])| == i * (MAX_LINE + 1)
  {
    if i > 0 {
      EqualLines(lines, i - 1);
      TextMore(lines, i - 1);
    }
  }

  /** What one successful write at the end of the file does. */
  lemma Appended(was: seq<Byte>, now: seq<Byte>, data: seq<Byte>)
    requires Overwritten(was, now, |was|, data)
    ensures now == was + data
  {
    assert now == now[..|was|] + now[|was|..];
    assert now[|was|..|was| + |data|] == data;
  }

  lemma InsertedOk(lines: seq<seq<Byte>>, at: nat, text: seq<Byte>)
    requires TableOk(lines) && LineOk(text) && at <= |lines| < MAX_LINES
    ensures TableOk(lines[..at] + [text] + lines[at..])
  {
  }

  lemma DeletedOk(lines: seq<seq<Byte>>, at: nat)
    requires TableOk(lines) && at < |lines|
    ensures TableOk(lines[..at] + lines[at + 1..])
  {
  }

  lemma ShiftedUp(was: seq<seq<Byte>>, now: seq<seq<Byte>>, at: nat, n: nat, text: seq<Byte>)
    requires at <= n < |was| == |now| && now[at] == text
    requires forall k :: 0 <= k < at ==> now[k] == was[k]
    requires forall k :: at < k <= n ==> now[k] == was[k - 1]
    ensures now[..n + 1] == was[..n][..at] + [text] + was[..n][at..]
  {
  }

  lemma ShiftedDown(was: seq<seq<Byte>>, now: seq<seq<Byte>>, at: nat, n: nat)
    requires at <= n < |was| == |now|
    requires forall k :: 0 <= k < at ==> now[k] == was[k]
    requires forall k :: at <= k < n ==> now[k] == was[k + 1]
    ensures now[..n] == was[..n + 1][..at] + was[..n + 1][at + 1..]
  {
  }

  /** One round of the read loop. */
  lemma ReadMore(bytes: seq<Byte>, content: seq<Byte>, data: seq<Byte>)
    requires |content| <= |bytes| && content == bytes[..|content|] && |content| + 512 <= BUFFER
    requires |content| < |bytes| ==> |content| % 512 == 0
    requires data == if |content| >= |bytes| then []
      else bytes[|content|..if |content| + 512 <= |bytes| then |content| + 512 else |bytes|]
    ensures var more := content + data;
      && |more| <= |bytes| && more == bytes[..|more|] && (data == [] ==> |more| == |bytes|)
      && (|more| < |bytes| ==> |more| % 512 == 0)
      && (|content| <= READABLE ==> |more| <= READABLE)
  {
  }

  /** Where the read loop stops. */
  lemma ReadEnd(bytes: seq<Byte>, content: seq<Byte>, n: nat)
    requires |content| <= |bytes| && content == bytes[..|content|] && |content| <= READABLE
    requires |content| + 512 > BUFFER || n == 0
    requires n == 0 ==> |content| == |bytes|
    requires |content| < |bytes| ==> |content| % 512 == 0
    ensures content == if |bytes| <= READABLE then bytes else bytes[..READABLE]
  {
    assert bytes[..|bytes|] == bytes;
  }

  class Editor {
    const fs: FileSystem
    const name: seq<Byte>
    const me: nat
    /** The line table; the first count lines are in use. */
    var lines: seq<seq<Byte>>
    var count: nat

    ghost predicate Valid()
      reads this, fs
    {
      fs.Valid() && fs.ready && 0 !in name && me < U32 && |lines| == MAX_LINES && count <= MAX_LINES
        && TableOk(lines[..count])
    }

    ghost function Here(): map<seq<Byte>, File>
      requires fs.Valid()
      reads fs
    {
      Files(fs.Snap())
    }

    constructor (fs: FileSystem, name: seq<Byte>, me: nat)
      requires fs.Valid() && fs.ready && 0 !in name && me < U32
      ensures Valid() && this.fs == fs && this.name == name && count == 0
    {
      this.fs, this.name, this.me := fs, name, me;
      lines, count := seq(MAX_LINES, _ => []), 0;
    }

    /** cmd_insert, with the text typed. */
    method Insert(at: int, text: seq<Byte>) returns (ok: bool)
      requires Valid() && LineOk(text)
      modifies this`lines, this`count
      ensures Valid()
      ensures ok <==> 0 <= at <= old(count) < MAX_LINES
      ensures ok ==> lines[..count] == old(lines[..count])[..at] + [text] + old(lines[..count])[at..]
      ensures !ok ==> lines == old(lines) && count == old(count)
    {
      hide TableOk, LineOk, FsOk, DiskOk;
      if at < 0 || at > count || count >= MAX_LINES {
        return false;
      }
      ghost var was := lines;
      var i := count;
      while i > at
        invariant at <= i <= count == old(count) && |lines| == MAX_LINES
        invariant forall k :: 0 <= k < i ==> lines[k] == was[k]
        invariant forall k :: i < k <= count ==> lines[k] == was[k - 1]
      {
        lines := lines[i := lines[i - 1]];
        i := i - 1;
      }
      lines := lines[at := text];
      count := count + 1;
      InsertedOk(was[..count - 1], at, text);
      ShiftedUp(was, lines, at, count - 1, text);
      ok := true;
    }

    /** cmd_delete. */
    method Delete(at: int) returns (ok: bool)
      requires Valid()
      modifies this`lines, this`count
      ensures Valid()
      ensures ok <==> 0 <= at < old(count)
      ensures ok ==> lines[..count] == old(lines[..count])[..at] + old(lines[..count])[at + 1..]
      ensures !ok ==> lines == old(lines) && count == old(count)
    {
      hide TableOk, LineOk, FsOk, DiskOk;
      if at < 0 || at >= count {
        return false;
      }
      ghost var was := lines;
      var i := at;
      while i < count - 1
        invariant at <= i <= count - 1 && count == old(count) && |lines| == MAX_LINES
        invariant forall k :: 0 <= k < at ==> lines[k] == was[k]
        invariant forall k :: at <= k < i ==> lines[k] == was[k + 1]
        invariant forall k :: i < k < count ==> lines[k] == was[k]
      {
        lines := lines[i := lines[i + 1]];
        i := i + 1;
      }
      count := count - 1;
      DeletedOk(was[..count + 1], at);
      ShiftedDown(was, lines, at, count);
      ok := true;
    }

    /** The capacity of the file before it is opened. */
    ghost function CapBefore(): nat
      requires fs.Valid()
      reads this, fs
    {
      if name in Names(fs.directory) then SlotAt(fs.directory, SlotOf(fs.directory, name)).cap else 0
    }

    ghost predicate CanOpen()
      requires fs.Valid()
      reads this, fs
    {
      name in Names(fs.directory) || (NameOk(name) && exists i :: 0 <= i < SLOTS && !Used(fs.directory, i))
    }

    /** What a save needs: the file or a slot for it, and sectors to grow. */
    ghost predicate CanSave()
      requires fs.Valid() && count <= |lines|
      reads this, fs
    {
      CanOpen() && fs.next + Doublings(CapBefore(), |Text(lines[..count])|) <= DATA_END
    }

    /** sys_open for saving: the file is there and empty. */
    method OpenEmpty() returns (handle: int)
      requires Valid() && (name in Here() ==> Here()[name].owner == me)
      modifies fs
      ensures Valid() && lines == old(lines) && count == old(count)
      ensures handle < 0 ==> Here() == old(Here())
      ensures handle >= 0 ==> Opened(handle, []) && Here() == old(Here())[name := Here()[name]]
      ensures handle >= 0 <==> old(CanOpen())
      ensures handle >= 0 ==> fs.next == old(fs.next) && SlotAt(fs.directory, handle).cap == old(CapBefore())
    {
      hide FsOk, NameAt, Names, Files, DiskOk, SlotAt, Used;
      handle := fs.Find(name);
      if handle < 0 {
        handle := fs.Create(name, me);
        if handle >= 0 {
          FileFound(fs.Snap(), handle);
        }
      } else {
        FileFound(fs.Snap(), handle);
        CapFits(fs.Snap(), handle);
        InNames(fs.directory, handle);
        NamesDiffer(fs.Snap(), handle, SlotOf(fs.directory, name));
        var r := fs.Truncate(handle, 0);
      }
    }

    /** The descriptor names the file, which is mine and holds `bytes`. */
    ghost predicate Opened(handle: int, bytes: seq<Byte>)
      requires fs.Valid()
      reads this, fs
    {
      && fs.ready && HandleValid(fs.directory, handle) && NameAt(fs.directory, handle) == name
      && name in Here() && Here()[name].bytes == bytes && Here()[name].owner == me
    }

    /** Where the free sectors would begin once the file had grown to `total` bytes. */
    ghost function Needs(handle: int, total: nat): nat
      requires |fs.directory| == DIR_BYTES && HandleValid(fs.directory, handle)
      reads this, fs
    {
      fs.next + Doublings(SlotAt(fs.directory, handle).cap, total)
    }

    /** One sys_write at the end of a file that is to get `total` bytes. It fails
        only if that many do not fit; then nothing changes. */
    method Append(handle: int, cursor: nat, data: seq<Byte>, ghost bytes: seq<Byte>,
        ghost total: nat) returns (ok: bool, next: nat)
      requires Valid() && Opened(handle, bytes) && cursor == |bytes| && cursor + |data| <= total <= BUFFER
        && |data| <= SECTOR
      modifies fs
      ensures Valid() && lines == old(lines) && count == old(count)
      ensures ok ==>
        && Opened(handle, bytes + data) && next == cursor + |data| && Needs(handle, total) == old(Needs(handle, total))
      ensures !ok ==> next == cursor && fs.Snap() == old(fs.Snap()) && Needs(handle, total) > DATA_END
      ensures Here() == old(Here())[name := Here()[name]]
    {
      hide FsOk, NameAt, Files, SlotAt, NewCap, Doublings;
      FileFound(fs.Snap(), handle);
      CapFits(fs.Snap(), handle);
      GrowthFacts(SlotAt(fs.directory, handle).cap, cursor, |data|, total);
      var r := fs.WriteAt(handle, cursor, data);
      ok := r >= 0;
      next := if ok then cursor + r else cursor;
      if ok {
        Appended(bytes, Here()[name].bytes, data);
      }
    }

    /** The two writes for one line. */
    method WriteLine(handle: int, cursor: nat, line: seq<Byte>, ghost bytes: seq<Byte>, ghost total: nat)
      returns (ok: bool, next: nat, ghost now: seq<Byte>)
      requires Valid() && Opened(handle, bytes) && cursor == |bytes| && cursor + |line| + 1 <= total <= BUFFER
        && |line| <= MAX_LINE
      modifies fs
      ensures Valid() && lines == old(lines) && count == old(count)
      ensures Opened(handle, now) && next == |now| <= |bytes| + |line| + 1
      ensures ok ==> now == bytes + line + [NEWLINE] && Needs(handle, total) == old(Needs(handle, total))
      ensures !ok ==> old(Needs(handle, total)) > DATA_END
      ensures Here() == old(Here())[name := Here()[name]]
    {
      hide FsOk, NameAt, Files, SlotAt, NewCap, Doublings, DiskOk, Used;
      ghost var here := Here();
      var first, second;
      first, next := Append(handle, cursor, line, bytes, total);
      ghost var middle := Here();
      now := if first then bytes + line else bytes;
      second, next := Append(handle, next, [NEWLINE], now, total);
      now := if second then now + [NEWLINE] else now;
      ok := first && second;
      assert here[name := middle[name]][name := Here()[name]] == here[name := Here()[name]];
    }

    /** save_file. It succeeds exactly when there is room for the text; then the
        file holds the text of the table. No other file changes in any case. */
    method Save() returns (ok: bool)
      requires Valid() && (name in Here() ==> Here()[name].owner == me)
      modifies fs
      ensures Valid() && lines == old(lines) && count == old(count)
      ensures ok <==> old(CanSave())
      ensures ok ==> name in Here() && Here()[name].bytes == Text(lines[..count]) && Here()[name].owner == me
      ensures forall other :: other != name ==>
        && (other in Here() <==> other in old(Here())) && (other in Here() ==> Here()[other] == old(Here())[other])
    {
      hide FsOk, Names, Files, NameAt, Used, DiskOk, Text, Doublings, SlotAt;
      TextNone();
      ghost var total := |Text(lines[..count])|;
      TextSize(lines[..count]);
      var handle := OpenEmpty();
      if handle < 0 {
        return false;
      }
      ok := true;
      ghost var need := Needs(handle, total);
      var cursor := 0;
      ghost var bytes: seq<Byte> := [];
      var i := 0;
      while i < count
        invariant 0 <= i <= count && Valid() && lines == old(lines) && count == old(count)
        invariant Opened(handle, bytes) && cursor == |bytes| <= |Text(lines[..i])|
        invariant ok ==> bytes == Text(lines[..i]) && Needs(handle, total) == need
        invariant !ok ==> need > DATA_END
        invariant Here() == old(Here())[name := Here()[name]]
      {
        assert LineOk(lines[..count][i]);
        NextLine(lines, count, i);
        var wrote;
        wrote, cursor, bytes := WriteLine(handle, cursor, lines[i], bytes, total);
        ok := ok && wrote;
        i := i + 1;
      }
      AllGrown(fs.Snap(), handle, bytes, total);
    }

    /** The read loop of load_file: at most 47 reads of 512 bytes. */
    method ReadContent(handle: int) returns (content: seq<Byte>)
      requires Valid() && HandleValid(fs.directory, handle) && NameAt(fs.directory, handle) == name
      ensures name in Here()
      ensures content == Readable(Here()[name].bytes)
    {
      hide FsOk, NameAt, Files;
      FileFound(fs.Snap(), handle);
      ghost var bytes := Here()[name].bytes;
      content := [];
      var n := 1;
      while |content| + 512 <= BUFFER && n > 0
        invariant |content| <= |bytes| && content == bytes[..|content|] && 0 <= n
        invariant n == 0 ==> |content| == |bytes|
        invariant |content| < |bytes| ==> |content| % 512 == 0
        invariant |content| <= READABLE
        decreases BUFFER - |content| + n
      {
        var data;
        n, data := fs.ReadAt(handle, |content|, 512);
        ReadMore(bytes, content, data);
        content := content + data;
      }
      ReadEnd(bytes, content, n);
    }

    /** load_file: the table of the file's text, or of its first 24064 bytes. */
    method Load()
      requires Valid()
      modifies this`lines, this`count
      ensures |lines| == MAX_LINES && count <= MAX_LINES
      ensures name !in Here() ==> count == 0
      ensures name in Here() ==> lines[..count] == Table(Readable(Here()[name].bytes))
    {
      hide FsOk, NameAt, Files, DiskOk, Used, TableOk;
      var handle := fs.Find(name);
      if handle < 0 {
        NotThere(fs.Snap(), name);
        count := 0;
        return;
      }
      FileFound(fs.Snap(), handle);
      var content := ReadContent(handle);
      var table, part := ParseLines(content);
      if |part| > 0 && |table| < MAX_LINES {
        table := table + [part];
      }
      count := |table|;
      lines := table + lines[|table|..];
      assert lines[..count] == table;
    }

    /** The loop of load_file over the bytes read. */
    method ParseLines(content: seq<Byte>) returns (table: seq<seq<Byte>>, part: seq<Byte>)
      ensures Loaded(table, part) == Split(content)
    {
      hide Split;
      table, part := [], [];
      SplitNothing();
      assert content[..0] == [];
      var i := 0;
      while i < |content| && |table| < MAX_LINES
        invariant 0 <= i <= |content| && |table| <= MAX_LINES
        invariant Loaded(table, part) == Split(content[..i])
      {
        SplitLast(content[..i], content[i]);
        assert content[..i + 1] == content[..i] + [content[i]];
        if content[i] == NEWLINE {
          table, part := table + [part], [];
        } else if |part| < MAX_LINE {
          part := part + [content[i]];
        }
        i := i + 1;
      }
      FullStays(content, i);
    }

    /** Saving a table and loading it again gives the same table exactly when the
        text is at most 24064 bytes long, or one more with a last line that is not
        empty; the save succeeds exactly when there is room for it. */
    method SaveAndLoad() returns (ok: bool)
      requires Valid() && (name in Here() ==> Here()[name].owner == me)
      modifies fs, this`lines, this`count
      ensures count <= |lines| && (ok <==> old(CanSave()))
      ensures ok ==> lines[..count] == Table(Readable(Text(old(lines[..count]))))
      ensures ok ==> (lines[..count] == old(lines[..count]) <==> ComesBack(old(lines[..count])))
    {
      hide FsOk, NameAt, Names, Files, DiskOk, Used, ComesBack, Table, Text, Doublings;
      ghost var table := lines[..count];
      LoadedBack(table);
      ok := Save();
      Load();
    }
  }

  lemma GrowthFacts(cap: nat, cursor: nat, len: nat, total: nat)
    requires cursor <= cap * SECTOR && cursor + len <= total <= BUFFER && len <= SECTOR && (cap == 0 || Pow2(cap))
    ensures len > 0 && cursor + len > cap * SECTOR ==>
      NewCap(cap, cursor + len) > 0
        && Doublings(cap, total) == NewCap(cap, cursor + len) + Doublings(NewCap(cap, cursor + len), total)
  {
    if len > 0 && cursor + len > cap * SECTOR {
      OneDoubling(cap, cursor, len, total);
    }
  }

  lemma NextLine(lines: seq<seq<Byte>>, count: nat, i: nat)
    requires i < count <= |lines|
    ensures Text(lines[..i + 1]) == Text(lines[..i]) + lines[i] + [NEWLINE]
    ensures |Text(lines[..i])| + |lines[i]| + 1 <= |Text(lines[..count])|
  {
    hide Text;
    TextMore(lines, i);
    TextGrows(lines, i + 1, count);
  }

  /** A file that holds all its bytes needs no more room. */
  lemma AllGrown(fs: Fs, i: nat, bytes: seq<Byte>, total: nat)
    requires FsOk(fs) && i < SLOTS && Used(fs.dir, i) && Files(fs)[NameAt(fs.dir, i)].bytes == bytes
    ensures |bytes| == total ==> fs.next + Doublings(SlotAt(fs.dir, i).cap, total) <= DATA_END
  {
    FileFound(fs, i);
    CapFits(fs, i);
  }

  lemma NotThere(fs: Fs, name: seq<Byte>)
    requires |fs.dir| == DIR_BYTES && name !in Names(fs.dir)
    ensures name !in Files(fs)
  {
  }

  /** Once the table is full nothing more is taken. */
  lemma {:induction false} FullStays(content: seq<Byte>, i: nat)
    requires i <= |content| && (i < |content| ==> |Split(content[..i]).lines| >= MAX_LINES)
    ensures Split(content) == Split(content[..i])
    decreases |content| - i
  {
    if i == |content| {
      assert content[..i] == content;
    } else {
      assert content[..i + 1][..i] == content[..i];
      FullStays(content, i + 1);
    }
  }
}
