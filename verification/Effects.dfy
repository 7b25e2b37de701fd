/** What each event does to the state, in plain terms: which threads, pipes and
    records change and to what, by number, and that nothing else changes
    (kernel/sched/thread.c, kernel/core/pipe.c, fd.c, process.c, syscall.c). */
module Effects {
  import opened Base
  import opened Kernel
  import opened Runs
  import opened Fairness

  // ---------------------------------------------------------------------------
  // Passing the processor on

  predicate CanRun(t: Thread) {
    t.state == Ready || t.state == Running
  }

  /** Going round from slot c, slot u comes before slot d. */
  predicate Between(c: nat, u: nat, d: nat) {
    if c < d then c < u < d else c < u || u < d
  }

  predicate Alone(ts: seq<Thread>, c: nat) {
    forall u :: 0 <= u < |ts| && u != c ==> !CanRun(ts[u])
  }

  /** Slot n holds the first thread that can run, going round from c. */
  predicate NextInTurn(ts: seq<Thread>, c: nat, n: nat) {
    && n < |ts| && n != c && CanRun(ts[n])
    && forall u :: 0 <= u < |ts| && u != c && Between(c, u, n) ==> !CanRun(ts[u])
  }

  function FullQuantum(p: Priority): int {
    match p case Low => 2 case Normal => 4 case High => 8
  }

  predicate SameBut(ts: seq<Thread>, ts': seq<Thread>, x: set<nat>) {
    |ts'| == |ts| && forall t :: 0 <= t < |ts| && t !in x ==> ts'[t] == ts[t]
  }

  /** The processor passes from slot c to the next thread in turn, which gets a
      full quantum or keeps its ticks; with nobody else to run nothing happens. */
  predicate PassedOn(ts: seq<Thread>, c: nat, ts': seq<Thread>, c': nat, full: bool)
    requires c < |ts|
  {
    if Alone(ts, c) then c' == c && ts' == ts
    else
      && NextInTurn(ts, c, c') && SameBut(ts, ts', {c'})
      && ts'[c'] == ts[c'].(state := Running, ticks := if full then FullQuantum(ts[c'].prio) else ts[c'].ticks)
  }

  lemma {:induction false} TurnFrom(ts: seq<Thread>, c: nat, k: nat)
    requires c < |ts| && 1 <= k <= |ts| + 1
    requires forall j :: 1 <= j < k && j < |ts| ==> !CanRun(ts[Around(|ts|, c, j)])
    ensures var n := NextFrom(ts, c, k); if Alone(ts, c) then n == c else NextInTurn(ts, c, n)
    decreases |ts| + 1 - k
  {
    if k < |ts| {
      var n := Around(|ts|, c, k);
      RoundPlace(|ts|, c, k);
      if CanRun(ts[n]) {
        forall u | 0 <= u < |ts| && u != c && Between(c, u, n)
          ensures !CanRun(ts[u])
        {
          PlaceBefore(|ts|, c, u, k);
        }
      } else {
        TurnFrom(ts, c, k + 1);
      }
    } else {
      forall u | 0 <= u < |ts| && u != c
        ensures !CanRun(ts[u])
      {
        PlaceOf(|ts|, c, u);
      }
      if k == |ts| {
        assert Around(|ts|, c, k) == c;
      }
    }
  }

  lemma RoundPlace(n: nat, c: nat, k: nat)
    requires c < n && 1 <= k < n
    ensures Around(n, c, k) == (if c + k < n then c + k else c + k - n) && Around(n, c, k) != c
  {
    Wrap(n, c + k);
  }

  lemma PlaceOf(n: nat, c: nat, u: nat)
    requires c < n && u < n && u != c
    ensures exists j :: 1 <= j < n && Around(n, c, j) == u
  {
    var j := if u > c then u - c else u + n - c;
    RoundPlace(n, c, j);
  }

  lemma PlaceBefore(n: nat, c: nat, u: nat, k: nat)
    requires c < n && u < n && u != c && 1 <= k < n && Between(c, u, Around(n, c, k))
    ensures exists j :: 1 <= j < k && Around(n, c, j) == u
  {
    RoundPlace(n, c, k);
    var j := if u > c then u - c else u + n - c;
    RoundPlace(n, c, j);
  }

  lemma Turn(s: State, full: bool)
    requires s.current < |s.threads|
    ensures var n := Next(s.threads, s.current);
      if n == s.current then PassedOn(s.threads, s.current, s.threads, s.current, full)
      else PassedOn(s.threads, s.current, SwitchTo(s, n, full).threads, n, full)
  {
    TurnFrom(s.threads, s.current, 1);
  }

  // ---------------------------------------------------------------------------
  // The scheduler's events

  /** The current thread is left ready, all else about it as it was. */
  predicate Yielded(s: State, r: State)
    requires s.current < |s.threads|
  {
    && r == s.(threads := r.threads, current := r.current)
    && if Alone(s.threads, s.current) then r == s
       else
         && r.current != s.current && |r.threads| == |s.threads|
         && r.threads[s.current] == s.threads[s.current].(state := Ready)
         && NextInTurn(s.threads, s.current, r.current)
         && r.threads[r.current] ==
            s.threads[r.current].(state := Running, ticks := FullQuantum(s.threads[r.current].prio))
         && SameBut(s.threads, r.threads, {s.current, r.current})
  }

  /** One tick less; at 0 the thread yields. */
  predicate Ticked(s: State, r: State)
    requires s.current < |s.threads|
  {
    var less := s.(threads := s.threads[s.current := s.threads[s.current].(ticks := s.threads[s.current].ticks - 1)]);
    if s.threads[s.current].ticks > 1 then r == less else Yielded(less, r)
  }

  predicate Slept(s: State, r: State, ch: Channel, place: Place)
    requires s.current < |s.threads|
  {
    && r == s.(threads := r.threads, current := r.current)
    && PassedOn(s.threads[s.current := s.threads[s.current].(state := Blocked, chan := ch, place := place)], s.current,
                r.threads, r.current, true)
  }

  /** Exactly the sleepers on the channel become ready. */
  predicate AllWoken(ts: seq<Thread>, ts': seq<Thread>, ch: Channel) {
    |ts'| == |ts| && forall t :: 0 <= t < |ts| ==>
      ts'[t] == if ts[t].state == Blocked && ts[t].chan == ch then ts[t].(state := Ready, chan := Num(0)) else ts[t]
  }

  lemma YieldMeans(s: State)
    requires s.current < |s.threads|
    ensures Yielded(s, Yield(s))
  {
    var c := s.current;
    var n := Next(s.threads, c);
    TurnFrom(s.threads, c, 1);
    if n != c {
      var ts1 := s.threads[c := s.threads[c].(state := Ready)];
      assert SameBut(s.threads, Yield(s).threads, {c, n});
    }
  }

  lemma TickMeans(s: State)
    requires s.current < |s.threads|
    ensures Ticked(s, Tick(s))
  {
    hide Yielded, Yield;
    YieldMeans(SetThread(s, s.current, Cur(s).(ticks := Cur(s).ticks - 1)));
  }

  lemma SleepMeans(s: State, ch: Channel, place: Place)
    requires s.current < |s.threads|
    ensures Slept(s, Sleep(s, ch, place), ch, place)
  {
    hide PassedOn, NextFrom;
    Turn(SetThread(s, s.current, Cur(s).(chan := ch, state := Blocked, place := place)), true);
  }

  lemma WakeupMeans(s: State, ch: Channel)
    ensures Wakeup(s, ch) == s.(threads := Wakeup(s, ch).threads) && AllWoken(s.threads, Wakeup(s, ch).threads, ch)
  {
  }

  // ---------------------------------------------------------------------------
  // Processes end

  predicate IsRecord(p: Process, tid: int) {
    p.state != NoProcess && p.tid == tid
  }

  predicate HasPid(p: Process, pid: int) {
    p.state != NoProcess && p.pid == pid
  }

  /** The process of thread tid, if there is one, has ended with this status, and
      who waits for it is awake; nobody else's record changed. */
  predicate Ended1(ts: seq<Thread>, ps: seq<Process>, tid: int, status: int, ts': seq<Thread>, ps': seq<Process>) {
    && |ps'| == |ps|
    && (forall i :: 0 <= i < |ps| && !IsRecord(ps[i], tid) ==> ps'[i] == ps[i])
    && (forall i :: 0 <= i < |ps| && IsRecord(ps[i], tid) ==>
          ps'[i] == Process(ps[i].pid, ps[i].tid, ps[i].parent, status, Exited) && AllWoken(ts, ts', Num(ps[i].pid)))
    && ((forall i :: 0 <= i < |ps| ==> !IsRecord(ps[i], tid)) ==> ts' == ts)
  }

  /** The current thread is a zombie for good, its process has this exit status,
      sleepers on either are awake, and the next thread runs on its old ticks. */
  ghost predicate Left(s: State, r: State, status: int)
    requires s.current < |s.threads|
  {
    && r == s.(threads := r.threads, current := r.current, processes := r.processes)
    && exists ts1, ts2 ::
         && Ended1(s.threads[s.current := s.threads[s.current].(state := Zombie, place := Gone)], s.processes,
                   s.current, status, ts1, r.processes)
         && AllWoken(ts1, ts2, Num(s.current)) && s.current < |ts2|
         && PassedOn(ts2, s.current, r.threads, r.current, false)
  }

  lemma MarkMeans(s: State, tid: int, status: int)
    requires |s.processes| == PROCESSES && Records(s.threads, s.processes, s.nextPid)
    ensures var r := MarkExited(s, tid, status);
      r == s.(threads := r.threads, processes := r.processes)
      && Ended1(s.threads, s.processes, tid, status, r.threads, r.processes)
  {
    var i := FindTid(s.processes, tid, 0);
    forall j | 0 <= j < PROCESSES && j != i
      ensures !IsRecord(s.processes[j], tid)
    {
      if i < j {
        assert DifferentProcesses(s.processes[i], s.processes[j]);
      }
    }
  }

  lemma LeaveMeans(s: State, status: int)
    requires Shape(s) && Inv(s)
    ensures Left(s, Exit(s, status), status)
  {
    hide Inv, PassedOn, NextFrom, Ended1, AllWoken, MarkExited;
    InvAll(s);
    var s1 := SetThread(s, s.current, Cur(s).(state := Zombie, place := Gone));
    SameRecords(s.threads, s1.threads, s.processes, s.nextPid);
    MarkMeans(s1, s.current, status);
    var m := MarkExited(s1, s.current, status);
    WakeupMeans(m, Num(s.current));
    Turn(Wakeup(m, Num(s.current)), false);
  }

  /** Process record i can be killed: it has not ended, and neither has its thread. */
  predicate Killable(s: State, i: nat, pid: int) {
    && i < |s.processes| && HasPid(s.processes[i], pid) && s.processes[i].state != Exited
    && 0 <= s.processes[i].tid < |s.threads|
    && (s.processes[i].tid == s.current
        || s.threads[s.processes[i].tid].state == Ready || s.threads[s.processes[i].tid].state == Running
        || s.threads[s.processes[i].tid].state == Blocked)
  }

  /** A kill ends exactly the thread and the process it is aimed at, with status
      -128 - sig; if there is no such process nothing changes. */
  ghost predicate Signalled(s: State, r: State, pid: int, sig: int)
    requires s.current < |s.threads|
  {
    && (forall i: nat :: Killable(s, i, pid) ==>
          if s.processes[i].tid == s.current then Left(s, r, -128 - sig)
          else KilledOther(s, r, s.processes[i].tid, -128 - sig))
    && ((forall i: nat :: !Killable(s, i, pid)) ==> r == s)
  }

  predicate KilledOther(s: State, r: State, tid: int, status: int) {
    && 0 <= tid < |s.threads| && r == s.(threads := r.threads, processes := r.processes)
    && Ended1(s.threads[tid := s.threads[tid].(state := Zombie, chan := Num(0))], s.processes, tid, status, r.threads,
      r.processes)
  }

  lemma SignalMeans(s: State, pid: int, sig: int)
    requires Shape(s) && Inv(s)
    ensures Signalled(s, KillProcess(s, pid, sig).0, pid, sig)
    ensures KillProcess(s, pid, sig).1 == (if exists i: nat :: Killable(s, i, pid) then 0 else -1)
  {
    hide Inv, Left, Exit, Ended1, MarkExited;
    InvAll(s);
    var i := FindPid(s.processes, pid, 0);
    OnePid(s, pid, i);
    forall j: nat | Killable(s, j, pid)
      ensures j == i
    {
    }
    if i < PROCESSES && s.processes[i].state != Exited {
      var tid := s.processes[i].tid;
      assert ProcessOk(s.processes[i], s.threads, s.nextPid);
      if tid == s.current {
        LeaveMeans(s, -128 - sig);
        assert Killable(s, i, pid);
      } else if s.threads[tid].state != Zombie {
        var s1 := SetThread(s, tid, s.threads[tid].(state := Zombie, chan := Num(0)));
        SameRecords(s.threads, s1.threads, s.processes, s.nextPid);
        MarkMeans(s1, tid, -128 - sig);
        assert Killable(s, i, pid);
      }
    }
  }

  lemma OnePid(s: State, pid: int, i: nat)
    requires |s.processes| == PROCESSES && Records(s.threads, s.processes, s.nextPid)
      && i == FindPid(s.processes, pid, 0)
    ensures forall j :: 0 <= j < PROCESSES && j != i ==> !HasPid(s.processes[j], pid)
    ensures i < PROCESSES ==> HasPid(s.processes[i], pid)
  {
    forall j | 0 <= j < PROCESSES && j != i
      ensures !HasPid(s.processes[j], pid)
    {
      if i < j {
        assert DifferentProcesses(s.processes[i], s.processes[j]);
      }
    }
  }

  // ---------------------------------------------------------------------------
  // Reading and writing

  /** The current thread is back in its own code, and the sleepers on the channel
      are awake. */
  predicate BackAndWoken(s: State, r: State, ch: Channel)
    requires s.current < |s.threads|
  {
    && |r.threads| == |s.threads|
    && r.threads[s.current] == s.threads[s.current].(place := Outside)
    && forall t :: 0 <= t < |s.threads| && t != s.current ==>
         r.threads[t] == if s.threads[t].state == Blocked && s.threads[t].chan == ch
                         then s.threads[t].(state := Ready, chan := Num(0)) else s.threads[t]
  }

  predicate Back(s: State, r: State)
    requires s.current < |s.threads|
  {
    r == s.(threads := s.threads[s.current := s.threads[s.current].(place := Outside)])
  }

  /** Byte k of a ring, from the oldest on. */
  function InRing(p: Pipe, k: nat): Byte
    requires |p.buf| == 1024
  {
    p.buf[(p.readPos + k) % 1024]
  }

  function Oldest(p: Pipe, n: nat): seq<Byte>
    requires |p.buf| == 1024
  {
    seq(n, k requires 0 <= k => InRing(p, k))
  }

  lemma RingAt(p: Pipe, k: nat)
    requires PipeShape(p) && k < p.count
    ensures Ring(p)[k] == InRing(p, k)
  {
  }

  /** A pass of pipe_read: what there is, up to len bytes, oldest first; nothing
      once no writer is left; else sleep. */
  predicate ReadDone(s: State, r: State, i: nat, len: nat)
    requires Shape(s)
  {
    if i >= 8 || !s.pipes[i].inUse then Back(s, r)
    else
      var p := s.pipes[i];
      var n := if p.count < len then p.count else len;
      if p.count > 0 then
        && r == s.(threads := r.threads, pipes := r.pipes, delivered := r.delivered) && BackAndWoken(s, r, PipeCh(i))
        && r.pipes == s.pipes[i := p.(readPos := (p.readPos + n) % 1024, count := p.count - n)]
        && r.delivered == s.delivered[i := s.delivered[i] + Oldest(p, n)]
      else if p.writers <= 0 then Back(s, r)
      else Slept(s, r, PipeCh(i), Reading(i, len))
  }

  lemma ReadMeans(s: State, i: nat, len: nat)
    requires Shape(s) && Cur(s).state != Blocked
    ensures ReadDone(s, ReadPass(s, i, len).0, i, len)
  {
    hide Slept, Sleep;
    if i < PIPES && s.pipes[i].inUse {
      var p := s.pipes[i];
      var n := if p.count < len then p.count else len;
      SleepMeans(s, PipeCh(i), Reading(i, len));
      assert p.count > 0 ==> Ring(p)[..n] == Oldest(p, n);
    }
  }

  /** From p to q the data was put behind what the ring held. */
  predicate Appended(p: Pipe, q: Pipe, data: seq<Byte>) {
    && |p.buf| == 1024 == |q.buf|
    && q == p.(buf := q.buf, writePos := (p.readPos + p.count + |data|) % 1024, count := p.count + |data|)
    && (forall k :: 0 <= k < p.count ==> InRing(q, k) == InRing(p, k))
    && (forall k :: 0 <= k < |data| ==> InRing(q, p.count + k) == data[k])
  }

  /** A pass of pipe_write: as much as there is room for; refused when no reader
      is left; else sleep. */
  predicate WriteDone(s: State, r: State, i: nat, data: seq<Byte>)
    requires Shape(s)
  {
    if i >= 8 || !s.pipes[i].inUse || s.pipes[i].readers <= 0 then Back(s, r)
    else
      var p := s.pipes[i];
      var n := if 1024 - p.count < |data| then 1024 - p.count else |data|;
      if p.count < 1024 then
        && r == s.(threads := r.threads, pipes := r.pipes, accepted := r.accepted) && BackAndWoken(s, r, PipeCh(i))
        && |r.pipes| == 8 && r.pipes == s.pipes[i := r.pipes[i]] && Appended(p, r.pipes[i], data[..n])
        && r.accepted == s.accepted[i := s.accepted[i] + data[..n]]
      else Slept(s, r, PipeCh(i), Writing(i, data))
  }

  lemma StoredMeans(p: Pipe, data: seq<Byte>)
    requires PipeShape(p) && p.count + |data| <= RING
    ensures Appended(p, Stored(p, data), data)
  {
    hide Stored, Ring, InRing, PipeShape;
    StoredRing(p, data);
    BehindRing(p, Stored(p, data), data);
  }

  lemma BehindRing(p: Pipe, q: Pipe, data: seq<Byte>)
    requires PipeShape(p) && PipeShape(q) && q == p.(buf := q.buf, writePos := q.writePos, count := p.count + |data|)
    requires Ring(q) == Ring(p) + data
    ensures Appended(p, q, data)
  {
    hide Ring, InRing, PipeShape;
    RingEnd(p);
    RingEnd(q);
    RingsAgree(p, q, data);
  }

  lemma RingEnd(p: Pipe)
    requires PipeShape(p)
    ensures p.writePos == (p.readPos + p.count) % 1024 && |p.buf| == 1024
  {
  }

  lemma RingsAgree(p: Pipe, q: Pipe, data: seq<Byte>)
    requires PipeShape(p) && PipeShape(q) && q.count == p.count + |data| && Ring(q) == Ring(p) + data
    ensures |p.buf| == 1024 == |q.buf|
    ensures forall k :: 0 <= k < p.count ==> InRing(q, k) == InRing(p, k)
    ensures forall k :: 0 <= k < |data| ==> InRing(q, p.count + k) == data[k]
  {
    hide Ring, InRing;
    forall k | 0 <= k < p.count
      ensures InRing(q, k) == InRing(p, k)
    {
      RingAt(p, k);
      RingAt(q, k);
    }
    forall k | 0 <= k < |data|
      ensures InRing(q, p.count + k) == data[k]
    {
      RingAt(q, p.count + k);
    }
  }

  lemma WriteMeans(s: State, i: nat, data: seq<Byte>)
    requires Shape(s) && Cur(s).state != Blocked
    ensures WriteDone(s, WritePass(s, i, data).0, i, data)
  {
    hide Slept, Sleep, Stored, Appended;
    if i < PIPES && s.pipes[i].inUse && s.pipes[i].readers > 0 {
      var p := s.pipes[i];
      var n := if 1024 - p.count < |data| then 1024 - p.count else |data|;
      SleepMeans(s, PipeCh(i), Writing(i, data));
      StoredMeans(p, data[..n]);
    }
  }

  // ---------------------------------------------------------------------------
  // Descriptors

  /** Descriptor f is the lowest from `from` up that is free. */
  predicate LowestFree(fds: seq<Fd>, from: nat, f: nat) {
    f < |fds| && from <= f && fds[f].kind == NoKind && forall g :: from <= g < f ==> fds[g].kind != NoKind
  }

  predicate NoneFree(fds: seq<Fd>, from: nat) {
    forall g :: from <= g < |fds| ==> fds[g].kind != NoKind
  }

  /** Thread c has descriptor f now. */
  predicate GotFd(s: State, r: State, f: nat, fd: Fd)
    requires s.current < |s.threads|
  {
    && f < |s.threads[s.current].fds|
    && r == s.(threads := s.threads[s.current := s.threads[s.current].(fds := s.threads[s.current].fds[f := fd])])
  }

  ghost predicate FileOpened(s: State, r: State, kind: FdKind, handle: int)
    requires s.current < |s.threads|
  {
    var fds := s.threads[s.current].fds;
    && (forall f: nat :: LowestFree(fds, 2, f) ==> GotFd(s, r, f, Fd(kind, handle, 0)))
    && (NoneFree(fds, 2) ==> r == s)
  }

  lemma OpenMeans(s: State, kind: FdKind, handle: int)
    requires Shape(s)
    ensures FileOpened(s, FdOpen(s, kind, handle).0, kind, handle)
    ensures forall f: nat :: LowestFree(Cur(s).fds, 2, f) ==> FdOpen(s, kind, handle).1 == f
    ensures NoneFree(Cur(s).fds, 2) ==> FdOpen(s, kind, handle).1 == -1
  {
    var g := FirstFd(Cur(s).fds, 2);
    forall f: nat | LowestFree(Cur(s).fds, 2, f)
      ensures f == g
    {
    }
  }

  /** One end of pipe i fewer; the pipe is free once both ends are gone, and its
      sleepers look again. */
  predicate EndClosed(s: State, r: State, i: int, reader: bool) {
    if i < 0 || i >= |s.pipes| || !s.pipes[i].inUse then r == s
    else
      var p := s.pipes[i];
      var readers := if reader && p.readers > 0 then p.readers - 1 else p.readers;
      var writers := if !reader && p.writers > 0 then p.writers - 1 else p.writers;
      && r == s.(threads := r.threads, pipes := r.pipes) && AllWoken(s.threads, r.threads, PipeCh(i))
      && r.pipes == s.pipes[i := p.(readers := readers, writers := writers, inUse := readers > 0 || writers > 0)]
  }

  /** Closing a descriptor takes its end from the pipe and frees the descriptor. */
  ghost predicate Closed(s: State, r: State, f: int)
    requires Shape(s)
  {
    if f < 0 || f >= 8 || s.threads[s.current].fds[f].kind == NoKind then r == s
    else
      var fd := s.threads[s.current].fds[f];
      exists m: State ::
        && (if fd.kind == PipeRead then EndClosed(s, m, fd.handle, true)
            else if fd.kind == PipeWrite then EndClosed(s, m, fd.handle, false) else m == s)
        && m.current == s.current && |m.threads| == |s.threads| && GotFd(m, r, f, Fd(NoKind, -1, 0))
  }

  lemma EndMeans(s: State, i: int)
    requires |s.pipes| == PIPES
    ensures EndClosed(s, CloseReader(s, i), i, true) && EndClosed(s, CloseWriter(s, i), i, false)
  {
  }

  lemma CloseMeans(s: State, f: int)
    requires Shape(s)
    ensures Closed(s, FdClose(s, f).0, f)
  {
    hide EndClosed, CloseReader, CloseWriter;
    if 0 <= f < FDS && Cur(s).fds[f].kind != NoKind {
      var fd := Cur(s).fds[f];
      EndMeans(s, fd.handle);
      var m := ReleaseFd(s, fd);
      assert GotFd(m, FdClose(s, f).0, f, Fd(NoKind, -1, 0));
    }
  }

  // ---------------------------------------------------------------------------
  // SYS_PIPE

  predicate FreePipe(ps: seq<Pipe>, i: nat) {
    i < |ps| && !ps[i].inUse && forall j :: 0 <= j < i ==> ps[j].inUse
  }

  predicate TwoFree(fds: seq<Fd>, a: nat, b: nat) {
    LowestFree(fds, 2, a) && LowestFree(fds, a + 1, b)
  }

  /** Pipe i is open and empty; descriptor a is its read end, b its write end. */
  predicate PipeMade(s: State, r: State, i: nat, a: nat, b: nat)
    requires Shape(s)
  {
    var th := s.threads[s.current];
    && i < 8 && a < b < 8
    && r == s.(threads := s.threads[s.current := th.(fds := th.fds[a := Fd(PipeRead, i, 0)][b := Fd(PipeWrite, i, 0)])],
               pipes := s.pipes[i := Pipe(true, s.pipes[i].buf, 0, 0, 0, 1, 1)],
               accepted := s.accepted[i := []], delivered := s.delivered[i := []])
  }

  /** Pipe i was opened and closed again, and a descriptor at most was touched. */
  ghost predicate PipeUndone(s: State, r: State, i: nat)
    requires Shape(s) && i < 8
  {
    var th := s.threads[s.current];
    && r == s.(threads := r.threads, pipes := r.pipes, accepted := s.accepted[i := []],
      delivered := s.delivered[i := []])
    && |r.pipes| == 8 && r.pipes == s.pipes[i := r.pipes[i]] && !r.pipes[i].inUse
    && (forall a: nat :: LowestFree(th.fds, 2, a) ==>
          AllWoken(s.threads[s.current := th.(fds := th.fds[a := Fd(NoKind, -1, 0)])], r.threads, PipeCh(i)))
    && (NoneFree(th.fds, 2) ==> AllWoken(s.threads, r.threads, PipeCh(i)))
  }

  /** The answer is the read end and the write end, both in the lowest free slots
      from 2 up; or -1 twice. */
  ghost predicate Piped(s: State, r: State, answer: (int, int))
    requires Shape(s)
  {
    var fds := s.threads[s.current].fds;
    && (forall i: nat, a: nat, b: nat ::
      FreePipe(s.pipes, i) && TwoFree(fds, a, b) ==> PipeMade(s, r, i, a, b) && answer == (a, b))
    && (forall i: nat :: FreePipe(s.pipes, i) && (forall a: nat, b: nat :: !TwoFree(fds, a, b)) ==>
          i < 8 && PipeUndone(s, r, i) && answer == (-1, -1))
    && ((forall i: nat :: !FreePipe(s.pipes, i)) ==> r == s && answer == (-1, -1))
  }

  lemma OnlyLowest(fds: seq<Fd>, from: nat, f: nat)
    requires LowestFree(fds, from, f)
    ensures FirstFd(fds, from) == f && forall g: nat :: LowestFree(fds, from, g) ==> g == f
  {
  }

  lemma LowestOrNone(fds: seq<Fd>, from: nat)
    requires from <= |fds|
    ensures var f := FirstFd(fds, from); if f < |fds| then LowestFree(fds, from, f) else NoneFree(fds, from)
  {
  }

  lemma OnlyFreePipe(ps: seq<Pipe>)
    ensures var i := FirstFree(ps, 0); forall j: nat :: FreePipe(ps, j) <==> i < |ps| && j == i
  {
  }

  /** The second search, once the first descriptor is taken. */
  lemma SecondFd(fds: seq<Fd>, a: nat, fd: Fd)
    requires LowestFree(fds, 2, a) && fd.kind != NoKind
    ensures var b := FirstFd(fds[a := fd], 2);
      if b < |fds| then LowestFree(fds, a + 1, b) else NoneFree(fds, a + 1)
  {
    var now := fds[a := fd];
    var b := FirstFd(now, 2);
    assert b != a;
    forall g | a + 1 <= g < b
      ensures fds[g].kind != NoKind
    {
      assert now[g].kind != NoKind;
    }
  }

  lemma PipesMean(s: State)
    requires Shape(s)
    ensures Piped(s, SysPipe(s).0, SysPipe(s).1)
  {
    hide FirstFree, FirstFd, PipeMade, PipeUndone, SysPipe, LowestFree, NoneFree, FreePipe;
    var i := FirstFree(s.pipes, 0);
    OnlyFreePipe(s.pipes);
    var fds := Cur(s).fds;
    if i < PIPES {
      LowestOrNone(fds, 2);
      var a := FirstFd(fds, 2);
      if a < FDS {
        SecondFd(fds, a, Fd(PipeRead, i, 0));
        var b := FirstFd(fds[a := Fd(PipeRead, i, 0)], 2);
        if b < FDS {
          OnlyTwo(fds, a, b);
          BothOpened(s, i, a, b);
          assert FreePipe(s.pipes, i);
          assert SysPipe(s).1 == (a, b);
          assert forall i: nat, a: nat, b: nat ::
            FreePipe(s.pipes, i) && TwoFree(fds, a, b) ==> PipeMade(s, SysPipe(s).0, i, a, b);
          assert forall i: nat, a: nat, b: nat :: FreePipe(s.pipes, i) && TwoFree(fds, a, b) ==> SysPipe(s).1 == (a, b);
        } else {
          NoSecond(fds, a);
          FailedSecond(s, i, a);
          assert FreePipe(s.pipes, i);
          assert forall i: nat, a: nat, b: nat :: FreePipe(s.pipes, i) ==> !TwoFree(fds, a, b);
        }
      } else {
        NoFirst(fds);
        FailedFirst(s, i);
      }
    } else {
      assert SysPipe(s) == (s, (-1, -1)) by {
        NoPipeLeft(s);
      }
    }
  }

  lemma NoPipeLeft(s: State)
    requires Shape(s) && FirstFree(s.pipes, 0) == PIPES
    ensures SysPipe(s) == (s, (-1, -1))
  {
  }

  lemma OnlyTwo(fds: seq<Fd>, a: nat, b: nat)
    requires LowestFree(fds, 2, a) && LowestFree(fds, a + 1, b)
    ensures TwoFree(fds, a, b) && a < b && forall x: nat, y: nat :: TwoFree(fds, x, y) ==> x == a && y == b
  {
    OnlyLowest(fds, 2, a);
    OnlyLowest(fds, a + 1, b);
  }

  lemma NoFirst(fds: seq<Fd>)
    requires NoneFree(fds, 2)
    ensures forall x: nat, y: nat :: !TwoFree(fds, x, y)
  {
  }

  lemma NoSecond(fds: seq<Fd>, a: nat)
    requires LowestFree(fds, 2, a) && NoneFree(fds, a + 1)
    ensures forall x: nat, y: nat :: !TwoFree(fds, x, y)
  {
    OnlyLowest(fds, 2, a);
  }

  lemma BothOpened(s: State, i: nat, a: nat, b: nat)
    requires Shape(s) && i == FirstFree(s.pipes, 0) < PIPES && a == FirstFd(Cur(s).fds, 2) < FDS
    requires b == FirstFd(Cur(s).fds[a := Fd(PipeRead, i, 0)], 2) < FDS && a < b
    ensures PipeMade(s, SysPipe(s).0, i, a, b) && SysPipe(s).1 == (a as int, b as int)
  {
    hide FirstFree, FirstFd;
    var s1 := SetPipe(s, i, Opened(s.pipes[i])).(accepted := s.accepted[i := []], delivered := s.delivered[i := []]);
    var s2 := SetFd(s1, s.current, a, Fd(PipeRead, i, 0));
    assert FdOpen(s1, PipeRead, i) == (s2, a as int);
    var s3 := SetFd(s2, s.current, b, Fd(PipeWrite, i, 0));
    assert FdOpen(s2, PipeWrite, i) == (s3, b as int);
    var th := Cur(s);
    assert s3.threads == s.threads[s.current := th.(fds := th.fds[a := Fd(PipeRead, i, 0)][b := Fd(PipeWrite, i, 0)])];
  }

  lemma FailedFirst(s: State, i: nat)
    requires Shape(s) && i == FirstFree(s.pipes, 0) < PIPES && FirstFd(Cur(s).fds, 2) == FDS && NoneFree(Cur(s).fds, 2)
    ensures PipeUndone(s, SysPipe(s).0, i) && SysPipe(s).1 == (-1, -1)
  {
    hide FirstFree, FirstFd;
    var s1 := SetPipe(s, i, Opened(s.pipes[i])).(accepted := s.accepted[i := []], delivered := s.delivered[i := []]);
    assert FdOpen(s1, PipeRead, i) == (s1, -1) && FdOpen(s1, PipeWrite, i) == (s1, -1);
    ClosedBoth(s1, i);
  }

  lemma FailedSecond(s: State, i: nat, a: nat)
    requires Shape(s) && i == FirstFree(s.pipes, 0) < PIPES && a == FirstFd(Cur(s).fds, 2)
      && LowestFree(Cur(s).fds, 2, a)
    requires FirstFd(Cur(s).fds[a := Fd(PipeRead, i, 0)], 2) == FDS
    ensures PipeUndone(s, SysPipe(s).0, i) && SysPipe(s).1 == (-1, -1)
  {
    hide FirstFree, FirstFd;
    OnlyLowest(Cur(s).fds, 2, a);
    var s1 := SetPipe(s, i, Opened(s.pipes[i])).(accepted := s.accepted[i := []], delivered := s.delivered[i := []]);
    var s2 := SetFd(s1, s.current, a, Fd(PipeRead, i, 0));
    assert FdOpen(s1, PipeRead, i) == (s2, a as int);
    assert FdOpen(s2, PipeWrite, i) == (s2, -1);
    var s3 := SetFd(s2, s.current, a, NO_FD);
    assert FdUnset(s2, a) == s3 && FdUnset(s3, -1) == s3;
    ClosedBoth(s3, i);
    assert Cur(s).fds[a := Fd(PipeRead, i, 0)][a := NO_FD] == Cur(s).fds[a := NO_FD];
    assert s3.threads == s.threads[s.current := Cur(s).(fds := Cur(s).fds[a := NO_FD])];
  }

  lemma ClosedBoth(s: State, i: nat)
    requires |s.pipes| == PIPES && i < PIPES && s.pipes[i].inUse && s.pipes[i].readers == 1 == s.pipes[i].writers
    ensures var r := CloseWriter(CloseReader(s, i), i);
      && r == s.(threads := r.threads, pipes := r.pipes) && r.pipes == s.pipes[i := r.pipes[i]] && !r.pipes[i].inUse
      && AllWoken(s.threads, r.threads, PipeCh(i))
  {
  }

  // ---------------------------------------------------------------------------
  // Spawning

  predicate LowestUnused(ts: seq<Thread>, t: nat) {
    t < |ts| && ts[t].state == Unused && forall u :: 0 <= u < t ==> ts[u].state != Unused
  }

  predicate NoneUnused(ts: seq<Thread>) {
    forall u :: 0 <= u < |ts| ==> ts[u].state != Unused
  }

  /** Ready, with a full quantum of its priority, the console as descriptors 0 and
      1, and no other descriptor. */
  predicate NewlyMade(t: Thread, prio: Priority) {
    && t.state == Ready && t.prio == prio && t.ticks == FullQuantum(prio) && t.place == Outside && |t.fds| == 8
    && t.fds[0] == t.fds[1] == Fd(Console, 0, 0)
    && forall f :: 2 <= f < 8 ==> t.fds[f] == Fd(NoKind, -1, 0)
  }

  /** A thread in the lowest unused slot, in a table of twice the size if there is
      none and memory allows. */
  ghost predicate ThreadMade(s: State, r: State, prio: Priority, memory: Memory, tid: int) {
    && r == s.(threads := r.threads)
    && (forall t: nat :: LowestUnused(s.threads, t) ==>
          if memory.stack then
            && tid == t && |r.threads| == |s.threads| && r.threads == s.threads[t := r.threads[t]]
            && NewlyMade(r.threads[t], prio)
          else r == s && tid == -1)
    && (NoneUnused(s.threads) ==>
          if !memory.table then r == s && tid == -1
          else
            && |r.threads| == 2 * |s.threads| && r.threads[..|s.threads|] == s.threads
            && (if !memory.stack then tid == -1
                else |s.threads| > 0 ==> tid == |s.threads| && NewlyMade(r.threads[tid], prio))
            && forall u :: |s.threads| <= u < |r.threads| && u != tid ==> r.threads[u].state == Unused)
  }

  lemma OnlyUnused(ts: seq<Thread>)
    ensures var t := FirstUnused(ts, 0);
      if t < |ts| then LowestUnused(ts, t) && !NoneUnused(ts) && forall u: nat :: LowestUnused(ts, u) ==> u == t
      else NoneUnused(ts) && forall u: nat :: !LowestUnused(ts, u)
  {
  }

  lemma MadeMeans(t: Thread, prio: Priority)
    ensures NewlyMade(Spawned(t, prio), prio)
  {
  }

  lemma SpawnMeans(s: State, prio: Priority, memory: Memory)
    requires Shape(s)
    ensures ThreadMade(s, Spawn(s, prio, memory).0, prio, memory, Spawn(s, prio, memory).1)
  {
    hide FirstUnused, Spawned, NewlyMade, LowestUnused, NoneUnused;
    OnlyUnused(s.threads);
    var slot := FirstUnused(s.threads, 0);
    if slot < |s.threads| {
      MadeMeans(s.threads[slot], prio);
    } else {
      MadeMeans(FRESH, prio);
      FreshUnused();
      var more := s.threads + seq(|s.threads|, _ => FRESH);
      assert more[slot := Spawned(FRESH, prio)][..|s.threads|] == s.threads && more[..|s.threads|] == s.threads;
    }
  }

  lemma FreshUnused()
    ensures FRESH.state == Unused
  {
  }

  predicate LowestProcess(ps: seq<Process>, i: nat) {
    i < |ps| && ps[i].state == NoProcess && forall j :: 0 <= j < i ==> ps[j].state != NoProcess
  }

  /** The process of the current thread, 0 for a kernel thread. */
  predicate CallerIs(s: State, pid: nat) {
    && (forall j :: 0 <= j < |s.processes| && IsRecord(s.processes[j], s.current) ==> pid == s.processes[j].pid)
    && ((forall j :: 0 <= j < |s.processes| ==> !IsRecord(s.processes[j], s.current)) ==> pid == 0)
  }

  function Nobody(): Process {
    Process(0, -1, 0, 0, NoProcess)
  }

  /** A process with the next pid, whose parent is the caller, and its thread; or
      nothing but a used-up pid when there is no thread. */
  ghost predicate ProcessMade(s: State, r: State, memory: Memory, pid: int) {
    && (forall i: nat, parent: nat, tid: int ::
      LowestProcess(s.processes, i) && CallerIs(s, parent) && MadeIn(s, r, memory, tid) ==>
          && r.nextPid == s.nextPid + 1
          && if tid < 0 then pid == -1 && r.processes == s.processes[i := Nobody()]
             else pid == s.nextPid && r.processes == s.processes[i := Process(s.nextPid, tid, parent, -1, Starting)])
    && ((forall i: nat :: !LowestProcess(s.processes, i)) ==> r == s && pid == -1)
    && ((exists i: nat :: LowestProcess(s.processes, i)) ==> exists tid: int :: MadeIn(s, r, memory, tid))
  }

  /** The threads of r are those of s and a new one of normal priority, and
      pipes and descriptors of the others are as they were. */
  ghost predicate MadeIn(s: State, r: State, memory: Memory, tid: int) {
    && r == s.(threads := r.threads, processes := r.processes, nextPid := r.nextPid)
    && ThreadMade(s, s.(threads := r.threads), Normal, memory, tid)
  }

  lemma CallerMeans(s: State)
    requires Shape(s) && Inv(s)
    ensures forall p: nat :: CallerIs(s, p) <==> p == CurrentPid(s)
  {
    InvAll(s);
    var i := FindTid(s.processes, s.current, 0);
    forall j | 0 <= j < PROCESSES && j != i
      ensures !IsRecord(s.processes[j], s.current)
    {
      if i < j {
        assert DifferentProcesses(s.processes[i], s.processes[j]);
      }
    }
  }

  lemma OnlyProcess(ps: seq<Process>)
    ensures var i := FirstProcess(ps, 0); forall j: nat :: LowestProcess(ps, j) <==> i < |ps| && j == i
  {
  }

  /** What ThreadMade says does not depend on pipes and records. */
  lemma ThreadOnly(s: State, s1: State, prio: Priority, memory: Memory)
    requires Shape(s) && Shape(s1) && s1.threads == s.threads
    ensures var (r, tid) := Spawn(s1, prio, memory);
      && r == s1.(threads := r.threads) && ThreadMade(s, s.(threads := r.threads), prio, memory, tid)
  {
    hide NewlyMade, LowestUnused, NoneUnused, Spawn;
    SpawnMeans(s1, prio, memory);
    var (r, tid) := Spawn(s1, prio, memory);
    assert r == s1 ==> s.(threads := r.threads) == s;
  }

  lemma OneThread(s: State, r: State, memory: Memory, tid: int, tid': int)
    requires |s.threads| > 0 && MadeIn(s, r, memory, tid) && MadeIn(s, r, memory, tid')
    ensures tid == tid'
  {
    hide NewlyMade;
    OnlyUnused(s.threads);
    var t := FirstUnused(s.threads, 0);
    if t < |s.threads| {
      assert LowestUnused(s.threads, t);
    }
  }

  lemma SpawnProcessMeans(s: State, memory: Memory)
    requires Shape(s) && Inv(s)
    ensures ProcessMade(s, SpawnProcess(s, memory).0, memory, SpawnProcess(s, memory).1)
  {
    hide Inv, Spawn, FindPid, FirstProcess, CurrentPid, ThreadMade, LowestProcess, CallerIs;
    InvShape(s);
    OnlyProcess(s.processes);
    CallerMeans(s);
    var i := FirstProcess(s.processes, 0);
    if i < PROCESSES {
      assert LowestProcess(s.processes, i);
      var p := Process(s.nextPid, -1, CurrentPid(s), -1, Starting);
      var s1 := SetProcess(s, i, p).(nextPid := s.nextPid + 1);
      ThreadOnly(s, s1, Normal, memory);
      var (q, tid) := Spawn(s1, Normal, memory);
      FreshPid(s, i, p);
      var (r, pid) := SpawnProcess(s, memory);
      assert r.threads == q.threads;
      assert MadeIn(s, r, memory, tid);
      assert tid < 0 ==> r.processes == s.processes[i := Nobody()];
      assert tid >= 0 ==> r.processes == s.processes[i := p.(tid := tid)];
      forall other: int | MadeIn(s, r, memory, other)
        ensures other == tid
      {
        OneThread(s, r, memory, tid, other);
      }
    }
  }

  // ---------------------------------------------------------------------------
  // Redirection

  /** Descriptor f of the caller is an end of this kind. */
  predicate HasEnd(s: State, f: int, kind: FdKind)
    requires Shape(s)
  {
    0 <= f < 8 && s.threads[s.current].fds[f].kind == kind
  }

  /** Thread t reads from the pipe that the caller's descriptor `stdin` reads from
      and writes to the one `stdout` writes to; each shared end counts once more. */
  predicate Redirected(s: State, r: State, t: nat, stdin: int, stdout: int)
    requires Shape(s) && t < |s.threads|
  {
    var fds := s.threads[s.current].fds;
    var rd := HasEnd(s, stdin, PipeRead);
    var wr := HasEnd(s, stdout, PipeWrite);
    var mine := s.threads[t].fds;
    var fds1 := if rd then mine[0 := Fd(PipeRead, fds[stdin].handle, 0)] else mine;
    && r == s.(threads := s.threads[t := s.threads[t].(fds :=
                 if wr then fds1[1 := Fd(PipeWrite, fds[stdout].handle, 0)] else fds1)], pipes := r.pipes)
    && |r.pipes| == 8
    && forall i :: 0 <= i < 8 ==> r.pipes[i] == s.pipes[i].(
         readers := s.pipes[i].readers + (if rd && fds[stdin].handle == i then 1 else 0),
         writers := s.pipes[i].writers + (if wr && fds[stdout].handle == i then 1 else 0))
  }

  lemma RedirectsMean(s: State, t: nat, stdin: int, stdout: int)
    requires Shape(s) && Inv(s) && t < |s.threads| && t != s.current
    ensures Redirected(s, RedirectOut(RedirectIn(s, t, stdin), t, stdout), t, stdin, stdout)
  {
    hide Inv, PipeShape;
    if HasEnd(s, stdin, PipeRead) {
      NamedInUse(s, s.current, stdin);
    }
    if HasEnd(s, stdout, PipeWrite) {
      NamedInUse(s, s.current, stdout);
    }
    var s1 := RedirectIn(s, t, stdin);
    InMeans(s, t, stdin);
    OutMeans(s1, t, stdout);
  }

  lemma InMeans(s: State, t: nat, f: int)
    requires Shape(s) && t < |s.threads| && t != s.current
    requires HasEnd(s, f, PipeRead) ==> var h := s.threads[s.current].fds[f].handle; 0 <= h < 8 && s.pipes[h].inUse
    ensures var r := RedirectIn(s, t, f);
      && Shape(r) && r.current == s.current && |r.threads| == |s.threads|
      && r.threads[s.current] == s.threads[s.current]
      && if HasEnd(s, f, PipeRead) then
           var h := s.threads[s.current].fds[f].handle;
           r == s.(threads := s.threads[t := s.threads[t].(fds := s.threads[t].fds[0 := Fd(PipeRead, h, 0)])],
                   pipes := s.pipes[h := s.pipes[h].(readers := s.pipes[h].readers + 1)])
         else r == s
  {
  }

  lemma OutMeans(s: State, t: nat, f: int)
    requires Shape(s) && t < |s.threads| && t != s.current
    requires HasEnd(s, f, PipeWrite) ==> var h := s.threads[s.current].fds[f].handle; 0 <= h < 8 && s.pipes[h].inUse
    ensures var r := RedirectOut(s, t, f);
      if HasEnd(s, f, PipeWrite) then
        var h := s.threads[s.current].fds[f].handle;
        r == s.(threads := s.threads[t := s.threads[t].(fds := s.threads[t].fds[1 := Fd(PipeWrite, h, 0)])],
                pipes := s.pipes[h := s.pipes[h].(writers := s.pipes[h].writers + 1)])
      else r == s
  {
  }

  /** A process is made, and its thread redirected. */
  ghost predicate Launched(s: State, r: State, memory: Memory, stdin: int, stdout: int) {
    exists m: State, pid: int :: ProcessMade(s, m, memory, pid) && Shape(m) && IsLaunch(m, r, pid, stdin, stdout)
  }

  predicate IsLaunch(m: State, r: State, pid: int, stdin: int, stdout: int)
    requires Shape(m)
  {
    if pid < 0 then r == m
    else exists i :: 0 <= i < 64 && HasPid(m.processes[i], pid) && 0 <= m.processes[i].tid < |m.threads|
                     && Redirected(m, r, m.processes[i].tid, stdin, stdout)
  }

  lemma LaunchMeans(s: State, memory: Memory, stdin: int, stdout: int)
    requires Shape(s) && Inv(s)
    ensures Launched(s, SpawnRedirect(s, memory, stdin, stdout).0, memory, stdin, stdout)
  {
    hide Inv, SpawnProcess, ProcessMade, Redirected, RedirectIn, RedirectOut;
    SpawnProcessMeans(s, memory);
    SpawnProcessKeeps(s, memory);
    var (m, pid) := SpawnProcess(s, memory);
    InvShape(m);
    if pid >= 0 {
      var i := FindPid(m.processes, pid, 0);
      RedirectsMean(m, m.processes[i].tid, stdin, stdout);
    }
    assert IsLaunch(m, SpawnRedirect(s, memory, stdin, stdout).0, pid, stdin, stdout);
  }

  // ---------------------------------------------------------------------------
  // Waiting for a child

  /** One of these descriptors is an end of the pipe with this channel. */
  predicate Names(fds: seq<Fd>, from: nat, ch: Channel) {
    exists f :: from <= f < |fds| && IsEndOf(fds[f], ch)
  }

  predicate IsEndOf(fd: Fd, ch: Channel) {
    ch.PipeCh? && (fd.kind == PipeRead || fd.kind == PipeWrite) && fd.handle == ch.idx
  }

  function Freed(t: Thread): Thread {
    if t.state == Blocked then t.(state := Ready, chan := Num(0)) else t
  }

  /** The descriptors from `from` on of a thread are closed: who sleeps on one of
      their pipes is awake, and only the ends of pipes changed. */
  predicate AllClosed(ts: seq<Thread>, pipes: seq<Pipe>, fds: seq<Fd>, from: nat, ts': seq<Thread>, pipes': seq<Pipe>) {
    && |ts'| == |ts| && |pipes'| == |pipes|
    && (forall u :: 0 <= u < |ts| ==> ts'[u] == if Names(fds, from, ts[u].chan) then Freed(ts[u]) else ts[u])
    && (forall i :: 0 <= i < |pipes| ==>
          pipes'[i] == pipes[i].(inUse := pipes'[i].inUse, readers := pipes'[i].readers, writers := pipes'[i].writers))
  }

  lemma {:induction false} CleanupMeans(s: State, t: nat, f: nat)
    requires Shape(s) && Reaping(s, t, f) && t < |s.threads| && f <= FDS && s.threads[t].state == Zombie
    ensures var r := Cleanup(s, t, f); AllClosed(s.threads, s.pipes, s.threads[t].fds, f, r.threads, r.pipes)
    decreases FDS - f
  {
    hide Reaping, ReleaseFd, Shape;
    ShapeSizes(s, t);
    var fds := s.threads[t].fds;
    if f < FDS {
      var m := ReleaseFd(s, fds[f]);
      ReapingMore(s, t, f);
      CleanupMeans(m, t, f + 1);
      ReleaseMeans(s, t, f);
      ClosedTwice(s, m, Cleanup(m, t, f + 1), fds, f);
    } else {
      assert forall u :: 0 <= u < |s.threads| ==> !Names(fds, f, s.threads[u].chan);
    }
  }

  lemma ShapeSizes(s: State, t: nat)
    requires Shape(s) && t < |s.threads|
    ensures |s.pipes| == PIPES && |s.threads[t].fds| == FDS && s.current < |s.threads|
  {
  }

  lemma ClosedTwice(s: State, m: State, r: State, fds: seq<Fd>, f: nat)
    requires f < |fds| && AllClosed(s.threads, s.pipes, fds[..f + 1], f, m.threads, m.pipes)
    requires AllClosed(m.threads, m.pipes, fds, f + 1, r.threads, r.pipes)
    ensures AllClosed(s.threads, s.pipes, fds, f, r.threads, r.pipes)
  {
    forall u | 0 <= u < |s.threads|
      ensures r.threads[u] == if Names(fds, f, s.threads[u].chan) then Freed(s.threads[u]) else s.threads[u]
    {
      OneOrMore(fds, f, s.threads[u].chan);
    }
  }

  lemma OneOrMore(fds: seq<Fd>, f: nat, ch: Channel)
    requires f < |fds|
    ensures Names(fds, f, ch) <==> IsEndOf(fds[f], ch) || Names(fds, f + 1, ch)
    ensures Names(fds[..f + 1], f, ch) <==> IsEndOf(fds[f], ch)
    ensures !Names(fds, f, Num(0))
  {
  }

  lemma ReleaseMeans(s: State, t: nat, f: nat)
    requires Shape(s) && Reaping(s, t, f) && t < |s.threads| && f < FDS && s.threads[t].state == Zombie
    ensures var r := ReleaseFd(s, s.threads[t].fds[f]);
      AllClosed(s.threads, s.pipes, s.threads[t].fds[..f + 1], f, r.threads, r.pipes)
  {
    hide Core, Records, Refs, Names;
    var fd := s.threads[t].fds[f];
    forall u | 0 <= u < |s.threads|
      ensures Names(s.threads[t].fds[..f + 1], f, s.threads[u].chan) <==> IsEndOf(fd, s.threads[u].chan)
    {
      OneOrMore(s.threads[t].fds, f, s.threads[u].chan);
    }
    if fd.kind == PipeRead || fd.kind == PipeWrite {
      StillNamed(s, t, f);
      EndMeans(s, fd.handle);
    }
  }

  lemma StillNamed(s: State, t: nat, f: nat)
    requires Shape(s) && Reaping(s, t, f) && t < |s.threads| && f < FDS
    requires s.threads[t].fds[f].kind == PipeRead || s.threads[t].fds[f].kind == PipeWrite
    ensures 0 <= s.threads[t].fds[f].handle < PIPES && s.pipes[s.threads[t].fds[f].handle].inUse
  {
    var fd := s.threads[t].fds[f];
    assert HandleOk(fd);
    var i: nat := fd.handle;
    assert CountsOk(s.threads, s.pipes[i], i, Below(t, f));
    RefMember(s.threads, fd.kind, i, t, f);
    assert (t, f) in Refs(s.threads, fd.kind, i) - Below(t, f);
  }

  /** No descriptor, channel or place is left of the thread. */
  predicate Vacated(a: Thread, b: Thread) {
    && b == a.(state := Unused, chan := Num(0), fds := b.fds, place := Outside) && |b.fds| == 8
    && forall f :: 0 <= f < 8 ==> b.fds[f] == Fd(NoKind, -1, 0)
  }

  /** Zombie t is gone and its descriptors are closed; there is none, no change. */
  ghost predicate Reaped(s: State, r: State, t: int)
    requires Shape(s)
  {
    if t < 0 || t >= |s.threads| || t == s.current || s.threads[t].state != Zombie then r == s
    else
      && r == s.(threads := r.threads, pipes := r.pipes) && |r.threads| == |s.threads|
      && Vacated(s.threads[t], r.threads[t])
      && AllClosed(s.threads, s.pipes, s.threads[t].fds, 0, r.threads[t := s.threads[t]], r.pipes)
  }

  lemma ReapMeans(s: State, t: int)
    requires Shape(s) && Inv(s)
    ensures Reaped(s, Reap(s, t), t)
  {
    hide Inv, Names, ReleaseFd, PipeShape;
    if 0 <= t < |s.threads| && t != s.current && s.threads[t].state == Zombie {
      StartReaping(s, t);
      CleanupMeans(s, t, 0);
      CleanupKeeps(s, t, 0);
      var m := Cleanup(s, t, 0);
      var r := Reap(s, t);
      assert r.threads[t := s.threads[t]] == m.threads;
    }
  }

  lemma StartReaping(s: State, t: nat)
    requires Inv(s)
    ensures Reaping(s, t, 0)
  {
    assert Below(t, 0) == {};
  }

  /** The answer of a pass of process_wait: refused for all but the parent; the
      status of an ended child, whose record and thread go; else sleep. */
  ghost predicate WaitDone(s: State, r: State, pid: nat, answer: Outcome)
    requires Shape(s)
  {
    && (forall i: nat, caller: nat :: i < 64 && HasPid(s.processes[i], pid) && CallerIs(s, caller) ==>
          if s.processes[i].parent != caller then Back(s, r) && answer == Done(-1, [])
          else if s.processes[i].state == Exited then Collected(s, r, i) && answer == Ended(s.processes[i].status)
          else Slept(s, r, Num(pid), Waiting(pid)) && answer == Asleep)
    && ((forall i :: 0 <= i < 64 ==> !HasPid(s.processes[i], pid)) ==> Back(s, r) && answer == Done(-1, []))
  }

  ghost predicate Collected(s: State, r: State, i: nat)
    requires Shape(s) && i < 64
  {
    exists m: State ::
      && Reaped(s, m, s.processes[i].tid) && s.current < |m.threads|
      && r == m.(threads := m.threads[s.current := m.threads[s.current].(place := Outside)],
                 processes := s.processes[i := Nobody()])
  }

  lemma WaitMeans(s: State, pid: nat)
    requires Shape(s) && Inv(s)
    ensures WaitDone(s, WaitPass(s, pid).0, pid, WaitPass(s, pid).1)
  {
    hide Inv, Reap, Reaped, Sleep, Slept, CurrentPid, CallerIs, FindPid, Collected;
    InvAll(s);
    var i := FindPid(s.processes, pid, 0);
    OnePid(s, pid, i);
    CallerMeans(s);
    SleepMeans(s, Num(pid), Waiting(pid));
    if i < PROCESSES && s.processes[i].state == Exited {
      RecordTid(s, i);
      ReapMeans(s, s.processes[i].tid);
      GoneMeans(s, Reap(s, s.processes[i].tid), pid, i);
    }
  }

  lemma GoneMeans(s: State, m: State, pid: nat, i: nat)
    requires Shape(s) && i == FindPid(s.processes, pid, 0) < PROCESSES && Reaped(s, m, s.processes[i].tid)
    requires m == s.(threads := m.threads, pipes := m.pipes) && |m.threads| == |s.threads|
    ensures Collected(s, Finish(Released(m, pid)), i)
  {
    hide Reaped;
  }

  // ---------------------------------------------------------------------------
  // Every event

  /** A thread that is not halted goes on in the loop of its call. */
  ghost predicate WentOn(s: State, r: State)
    requires Shape(s)
  {
    var th := s.threads[s.current];
    if th.state == Blocked || th.state == Zombie then r == s
    else
      var m := s.(threads := s.threads[s.current := th.(state := Running)]);
      Shape(m) && match th.place
      case Reading(i, len) => ReadDone(m, r, i, len)
      case Writing(i, data) => WriteDone(m, r, i, data)
      case Waiting(pid) => exists answer :: WaitDone(m, r, pid, answer)
      case _ => r == m
  }

  ghost predicate Loaded(s: State, r: State) {
    && (forall i: nat :: i < |s.processes| && IsRecord(s.processes[i], s.current) ==>
          r == s.(processes := s.processes[i := s.processes[i].(state := Live)]))
    && ((forall i: nat :: i < |s.processes| ==> !IsRecord(s.processes[i], s.current)) ==> r == s)
  }

  /** What the event does, in state s. */
  ghost predicate Effect(s: State, e: Event, r: State)
    requires Shape(s)
  {
    var th := s.threads[s.current];
    if e == TimerTick then Ticked(s, r)
    else if e == KeyPress then r == s.(threads := r.threads) && AllWoken(s.threads, r.threads, Keyboard)
    else if e == Retry then WentOn(s, r)
    else if th.state != Running || th.place != Outside then r == s
    else CallEffect(s, e, r)
  }

  /** A system call of the running thread. */
  ghost predicate CallEffect(s: State, e: Event, r: State)
    requires Shape(s)
  {
    var fds := s.threads[s.current].fds;
    match e
    case Pipes => exists answer :: Piped(s, r, answer)
    case Close(f) => Closed(s, r, f)
    case OpenFile(kind, handle) => if kind == MemFs || kind == UfsFile then FileOpened(s, r, kind, handle) else r == s
    case ReadFd(f, len) =>
      if HasEnd(s, f, PipeRead) && fds[f].handle >= 0 then ReadDone(s, r, fds[f].handle, len) else r == s
    case WriteFd(f, data) =>
      if HasEnd(s, f, PipeWrite) && fds[f].handle >= 0 then WriteDone(s, r, fds[f].handle, data) else r == s
    case NewThread(prio, memory) => exists tid :: ThreadMade(s, r, prio, memory, tid)
    case NewProcess(memory, stdin, stdout) => Launched(s, r, memory, stdin, stdout)
    case ImageLoaded => Loaded(s, r)
    case Wait(pid) => exists answer :: WaitDone(s, r, pid, answer)
    case Leave(status) => Left(s, r, status)
    case Signal(pid, sig) => Signalled(s, r, pid, sig)
    case SleepOn(ch) => Slept(s, r, ch, Outside)
    case GiveUp => Yielded(s, r)
    case SetPriority(tid, prio) =>
      if 0 <= tid < |s.threads| then r == s.(threads := s.threads[tid := s.threads[tid].(prio := prio)]) else r == s
    case _ => r == s
  }

  lemma LoadMeans(s: State)
    requires Shape(s) && Inv(s)
    ensures var i := FindTid(s.processes, s.current, 0);
      Loaded(s, if i < PROCESSES then SetProcess(s, i, s.processes[i].(state := Live)) else s)
  {
    hide Core, Counted;
    var i := FindTid(s.processes, s.current, 0);
    forall j | 0 <= j < PROCESSES && j != i
      ensures !IsRecord(s.processes[j], s.current)
    {
      assert i < j ==> DifferentProcesses(s.processes[i], s.processes[j]);
    }
  }

  lemma RetryMeans(s: State)
    requires Shape(s) && Inv(s)
    ensures WentOn(s, Resumed(s))
  {
    hide Inv, ReadPass, WritePass, WaitPass, ReadDone, WriteDone, WaitDone, PipeShape;
    if Cur(s).state != Blocked && Cur(s).state != Zombie {
      CurrentHolds(s);
      InvShape(s);
      var th := Cur(s).(state := Running);
      OneMoves(s.threads, s.current, th);
      var m := SetThread(s, s.current, th);
      QuietKeeps(s, m);
      InvShape(m);
      match Cur(s).place
      case Reading(i, len) => ReadMeans(m, i, len);
      case Writing(i, data) => WriteMeans(m, i, data);
      case Waiting(pid) => WaitMeans(m, pid);
      case _ =>
    }
  }

  /** Every step has exactly the effect described above. */
  lemma StepMeans(s: State, e: Event)
    requires Shape(s) && Inv(s)
    ensures Effect(s, e, Step(s, e))
  {
    hide Inv, Tick, Yield, Resumed, SysPipe, FdClose, FdOpen, ReadPass, WritePass, WaitPass, Spawn, SpawnRedirect, Exit,
         KillProcess, Sleep, FindTid, Ticked, Yielded, Slept, Piped, Closed, FileOpened, ReadDone, WriteDone,
           ThreadMade,
         Launched, Loaded, WaitDone, Left, Signalled, WentOn, AllWoken;
    if e == TimerTick {
      TickMeans(s);
    } else if e == KeyPress {
      WakeupMeans(s, Keyboard);
    } else if e == Retry {
      RetryMeans(s);
    } else if InOwnCode(s) {
      CallMeans(s, e);
    }
  }

  lemma CallMeans(s: State, e: Event)
    requires Shape(s) && Inv(s) && InOwnCode(s) && e != TimerTick && e != KeyPress && e != Retry
    ensures CallEffect(s, e, Step(s, e))
  {
    hide Inv, Tick, Yield, Resumed, SysPipe, FdClose, FdOpen, ReadPass, WritePass, WaitPass, Spawn, SpawnRedirect, Exit,
         KillProcess, Sleep, FindTid, Ticked, Yielded, Slept, Piped, Closed, FileOpened, ReadDone, WriteDone,
           ThreadMade,
         Launched, Loaded, WaitDone, Left, Signalled, WentOn, AllWoken;
    match e
    case Pipes => PipesMean(s);
    case Close(f) => CloseMeans(s, f);
    case OpenFile(kind, handle) => OpenMeans(s, kind, handle);
    case ReadFd(f, len) =>
      if HasEnd(s, f, PipeRead) && FdGet(s, f).handle >= 0 {
        ReadMeans(s, FdGet(s, f).handle, len);
      }
    case WriteFd(f, data) =>
      if HasEnd(s, f, PipeWrite) && FdGet(s, f).handle >= 0 {
        WriteMeans(s, FdGet(s, f).handle, data);
      }
    case NewThread(prio, memory) =>
      SpawnMeans(s, prio, memory);
    case NewProcess(memory, i, o) => LaunchMeans(s, memory, i, o);
    case ImageLoaded => LoadMeans(s);
    case Wait(pid) => WaitMeans(s, pid);
    case Leave(status) => LeaveMeans(s, status);
    case Signal(pid, sig) => SignalMeans(s, pid, sig);
    case SleepOn(ch) => SleepMeans(s, ch, Outside);
    case GiveUp => YieldMeans(s);
    case _ =>
  }
}
