/** What every run of the kernel state machine keeps: descriptor counts, pipe
    streams, justified sleepers and process records. */
module Runs {
  import opened Base
  import opened Kernel

  // ---------------------------------------------------------------------------
  // The invariant

  predicate IsRef(fd: Fd, kind: FdKind, i: nat) {
    fd.kind == kind && fd.handle == i
  }

  /** All descriptors, over all threads, that name one end of pipe i. */
  ghost function Refs(ts: seq<Thread>, kind: FdKind, i: nat): set<(nat, nat)> {
    set t: nat, f: nat | t < |ts| && f < FDS && f < |ts[t].fds| && IsRef(ts[t].fds[f], kind, i) :: (t, f)
  }

  /** The counts of a pipe are the numbers of its descriptors, those in x aside,
      and a pipe is in use exactly as long as it has any. */
  ghost predicate CountsOk(ts: seq<Thread>, p: Pipe, i: nat, x: set<(nat, nat)>) {
    if p.inUse then
      && p.readers == |Refs(ts, PipeRead, i) - x| && p.writers == |Refs(ts, PipeWrite, i) - x|
      && p.readers + p.writers > 0
    else
      Refs(ts, PipeRead, i) - x == {} && Refs(ts, PipeWrite, i) - x == {}
  }

  predicate HandleOk(fd: Fd) {
    fd.kind == PipeRead || fd.kind == PipeWrite ==> 0 <= fd.handle < PIPES
  }

  ghost predicate Counted(ts: seq<Thread>, pipes: seq<Pipe>, x: set<(nat, nat)>) {
    && (forall i :: 0 <= i < |pipes| ==> CountsOk(ts, pipes[i], i, x))
    && (forall t, f :: 0 <= t < |ts| && 0 <= f < |ts[t].fds| ==> HandleOk(ts[t].fds[f]))
    && (forall t :: 0 <= t < |ts| && ts[t].state == Unused ==> ts[t].fds == NO_FDS)
  }

  predicate ChildAlive(ps: seq<Process>, pid: nat) {
    exists i :: 0 <= i < |ps| && IsAlive(ps[i]) && ps[i].pid == pid
  }

  predicate IsAlive(p: Process) {
    p.state == Starting || p.state == Live
  }

  /** A sleeping thread has a reason to sleep, and sleeps where it will be woken. */
  predicate Justified(t: Thread, pipes: seq<Pipe>, ps: seq<Process>) {
    match t.place
    case Reading(i, _) => t.chan == PipeCh(i) && i < |pipes| && pipes[i].inUse && pipes[i].count == 0
      && pipes[i].writers > 0
    case Writing(i, _) => t.chan == PipeCh(i) && i < |pipes| && pipes[i].inUse && pipes[i].count == RING
      && pipes[i].readers > 0
    case Waiting(pid) => t.chan == Num(pid) && ChildAlive(ps, pid)
    case _ => true
  }

  predicate Sleepers(ts: seq<Thread>, pipes: seq<Pipe>, ps: seq<Process>) {
    forall t :: 0 <= t < |ts| && ts[t].state == Blocked ==> Justified(ts[t], pipes, ps)
  }

  /** A thread inside a pipe call still holds the descriptor it called with. */
  predicate Holds(t: Thread) {
    match t.place
    case Reading(i, _) => exists f :: 0 <= f < |t.fds| && IsRef(t.fds[f], PipeRead, i)
    case Writing(i, _) => exists f :: 0 <= f < |t.fds| && IsRef(t.fds[f], PipeWrite, i)
    case _ => true
  }

  predicate Holders(ts: seq<Thread>) {
    forall t :: 0 <= t < |ts| ==> Holds(ts[t])
  }

  /** Bytes come out in the order they went in, and none is lost. */
  predicate Fifo(p: Pipe, accepted: seq<Byte>, delivered: seq<Byte>) {
    PipeShape(p) && accepted == delivered + Ring(p)
  }

  predicate Streams(s: State)
    requires Shape(s)
  {
    forall i :: 0 <= i < PIPES && s.pipes[i].inUse ==> Fifo(s.pipes[i], s.accepted[i], s.delivered[i])
  }

  predicate ProcessOk(p: Process, ts: seq<Thread>, nextPid: nat) {
    p.state != NoProcess ==> 1 <= p.pid < nextPid && 0 <= p.tid < |ts| && ts[p.tid].state != Unused
  }

  predicate DifferentProcesses(p: Process, q: Process) {
    p.state != NoProcess && q.state != NoProcess ==> p.pid != q.pid && p.tid != q.tid
  }

  predicate Records(ts: seq<Thread>, ps: seq<Process>, nextPid: nat) {
    && nextPid >= 1
    && (forall i :: 0 <= i < |ps| ==> ProcessOk(ps[i], ts, nextPid))
    && (forall i, j :: 0 <= i < j < |ps| ==> DifferentProcesses(ps[i], ps[j]))
  }

  /** The invariant without the descriptor counts and the process records. */
  predicate Core(s: State) {
    && Shape(s) && Cur(s).state != Unused
    && Sleepers(s.threads, s.pipes, s.processes)
    && Holders(s.threads)
    && Streams(s)
  }

  ghost predicate Inv(s: State) {
    Core(s) && Counted(s.threads, s.pipes, {}) && Records(s.threads, s.processes, s.nextPid)
  }

  // ---------------------------------------------------------------------------
  // Changes of threads alone

  /** What the scheduler may do to a thread other than putting it to sleep. */
  predicate Moved(a: Thread, b: Thread) {
    && b.fds == a.fds && b.ticks <= 8 && (b.state == Unused <==> a.state == Unused)
    && (b.place == a.place || b.place == Outside || b.place == Gone)
    && (b.state == Blocked ==> a.state == Blocked && b.chan == a.chan && b.place == a.place)
  }

  predicate AllMoved(ts: seq<Thread>, ts': seq<Thread>) {
    |ts'| == |ts| && forall t :: 0 <= t < |ts| ==> Moved(ts[t], ts'[t])
  }

  predicate LowTicks(ts: seq<Thread>) {
    forall t :: 0 <= t < |ts| ==> ts[t].ticks <= 8
  }

  lemma AllMovedTwice(ts: seq<Thread>, ts1: seq<Thread>, ts2: seq<Thread>)
    requires AllMoved(ts, ts1) && AllMoved(ts1, ts2)
    ensures AllMoved(ts, ts2)
  {
    forall t | 0 <= t < |ts|
      ensures Moved(ts[t], ts2[t])
    {
      assert Moved(ts[t], ts1[t]) && Moved(ts1[t], ts2[t]);
    }
  }

  lemma SameRefs(ts: seq<Thread>, ts': seq<Thread>, kind: FdKind, i: nat)
    requires |ts'| == |ts| && forall t :: 0 <= t < |ts| ==> ts'[t].fds == ts[t].fds
    ensures Refs(ts', kind, i) == Refs(ts, kind, i)
  {
  }

  lemma SameCounts(ts: seq<Thread>, ts': seq<Thread>, pipes: seq<Pipe>, x: set<(nat, nat)>)
    requires Counted(ts, pipes, x) && |ts'| == |ts|
    requires forall t :: 0 <= t < |ts| ==>
      && ts'[t].fds == ts[t].fds && (ts'[t].state == Unused <==> ts[t].state == Unused)
    ensures Counted(ts', pipes, x)
  {
    forall i | 0 <= i < |pipes|
      ensures CountsOk(ts', pipes[i], i, x)
    {
      SameRefs(ts, ts', PipeRead, i);
      SameRefs(ts, ts', PipeWrite, i);
      assert CountsOk(ts, pipes[i], i, x);
    }
  }

  lemma MovedCounts(ts: seq<Thread>, ts': seq<Thread>, pipes: seq<Pipe>, x: set<(nat, nat)>)
    requires Counted(ts, pipes, x) && AllMoved(ts, ts')
    ensures Counted(ts', pipes, x)
  {
    assert forall t :: 0 <= t < |ts| ==> Moved(ts[t], ts'[t]);
    SameCounts(ts, ts', pipes, x);
  }

  lemma MovedCore(s: State, s': State)
    requires Core(s) && AllMoved(s.threads, s'.threads) && s'.current < |s'.threads|
    requires s' == s.(threads := s'.threads, current := s'.current) && Cur(s').state != Unused
    ensures Core(s')
  {
    forall t | 0 <= t < |s.threads|
      ensures Moved(s.threads[t], s'.threads[t]) && Holds(s'.threads[t])
      ensures s'.threads[t].state == Blocked ==> Justified(s'.threads[t], s'.pipes, s'.processes)
    {
      assert Moved(s.threads[t], s'.threads[t]) && Holds(s.threads[t]);
    }
  }

  lemma MovedRecords(ts: seq<Thread>, ts': seq<Thread>, ps: seq<Process>, nextPid: nat)
    requires Records(ts, ps, nextPid) && AllMoved(ts, ts')
    ensures Records(ts', ps, nextPid)
  {
    forall i | 0 <= i < |ps|
      ensures ProcessOk(ps[i], ts', nextPid)
    {
      assert ProcessOk(ps[i], ts, nextPid);
      assert ps[i].state != NoProcess ==> Moved(ts[ps[i].tid], ts'[ps[i].tid]);
    }
  }

  /** A step of the scheduler that puts nobody to sleep. */
  lemma QuietKeeps(s: State, s': State)
    requires Inv(s) && AllMoved(s.threads, s'.threads) && s'.current < |s'.threads|
    requires s' == s.(threads := s'.threads, current := s'.current) && Cur(s').state != Unused
    ensures Inv(s')
  {
    hide Counted, Core, Records, AllMoved;
    MovedCounts(s.threads, s'.threads, s.pipes, {});
    MovedCore(s, s');
    MovedRecords(s.threads, s'.threads, s.processes, s.nextPid);
  }

  /** Nobody sleeps on ch. */
  predicate Awake(ts: seq<Thread>, ch: Channel) {
    forall t :: 0 <= t < |ts| && ts[t].state == Blocked ==> ts[t].chan != ch
  }

  lemma WokenMoves(ts: seq<Thread>, ch: Channel)
    requires LowTicks(ts)
    ensures AllMoved(ts, Woken(ts, ch)) && Awake(Woken(ts, ch), ch)
  {
  }

  lemma OneMoves(ts: seq<Thread>, t: nat, th: Thread)
    requires LowTicks(ts) && t < |ts| && Moved(ts[t], th)
    ensures AllMoved(ts, ts[t := th]) && LowTicks(ts[t := th])
  {
  }

  lemma SwitchMoves(s: State, next: nat, refill: bool)
    requires LowTicks(s.threads) && next < |s.threads| && s.threads[next].state != Unused
    ensures AllMoved(s.threads, SwitchTo(s, next, refill).threads)
  {
  }

  lemma {:induction false} NextRunnable(ts: seq<Thread>, from: nat, k: nat)
    requires from < |ts| && k <= |ts| + 1
    ensures NextFrom(ts, from, k) == from || Runnable(ts[NextFrom(ts, from, k)])
    decreases |ts| + 1 - k
  {
    if k <= |ts| && !Runnable(ts[Around(|ts|, from, k)]) {
      NextRunnable(ts, from, k + 1);
    }
  }

  lemma YieldMoves(s: State)
    requires s.current < |s.threads| && Cur(s).state != Unused && LowTicks(s.threads)
    ensures AllMoved(s.threads, Yield(s).threads) && Yield(s).current < |s.threads| && Cur(Yield(s)).state != Unused
  {
    NextRunnable(s.threads, s.current, 1);
    var next := Next(s.threads, s.current);
    if next != s.current {
      var s1 := SetThread(s, s.current, Cur(s).(state := Ready));
      OneMoves(s.threads, s.current, Cur(s).(state := Ready));
      SwitchMoves(s1, next, true);
      AllMovedTwice(s.threads, s1.threads, SwitchTo(s1, next, true).threads);
    }
  }

  lemma YieldKeeps(s: State)
    requires Inv(s)
    ensures Inv(Yield(s))
  {
    YieldMoves(s);
    QuietKeeps(s, Yield(s));
  }

  lemma TickKeeps(s: State)
    requires Inv(s)
    ensures Inv(Tick(s))
  {
    var th := Cur(s).(ticks := Cur(s).ticks - 1);
    OneMoves(s.threads, s.current, th);
    QuietKeeps(s, SetThread(s, s.current, th));
    YieldKeeps(SetThread(s, s.current, th));
  }

  lemma WakeupKeeps(s: State, ch: Channel)
    requires Inv(s)
    ensures Inv(Wakeup(s, ch))
  {
    WokenMoves(s.threads, ch);
    QuietKeeps(s, Wakeup(s, ch));
  }

  lemma FinishKeeps(s: State)
    requires Inv(s) && Cur(s).state != Blocked
    ensures Inv(Finish(s))
  {
    OneMoves(s.threads, s.current, Cur(s).(place := Outside));
    QuietKeeps(s, Finish(s));
  }

  /** Going to sleep for a good reason. */
  lemma SleepKeeps(s: State, ch: Channel, place: Place)
    requires Inv(s)
    requires Justified(Cur(s).(chan := ch, state := Blocked, place := place), s.pipes, s.processes)
    requires Holds(Cur(s).(place := place))
    ensures Inv(Sleep(s, ch, place))
  {
    hide Inv, Justified, Holds, NextFrom;
    InvShape(s);
    var s1 := SetThread(s, s.current, Cur(s).(chan := ch, state := Blocked, place := place));
    FellAsleep(s, ch, place);
    InvShape(s1);
    NextRunnable(s1.threads, s1.current, 1);
    var next := Next(s1.threads, s1.current);
    if next != s1.current {
      SwitchMoves(s1, next, true);
      QuietKeeps(s1, SwitchTo(s1, next, true));
    }
  }

  lemma FellAsleepCore(s: State, th: Thread)
    requires Core(s) && th.fds == Cur(s).fds && th.ticks == Cur(s).ticks && th.state == Blocked
    requires Justified(th, s.pipes, s.processes) && Holds(th)
    ensures Core(SetThread(s, s.current, th))
  {
    hide Justified, Holds, Fifo, PipeShape;
    var s1 := SetThread(s, s.current, th);
    forall t | 0 <= t < |s1.threads|
      ensures Holds(s1.threads[t])
    {
      assert Holds(s.threads[t]);
    }
  }

  lemma SameRecords(ts: seq<Thread>, ts': seq<Thread>, ps: seq<Process>, nextPid: nat)
    requires Records(ts, ps, nextPid) && |ts'| == |ts|
    requires forall t :: 0 <= t < |ts| ==> (ts'[t].state == Unused <==> ts[t].state == Unused)
    ensures Records(ts', ps, nextPid)
  {
    forall i | 0 <= i < |ps|
      ensures ProcessOk(ps[i], ts', nextPid)
    {
      assert ProcessOk(ps[i], ts, nextPid);
    }
  }

  lemma FellAsleep(s: State, ch: Channel, place: Place)
    requires Inv(s)
    requires Justified(Cur(s).(chan := ch, state := Blocked, place := place), s.pipes, s.processes)
    requires Holds(Cur(s).(place := place))
    ensures Inv(SetThread(s, s.current, Cur(s).(chan := ch, state := Blocked, place := place)))
  {
    hide Counted, Records, Sleepers, Holders, Streams, Justified;
    var th := Cur(s).(chan := ch, state := Blocked, place := place);
    SameCounts(s.threads, s.threads[s.current := th], s.pipes, {});
    SameRecords(s.threads, s.threads[s.current := th], s.processes, s.nextPid);
    FellAsleepCore(s, th);
  }

  // ---------------------------------------------------------------------------
  // Changes of a pipe, announced on its channel

  lemma PipeCore(s: State, i: nat, p: Pipe, accepted: seq<Byte>, delivered: seq<Byte>)
    requires Core(s) && i < PIPES && PipeShape(p) && (p.inUse ==> Fifo(p, accepted, delivered))
    ensures Core(Wakeup(SetPipe(s, i, p).(accepted := s.accepted[i := accepted],
      delivered := s.delivered[i := delivered]), PipeCh(i)))
  {
    var s' := Wakeup(SetPipe(s, i, p).(accepted := s.accepted[i := accepted], delivered := s.delivered[i := delivered]),
      PipeCh(i));
    forall t | 0 <= t < |s.threads|
      ensures Holds(s'.threads[t])
      ensures s'.threads[t].state == Blocked ==> Justified(s'.threads[t], s'.pipes, s'.processes)
    {
      assert Holds(s.threads[t]);
    }
  }

  lemma SamePipeCounts(ts: seq<Thread>, pipes: seq<Pipe>, i: nat, p: Pipe, x: set<(nat, nat)>)
    requires Counted(ts, pipes, x) && i < |pipes|
    requires p.inUse == pipes[i].inUse && p.readers == pipes[i].readers && p.writers == pipes[i].writers
    ensures Counted(ts, pipes[i := p], x)
  {
    var q := pipes[i := p];
    forall j | 0 <= j < |pipes|
      ensures CountsOk(ts, q[j], j, x)
    {
      assert CountsOk(ts, pipes[j], j, x);
    }
  }

  /** Data moved through pipe i. */
  lemma DataKeeps(s: State, i: nat, p: Pipe, accepted: seq<Byte>, delivered: seq<Byte>)
    requires Inv(s) && i < PIPES && Fifo(p, accepted, delivered)
    requires p.inUse == s.pipes[i].inUse && p.readers == s.pipes[i].readers && p.writers == s.pipes[i].writers
    ensures Inv(Wakeup(SetPipe(s, i, p).(accepted := s.accepted[i := accepted],
      delivered := s.delivered[i := delivered]), PipeCh(i)))
  {
    PipeCore(s, i, p, accepted, delivered);
    SamePipeCounts(s.threads, s.pipes, i, p, {});
    WokenMoves(s.threads, PipeCh(i));
    MovedCounts(s.threads, Woken(s.threads, PipeCh(i)), s.pipes[i := p], {});
    MovedRecords(s.threads, Woken(s.threads, PipeCh(i)), s.processes, s.nextPid);
  }

  lemma Rotated(a: nat, n: nat, k: nat)
    ensures ((a + n) % RING + k) % RING == (a + (n + k)) % RING
  {
  }

  lemma TakenRing(p: Pipe, n: nat)
    requires PipeShape(p) && n <= p.count
    ensures PipeShape(Taken(p, n)) && Ring(p) == Ring(p)[..n] + Ring(Taken(p, n))
  {
    var q := Taken(p, n);
    Rotated(p.readPos, n, q.count);
    forall k | 0 <= k < q.count
      ensures Ring(q)[k] == Ring(p)[n + k]
    {
      Rotated(p.readPos, n, k);
    }
  }

  lemma {:induction false} StoredRing(p: Pipe, data: seq<Byte>)
    requires PipeShape(p) && p.count + |data| <= RING
    ensures Ring(Stored(p, data)) == Ring(p) + data
    ensures Stored(p, data) == p.(buf := Stored(p, data).buf, writePos := Stored(p, data).writePos,
      count := p.count + |data|)
    decreases |data|
  {
    hide Pushed, Ring;
    if data != [] {
      PushedRing(p, data[0]);
      StoredRing(Pushed(p, data[0]), data[1..]);
      assert data == [data[0]] + data[1..];
    }
  }

  lemma PushedRing(p: Pipe, b: Byte)
    requires PipeShape(p) && p.count < RING
    ensures Ring(Pushed(p, b)) == Ring(p) + [b]
    ensures Pushed(p, b) == p.(buf := Pushed(p, b).buf, writePos := Pushed(p, b).writePos, count := p.count + 1)
  {
    var q := Pushed(p, b);
    forall k | 0 <= k < q.count
      ensures Ring(q)[k] == (Ring(p) + [b])[k]
    {
      OtherPlace(p.readPos, p.count, k);
    }
  }

  /** The places of a ring that is not full are apart from the next free one. */
  lemma OtherPlace(from: nat, count: nat, k: nat)
    requires from < RING && count < RING && k <= count
    ensures k < count ==> (from + k) % RING != (from + count) % RING
  {
  }

  lemma ReadData(s: State, i: nat, n: nat)
    requires Shape(s) && Inv(s) && i < PIPES && s.pipes[i].inUse && n <= s.pipes[i].count
    ensures Fifo(Taken(s.pipes[i], n), s.accepted[i], s.delivered[i] + Ring(s.pipes[i])[..n])
  {
    hide Sleepers, Holders, Counted, Records, Fifo, Ring, Taken;
    assert Fifo(s.pipes[i], s.accepted[i], s.delivered[i]);
    TakenFifo(s.pipes[i], s.accepted[i], s.delivered[i], n);
  }

  lemma TakenFifo(p: Pipe, accepted: seq<Byte>, delivered: seq<Byte>, n: nat)
    requires Fifo(p, accepted, delivered) && n <= p.count
    ensures Fifo(Taken(p, n), accepted, delivered + Ring(p)[..n])
  {
    hide Ring, Taken;
    TakenRing(p, n);
  }

  lemma WriteData(s: State, i: nat, data: seq<Byte>)
    requires Shape(s) && Inv(s) && i < PIPES && s.pipes[i].inUse && s.pipes[i].count + |data| <= RING
    ensures Fifo(Stored(s.pipes[i], data), s.accepted[i] + data, s.delivered[i])
  {
    assert Fifo(s.pipes[i], s.accepted[i], s.delivered[i]);
    StoredFifo(s.pipes[i], s.accepted[i], s.delivered[i], data);
  }

  lemma StoredFifo(p: Pipe, accepted: seq<Byte>, delivered: seq<Byte>, data: seq<Byte>)
    requires Fifo(p, accepted, delivered) && p.count + |data| <= RING
    ensures Fifo(Stored(p, data), accepted + data, delivered)
  {
    hide Ring, Stored, PipeShape;
    StoredRing(p, data);
    Regrouped(accepted, delivered, Ring(p), data);
  }

  lemma Regrouped(accepted: seq<Byte>, delivered: seq<Byte>, ring: seq<Byte>, data: seq<Byte>)
    requires accepted == delivered + ring
    ensures accepted + data == delivered + (ring + data)
  {
  }

  /** The current thread is awake and stays so through a wakeup. */
  lemma StillRunning(s: State, ch: Channel)
    requires s.current < |s.threads| && Cur(s).state == Running
    ensures Cur(Wakeup(s, ch)) == Cur(s)
  {
  }

  lemma ReadPassKeeps(s: State, i: nat, len: nat)
    requires Shape(s) && Inv(s) && Cur(s).state == Running && Holds(Cur(s).(place := Reading(i, len)))
    ensures Inv(ReadPass(s, i, len).0)
  {
    hide Inv, Taken, Ring, Woken, Holds, Fifo, Sleep, PipeShape;
    if i >= PIPES || !s.pipes[i].inUse {
      FinishKeeps(s);
    } else if s.pipes[i].count > 0 {
      var n := if s.pipes[i].count < len then s.pipes[i].count else len;
      ReadData(s, i, n);
      TakenSame(s.pipes[i], n);
      var d := s.delivered[i] + Ring(s.pipes[i])[..n];
      DataKeeps(s, i, Taken(s.pipes[i], n), s.accepted[i], d);
      assert s.accepted[i := s.accepted[i]] == s.accepted;
      var s1 := SetPipe(s, i, Taken(s.pipes[i], n)).(delivered := s.delivered[i := d]);
      StillRunning(s1, PipeCh(i));
      FinishKeeps(Wakeup(s1, PipeCh(i)));
    } else if s.pipes[i].writers <= 0 {
      FinishKeeps(s);
    } else {
      SleepKeeps(s, PipeCh(i), Reading(i, len));
    }
  }

  lemma TakenSame(p: Pipe, n: nat)
    requires n <= p.count
    ensures Taken(p, n).inUse == p.inUse && Taken(p, n).readers == p.readers && Taken(p, n).writers == p.writers
  {
  }

  lemma WritePassKeeps(s: State, i: nat, data: seq<Byte>)
    requires Shape(s) && Inv(s) && Cur(s).state == Running && Holds(Cur(s).(place := Writing(i, data)))
    ensures Inv(WritePass(s, i, data).0)
  {
    hide Inv, Stored, Ring, Woken, Holds, Fifo, Sleep;
    if i >= PIPES || !s.pipes[i].inUse || s.pipes[i].readers <= 0 {
      FinishKeeps(s);
    } else if s.pipes[i].count < RING {
      var n := if RING - s.pipes[i].count < |data| then RING - s.pipes[i].count else |data|;
      WriteData(s, i, data[..n]);
      StoredRing(s.pipes[i], data[..n]);
      var a := s.accepted[i] + data[..n];
      DataKeeps(s, i, Stored(s.pipes[i], data[..n]), a, s.delivered[i]);
      assert s.delivered[i := s.delivered[i]] == s.delivered;
      var s1 := SetPipe(s, i, Stored(s.pipes[i], data[..n])).(accepted := s.accepted[i := a]);
      StillRunning(s1, PipeCh(i));
      FinishKeeps(Wakeup(s1, PipeCh(i)));
    } else {
      SleepKeeps(s, PipeCh(i), Writing(i, data));
    }
  }

  // ---------------------------------------------------------------------------
  // Closing and opening descriptors

  lemma OneLess(a: set<(nat, nat)>, x: set<(nat, nat)>, e: (nat, nat))
    requires e !in x
    ensures e in a ==> |a - (x + {e})| == |a - x| - 1 && a - x != {}
    ensures e !in a ==> a - (x + {e}) == a - x
  {
    if e in a {
      assert a - (x + {e}) == (a - x) - {e};
    } else {
      assert a - (x + {e}) == a - x;
    }
  }

  /** Releasing a descriptor takes it out of the count. */
  lemma ReleaseCounts(s: State, t: nat, f: nat, x: set<(nat, nat)>)
    requires |s.pipes| == PIPES && t < |s.threads| && f < FDS && f < |s.threads[t].fds| && (t, f) !in x
    requires Counted(s.threads, s.pipes, x) && LowTicks(s.threads)
    ensures var r := ReleaseFd(s, s.threads[t].fds[f]); Counted(r.threads, r.pipes, x + {(t, f)})
  {
    var fd := s.threads[t].fds[f];
    var r := ReleaseFd(s, fd);
    assert HandleOk(fd);
    forall i | 0 <= i < PIPES
      ensures CountsOk(s.threads, r.pipes[i], i, x + {(t, f)})
    {
      ReleaseOne(s, t, f, x, i);
    }
    if fd.kind == PipeRead || fd.kind == PipeWrite {
      WokenMoves(s.threads, PipeCh(fd.handle));
    }
    assert forall u :: 0 <= u < |s.threads| ==> (r.threads[u].state == Unused <==> s.threads[u].state == Unused);
    assert Counted(s.threads, r.pipes, x + {(t, f)});
    hide CountsOk;
    SameCounts(s.threads, r.threads, r.pipes, x + {(t, f)});
  }

  lemma ReleaseOne(s: State, t: nat, f: nat, x: set<(nat, nat)>, i: nat)
    requires |s.pipes| == PIPES && t < |s.threads| && f < FDS && f < |s.threads[t].fds| && (t, f) !in x
    requires HandleOk(s.threads[t].fds[f]) && i < PIPES && CountsOk(s.threads, s.pipes[i], i, x)
    ensures CountsOk(s.threads, ReleaseFd(s, s.threads[t].fds[f]).pipes[i], i, x + {(t, f)})
  {
    hide Woken, Refs, HandleOk;
    RefMember(s.threads, PipeRead, i, t, f);
    RefMember(s.threads, PipeWrite, i, t, f);
    OneLess(Refs(s.threads, PipeRead, i), x, (t, f));
    OneLess(Refs(s.threads, PipeWrite, i), x, (t, f));
  }

  lemma RefMember(ts: seq<Thread>, kind: FdKind, i: nat, t: nat, f: nat)
    requires t < |ts| && f < FDS && f < |ts[t].fds|
    ensures (t, f) in Refs(ts, kind, i) <==> IsRef(ts[t].fds[f], kind, i)
  {
  }

  lemma SameRing(p: Pipe, q: Pipe)
    requires PipeShape(p) && q == p.(inUse := q.inUse, readers := q.readers, writers := q.writers)
    ensures PipeShape(q) && Ring(q) == Ring(p)
  {
  }

  lemma ReleaseCore(s: State, fd: Fd)
    requires Core(s)
    ensures Core(ReleaseFd(s, fd)) && AllMoved(s.threads, ReleaseFd(s, fd).threads)
    ensures forall t :: 0 <= t < |s.threads| ==> ReleaseFd(s, fd).threads[t].place == s.threads[t].place
    ensures forall t :: 0 <= t < |s.threads| && s.threads[t].state != Blocked ==>
      ReleaseFd(s, fd).threads[t] == s.threads[t]
  {
    hide Sleepers, Holders, Justified, Holds, Ring;
    var r := ReleaseFd(s, fd);
    if r != s {
      var i := fd.handle;
      WokenMoves(s.threads, PipeCh(i));
      assert s.pipes[i].inUse;
      assert Fifo(s.pipes[i], s.accepted[i], s.delivered[i]);
      assert s.accepted[i := s.accepted[i]] == s.accepted && s.delivered[i := s.delivered[i]] == s.delivered;
      SameRing(s.pipes[i], r.pipes[i]);
      PipeCore(s, i, r.pipes[i], s.accepted[i], s.delivered[i]);
    } else {
      assert forall t :: 0 <= t < |s.threads| ==> Moved(s.threads[t], s.threads[t]);
    }
  }

  /** Descriptor (t, f) is replaced. */
  lemma SetRefs(ts: seq<Thread>, t: nat, f: nat, fd: Fd, kind: FdKind, i: nat)
    requires t < |ts| && f < FDS && f < |ts[t].fds|
    ensures Refs(ts[t := ts[t].(fds := ts[t].fds[f := fd])], kind, i) ==
      Refs(ts, kind, i) - {(t, f)} + if IsRef(fd, kind, i) then {(t, f)} else {}
  {
  }

  lemma SetFdCounts(ts: seq<Thread>, pipes: seq<Pipe>, t: nat, f: nat)
    requires t < |ts| && f < FDS && f < |ts[t].fds| && ts[t].state != Unused && |pipes| == PIPES
    requires Counted(ts, pipes, {(t, f)})
    ensures Counted(ts[t := ts[t].(fds := ts[t].fds[f := NO_FD])], pipes, {})
  {
    var ts' := ts[t := ts[t].(fds := ts[t].fds[f := NO_FD])];
    forall i | 0 <= i < |pipes|
      ensures CountsOk(ts', pipes[i], i, {})
    {
      assert CountsOk(ts, pipes[i], i, {(t, f)});
      SetRefs(ts, t, f, NO_FD, PipeRead, i);
      SetRefs(ts, t, f, NO_FD, PipeWrite, i);
      NothingLess(Refs(ts, PipeRead, i), {(t, f)});
      NothingLess(Refs(ts, PipeWrite, i), {(t, f)});
    }
    forall u, g | 0 <= u < |ts'| && 0 <= g < |ts'[u].fds|
      ensures HandleOk(ts'[u].fds[g])
    {
      assert HandleOk(ts[u].fds[g]);
    }
  }

  lemma NothingLess(a: set<(nat, nat)>, x: set<(nat, nat)>)
    ensures a - x + {} - {} == a - x
  {
  }

  lemma SetFdCore(s: State, t: nat, f: nat, fd: Fd)
    requires Core(s) && t < |s.threads| && f < FDS && s.threads[t].place == Outside
    ensures Core(SetFd(s, t, f, fd))
  {
    var s' := SetFd(s, t, f, fd);
    forall u | 0 <= u < |s'.threads|
      ensures Holds(s'.threads[u])
      ensures s'.threads[u].state == Blocked ==> Justified(s'.threads[u], s'.pipes, s'.processes)
    {
      assert Holds(s.threads[u]);
    }
  }

  lemma SetFdRecords(s: State, t: nat, f: nat, fd: Fd)
    requires Shape(s) && t < |s.threads| && f < FDS && Records(s.threads, s.processes, s.nextPid)
    ensures Records(SetFd(s, t, f, fd).threads, s.processes, s.nextPid)
  {
    forall i | 0 <= i < |s.processes|
      ensures ProcessOk(s.processes[i], SetFd(s, t, f, fd).threads, s.nextPid)
    {
      assert ProcessOk(s.processes[i], s.threads, s.nextPid);
    }
  }

  lemma FdCloseKeeps(s: State, f: int)
    requires Inv(s) && InOwnCode(s)
    ensures Inv(FdClose(s, f).0)
  {
    var fd := FdGet(s, f);
    if fd.kind != NoKind {
      ReleaseCounts(s, s.current, f, {});
      assert {} + {(s.current, f as nat)} == {(s.current, f as nat)};
      ReleaseCore(s, fd);
      var r := ReleaseFd(s, fd);
      MovedRecords(s.threads, r.threads, s.processes, s.nextPid);
      SetFdCounts(r.threads, r.pipes, s.current, f);
      SetFdCore(r, s.current, f, NO_FD);
      SetFdRecords(r, s.current, f, NO_FD);
    }
  }

  /** Neither the old nor the new descriptor is a pipe end. */
  lemma PlainFdKeeps(s: State, t: nat, f: nat, fd: Fd)
    requires Inv(s) && t < |s.threads| && f < FDS && s.threads[t].place == Outside && s.threads[t].state != Unused
    requires s.threads[t].fds[f].kind != PipeRead && s.threads[t].fds[f].kind != PipeWrite
    requires fd.kind != PipeRead && fd.kind != PipeWrite
    ensures Inv(SetFd(s, t, f, fd))
  {
    var s' := SetFd(s, t, f, fd);
    SetFdCore(s, t, f, fd);
    SetFdRecords(s, t, f, fd);
    forall i | 0 <= i < PIPES
      ensures CountsOk(s'.threads, s.pipes[i], i, {})
    {
      assert CountsOk(s.threads, s.pipes[i], i, {});
      PlainRefs(s.threads, t, f, fd, PipeRead, i);
      PlainRefs(s.threads, t, f, fd, PipeWrite, i);
    }
    forall u, g | 0 <= u < |s'.threads| && 0 <= g < |s'.threads[u].fds|
      ensures HandleOk(s'.threads[u].fds[g])
    {
      assert HandleOk(s.threads[u].fds[g]);
    }
  }

  lemma PlainRefs(ts: seq<Thread>, t: nat, f: nat, fd: Fd, kind: FdKind, i: nat)
    requires t < |ts| && f < FDS && f < |ts[t].fds|
    requires !IsRef(ts[t].fds[f], kind, i) && !IsRef(fd, kind, i)
    ensures Refs(ts[t := ts[t].(fds := ts[t].fds[f := fd])], kind, i) == Refs(ts, kind, i)
  {
    SetRefs(ts, t, f, fd, kind, i);
  }

  lemma NewRef(ts: seq<Thread>, t: nat, f: nat, fd: Fd, kind: FdKind, i: nat)
    requires t < |ts| && f < FDS && f < |ts[t].fds|
    requires !IsRef(ts[t].fds[f], kind, i) && IsRef(fd, kind, i)
    ensures var r := Refs(ts[t := ts[t].(fds := ts[t].fds[f := fd])], kind, i);
      |r| == |Refs(ts, kind, i)| + 1 && r - {} == r
  {
    RefMember(ts, kind, i, t, f);
    SetRefs(ts, t, f, fd, kind, i);
    var old_ := Refs(ts, kind, i);
    assert old_ - {(t, f)} + {(t, f)} == old_ + {(t, f)};
  }

  lemma OpenFileKeeps(s: State, kind: FdKind, handle: int)
    requires Inv(s) && InOwnCode(s) && kind != PipeRead && kind != PipeWrite
    ensures Inv(FdOpen(s, kind, handle).0)
  {
    var f := FirstFd(Cur(s).fds, 2);
    if f < FDS {
      PlainFdKeeps(s, s.current, f, Fd(kind, handle, 0));
    }
  }

  // ---------------------------------------------------------------------------
  // SYS_PIPE

  /** Pipe i, unused, is opened with the counts its two descriptors will make true. */
  lemma OpenedCore(s: State, i: nat)
    requires Core(s) && i < PIPES && !s.pipes[i].inUse
    ensures Core(SetPipe(s, i, Opened(s.pipes[i])).(accepted := s.accepted[i := []], delivered := s.delivered[i := []]))
  {
    var s' := SetPipe(s, i, Opened(s.pipes[i])).(accepted := s.accepted[i := []], delivered := s.delivered[i := []]);
    forall t | 0 <= t < |s.threads| && s.threads[t].state == Blocked
      ensures Justified(s.threads[t], s'.pipes, s'.processes)
    {
      assert Justified(s.threads[t], s.pipes, s.processes);
    }
    assert Ring(s'.pipes[i]) == [];
  }

  lemma OpenedOne(ts: seq<Thread>, p: Pipe, i: nat, t: nat, r: nat, w: nat, j: nat)
    requires t < |ts| && |ts[t].fds| == FDS && r < FDS && w < FDS && r != w
    requires ts[t].fds[r].kind == NoKind && ts[t].fds[w].kind == NoKind
    requires CountsOk(ts, p, j, {}) && (j == i ==> !p.inUse)
    ensures var ts1 := ts[t := ts[t].(fds := ts[t].fds[r := Fd(PipeRead, i, 0)])];
      var ts2 := ts1[t := ts1[t].(fds := ts1[t].fds[w := Fd(PipeWrite, i, 0)])];
      forall q: Pipe :: (if j == i then q.inUse && q.readers == 1 && q.writers == 1 else q == p) ==>
        CountsOk(ts2, q, j, {})
  {
    hide Refs;
    var ts1 := ts[t := ts[t].(fds := ts[t].fds[r := Fd(PipeRead, i, 0)])];
    NoneRemoved(Refs(ts, PipeRead, j));
    NoneRemoved(Refs(ts, PipeWrite, j));
    PlainRefs(ts, t, r, Fd(PipeRead, i, 0), PipeWrite, j);
    PlainRefs(ts1, t, w, Fd(PipeWrite, i, 0), PipeRead, j);
    if j == i {
      NewRef(ts, t, r, Fd(PipeRead, i, 0), PipeRead, j);
      NewRef(ts1, t, w, Fd(PipeWrite, i, 0), PipeWrite, j);
    } else {
      PlainRefs(ts, t, r, Fd(PipeRead, i, 0), PipeRead, j);
      PlainRefs(ts1, t, w, Fd(PipeWrite, i, 0), PipeWrite, j);
    }
  }

  lemma OpenedCounts(ts: seq<Thread>, pipes: seq<Pipe>, i: nat, p: Pipe, t: nat, r: nat, w: nat)
    requires Counted(ts, pipes, {}) && |pipes| == PIPES && i < PIPES && !pipes[i].inUse
    requires p.inUse && p.readers == 1 && p.writers == 1
    requires t < |ts| && |ts[t].fds| == FDS && r < FDS && w < FDS && r != w && ts[t].state != Unused
    requires ts[t].fds[r].kind == NoKind && ts[t].fds[w].kind == NoKind
    ensures var fds := ts[t].fds[r := Fd(PipeRead, i, 0)][w := Fd(PipeWrite, i, 0)];
      Counted(ts[t := ts[t].(fds := fds)], pipes[i := p], {})
  {
    var ts1 := ts[t := ts[t].(fds := ts[t].fds[r := Fd(PipeRead, i, 0)])];
    var ts2 := ts1[t := ts1[t].(fds := ts1[t].fds[w := Fd(PipeWrite, i, 0)])];
    assert ts2 == ts[t := ts[t].(fds := ts[t].fds[r := Fd(PipeRead, i, 0)][w := Fd(PipeWrite, i, 0)])];
    var q := pipes[i := p];
    forall j | 0 <= j < PIPES
      ensures CountsOk(ts2, q[j], j, {})
    {
      OpenedOne(ts, pipes[j], i, t, r, w, j);
    }
    forall u, g | 0 <= u < |ts2| && 0 <= g < |ts2[u].fds|
      ensures HandleOk(ts2[u].fds[g])
    {
      assert HandleOk(ts[u].fds[g]);
    }
  }

  lemma NoneRemoved(a: set<(nat, nat)>)
    ensures a - {} == a
  {
  }

  /** Both ends closed again: the pipe is unused as before. */
  lemma UnopenedCounts(ts: seq<Thread>, ts': seq<Thread>, pipes: seq<Pipe>, i: nat, p: Pipe)
    requires Counted(ts, pipes, {}) && i < |pipes| && !pipes[i].inUse && !p.inUse
    requires NoKindCleared(ts, ts')
    ensures Counted(ts', pipes[i := p], {})
  {
    var q := pipes[i := p];
    forall j | 0 <= j < |pipes|
      ensures CountsOk(ts', q[j], j, {})
    {
      assert CountsOk(ts, pipes[j], j, {});
      assert Refs(ts', PipeRead, j) == Refs(ts, PipeRead, j);
      assert Refs(ts', PipeWrite, j) == Refs(ts, PipeWrite, j);
    }
    forall t | 0 <= t < |ts'| && ts'[t].state == Unused
      ensures ts'[t].fds == NO_FDS
    {
      assert ts'[t].fds == ts[t].fds;
    }
  }

  lemma SysPipeKeeps(s: State)
    requires Inv(s) && InOwnCode(s)
    ensures Inv(SysPipe(s).0)
  {
    hide Counted, Records, Sleepers, Holders, Streams, FirstFd, FirstFree;
    var i := FirstFree(s.pipes, 0);
    if i < PIPES {
      OpenedCore(s, i);
      var s1 := SetPipe(s, i, Opened(s.pipes[i])).(accepted := s.accepted[i := []], delivered := s.delivered[i := []]);
      var r := FirstFd(Cur(s).fds, 2);
      if r < FDS {
        var s2 := SetFd(s1, s.current, r, Fd(PipeRead, i, 0));
        var w := FirstFd(Cur(s2).fds, 2);
        if w < FDS {
          SysPipeOpened(s, s1, s2, i, r, w);
        } else {
          SysPipeFailed(s, s1, i, r);
          assert Cur(s2).fds[r := NO_FD] == Cur(s1).fds[r := NO_FD];
          assert SetFd(s2, s.current, r, NO_FD).threads == SetFd(s1, s.current, r, NO_FD).threads;
          assert FdUnset(FdUnset(s2, r), -1) == SetFd(s1, s.current, r, NO_FD);
        }
      } else {
        SysPipeFailed(s, s1, i, FDS);
      }
    }
  }

  lemma SysPipeOpened(s: State, s1: State, s2: State, i: nat, r: nat, w: nat)
    requires Shape(s) && Inv(s) && InOwnCode(s) && i < PIPES && !s.pipes[i].inUse && Core(s1)
    requires s1 == SetPipe(s, i, Opened(s.pipes[i])).(accepted := s.accepted[i := []],
      delivered := s.delivered[i := []])
    requires r < FDS && r != w && Cur(s).fds[r].kind == NoKind && s2 == SetFd(s1, s.current, r, Fd(PipeRead, i, 0))
    requires w < FDS && Cur(s2).fds[w].kind == NoKind
    ensures Inv(SetFd(s2, s.current, w, Fd(PipeWrite, i, 0)))
  {
    hide Core, Counted, Records;
    SetFdCore(s1, s.current, r, Fd(PipeRead, i, 0));
    SetFdCore(s2, s.current, w, Fd(PipeWrite, i, 0));
    SetFdRecords(s1, s.current, r, Fd(PipeRead, i, 0));
    SetFdRecords(s2, s.current, w, Fd(PipeWrite, i, 0));
    OpenedCounts(s.threads, s.pipes, i, Opened(s.pipes[i]), s.current, r, w);
    var th := Cur(s).(fds := Cur(s).fds[r := Fd(PipeRead, i, 0)][w := Fd(PipeWrite, i, 0)]);
    assert SetFd(s2, s.current, w, Fd(PipeWrite, i, 0)).threads == s.threads[s.current := th];
  }

  lemma SysPipeFailed(s: State, s1: State, i: nat, r: nat)
    requires Shape(s) && Inv(s) && InOwnCode(s) && i < PIPES && !s.pipes[i].inUse && Core(s1)
    requires s1 == SetPipe(s, i, Opened(s.pipes[i])).(accepted := s.accepted[i := []],
      delivered := s.delivered[i := []])
    requires r < FDS ==> Cur(s).fds[r].kind == NoKind
    ensures Inv(CloseWriter(CloseReader(FdUnset(s1, r), i), i))
  {
    var s2 := FdUnset(s1, r);
    if r < FDS {
      SetFdCore(s1, s.current, r, NO_FD);
      SetFdRecords(s1, s.current, r, NO_FD);
    }
    BothClosed(s, s2, i);
  }

  lemma BothClosed(s: State, s2: State, i: nat)
    requires Shape(s) && Inv(s) && i < PIPES && !s.pipes[i].inUse
    requires Core(s2) && Records(s2.threads, s2.processes, s2.nextPid)
    requires s2.pipes == s.pipes[i := Opened(s.pipes[i])] && NoKindCleared(s.threads, s2.threads)
    ensures Inv(CloseWriter(CloseReader(s2, i), i))
  {
    hide Inv, Core, Records, Counted, NoKindCleared, Woken;
    var s3 := CloseReader(s2, i);
    var s4 := CloseWriter(s3, i);
    ReleaseCore(s2, Fd(PipeRead, i, 0));
    ReleaseCore(s3, Fd(PipeWrite, i, 0));
    AllMovedTwice(s2.threads, s3.threads, s4.threads);
    MovedRecords(s2.threads, s4.threads, s2.processes, s2.nextPid);
    assert s4.pipes == s.pipes[i := s4.pipes[i]] && !s4.pipes[i].inUse;
    ClearedMoved(s.threads, s2.threads, s4.threads);
    InvParts(s, s4);
    UnopenedCounts(s.threads, s4.threads, s.pipes, i, s4.pipes[i]);
  }

  lemma InvParts(s: State, s': State)
    ensures Inv(s) ==> Counted(s.threads, s.pipes, {})
    ensures Core(s') && Counted(s'.threads, s'.pipes, {}) && Records(s'.threads, s'.processes, s'.nextPid) ==> Inv(s')
  {
  }

  /** Some unused descriptors were reset. */
  predicate NoKindCleared(ts: seq<Thread>, ts': seq<Thread>) {
    && |ts'| == |ts|
    && (forall t :: 0 <= t < |ts| ==>
      (ts'[t].state == Unused <==> ts[t].state == Unused) && |ts'[t].fds| == |ts[t].fds|)
    && (forall t, f :: 0 <= t < |ts| && 0 <= f < |ts[t].fds| ==>
          ts'[t].fds[f] == ts[t].fds[f]
            || (ts[t].state != Unused && ts[t].fds[f].kind == NoKind && ts'[t].fds[f] == NO_FD))
  }

  lemma ClearedMoved(ts: seq<Thread>, ts1: seq<Thread>, ts2: seq<Thread>)
    requires NoKindCleared(ts, ts1) && AllMoved(ts1, ts2)
    ensures NoKindCleared(ts, ts2)
  {
    assert forall t :: 0 <= t < |ts1| ==> Moved(ts1[t], ts2[t]);
  }

  // ---------------------------------------------------------------------------
  // Exit and kill

  lemma ExitedCore(s: State, i: nat, status: int)
    requires Core(s) && i < PROCESSES && s.processes[i].state != NoProcess
    ensures Core(Wakeup(SetProcess(s, i, s.processes[i].(status := status, state := Exited)), Num(s.processes[i].pid)))
  {
    var ps := s.processes[i := s.processes[i].(status := status, state := Exited)];
    var ts := Woken(s.threads, Num(s.processes[i].pid));
    forall t | 0 <= t < |ts|
      ensures Holds(ts[t])
      ensures ts[t].state == Blocked ==> Justified(ts[t], s.pipes, ps)
    {
      assert Holds(s.threads[t]);
      if ts[t].state == Blocked && ts[t].place.Waiting? {
        var j :| 0 <= j < |s.processes| && IsAlive(s.processes[j]) && s.processes[j].pid == ts[t].place.pid;
        assert ps[j] == s.processes[j];
      }
    }
  }

  lemma SameRecord(s: State, i: nat, p: Process)
    requires Shape(s) && Records(s.threads, s.processes, s.nextPid) && i < PROCESSES
      && s.processes[i].state != NoProcess
    requires p.pid == s.processes[i].pid && p.tid == s.processes[i].tid
    ensures Records(s.threads, s.processes[i := p], s.nextPid)
  {
    var ps := s.processes[i := p];
    forall j | 0 <= j < |ps|
      ensures ProcessOk(ps[j], s.threads, s.nextPid)
    {
      assert ProcessOk(s.processes[j], s.threads, s.nextPid) && ProcessOk(s.processes[i], s.threads, s.nextPid);
    }
    forall j, k | 0 <= j < k < |ps|
      ensures DifferentProcesses(ps[j], ps[k])
    {
      assert DifferentProcesses(s.processes[j], s.processes[k]);
    }
  }

  lemma MarkExitedKeeps(s: State, tid: int, status: int)
    requires Inv(s)
    ensures Inv(MarkExited(s, tid, status)) && AllMoved(s.threads, MarkExited(s, tid, status).threads)
    ensures MarkExited(s, tid, status).current == s.current
  {
    var i := FindTid(s.processes, tid, 0);
    if i < PROCESSES {
      var ch := Num(s.processes[i].pid);
      ExitedCore(s, i, status);
      SameRecord(s, i, s.processes[i].(status := status, state := Exited));
      WokenMoves(s.threads, ch);
      MovedCounts(s.threads, Woken(s.threads, ch), s.pipes, {});
      MovedRecords(s.threads, Woken(s.threads, ch),
        s.processes[i := s.processes[i].(status := status, state := Exited)], s.nextPid);
    } else {
      assert forall t :: 0 <= t < |s.threads| ==> Moved(s.threads[t], s.threads[t]);
    }
  }

  lemma ExitKeeps(s: State, status: int)
    requires Inv(s)
    ensures Inv(Exit(s, status))
  {
    var th := Cur(s).(state := Zombie, place := Gone);
    OneMoves(s.threads, s.current, th);
    var s1 := SetThread(s, s.current, th);
    QuietKeeps(s, s1);
    MarkExitedKeeps(s1, s.current, status);
    var s2 := Wakeup(MarkExited(s1, s.current, status), Num(s.current));
    WakeupKeeps(MarkExited(s1, s.current, status), Num(s.current));
    NextRunnable(s2.threads, s2.current, 1);
    var next := Next(s2.threads, s2.current);
    if next != s2.current {
      SwitchMoves(s2, next, false);
      QuietKeeps(s2, SwitchTo(s2, next, false));
    }
  }

  lemma KillKeeps(s: State, tid: int, status: int)
    requires Inv(s)
    ensures Inv(Kill(s, tid, status).0)
  {
    if 0 <= tid < |s.threads| {
      if tid == s.current {
        ExitKeeps(s, status);
      } else if s.threads[tid].state != Unused && s.threads[tid].state != Zombie {
        var th := s.threads[tid].(state := Zombie, chan := Num(0));
        OneMoves(s.threads, tid, th);
        QuietKeeps(s, SetThread(s, tid, th));
        MarkExitedKeeps(SetThread(s, tid, th), tid, status);
      }
    }
  }

  // ---------------------------------------------------------------------------
  // Reaping and waiting

  /** The descriptors of thread t below f. */
  ghost function Below(t: nat, f: nat): set<(nat, nat)> {
    set g: nat | g < f :: (t, g)
  }

  /** Part of the descriptors of zombie t have been released. */
  ghost predicate Reaping(s: State, t: nat, f: nat) {
    Core(s) && Counted(s.threads, s.pipes, Below(t, f)) && Records(s.threads, s.processes, s.nextPid)
  }

  lemma ReapingMore(s: State, t: nat, f: nat)
    requires Shape(s) && Reaping(s, t, f) && t < |s.threads| && f < FDS && s.threads[t].state == Zombie
    ensures Reaping(ReleaseFd(s, s.threads[t].fds[f]), t, f + 1) && Shape(ReleaseFd(s, s.threads[t].fds[f]))
    ensures ReleaseFd(s, s.threads[t].fds[f]).threads[t] == s.threads[t]
  {
    hide Core, Counted, Records, AllMoved;
    CoreShape(s);
    ReleaseCounts(s, t, f, Below(t, f));
    assert Below(t, f) + {(t, f)} == Below(t, f + 1);
    ReleaseCore(s, s.threads[t].fds[f]);
    CoreShape(ReleaseFd(s, s.threads[t].fds[f]));
    MovedRecords(s.threads, ReleaseFd(s, s.threads[t].fds[f]).threads, s.processes, s.nextPid);
  }

  lemma {:induction false} CleanupKeeps(s: State, t: nat, f: nat)
    requires Shape(s) && Reaping(s, t, f) && t < |s.threads| && f <= FDS && s.threads[t].state == Zombie
    ensures Reaping(Cleanup(s, t, f), t, FDS) && Shape(Cleanup(s, t, f)) && Cleanup(s, t, f).threads[t] == s.threads[t]
    decreases FDS - f
  {
    hide Reaping, ReleaseFd;
    if f < FDS {
      ReapingMore(s, t, f);
      CleanupKeeps(ReleaseFd(s, s.threads[t].fds[f]), t, f + 1);
    }
  }

  lemma CoreShape(s: State)
    requires Core(s)
    ensures Shape(s) && LowTicks(s.threads)
  {
  }

  lemma ReapedCounts(ts: seq<Thread>, pipes: seq<Pipe>, t: nat, th: Thread)
    requires Counted(ts, pipes, Below(t, FDS)) && t < |ts| && th.fds == NO_FDS
    ensures Counted(ts[t := th], pipes, {})
  {
    var ts' := ts[t := th];
    forall i | 0 <= i < |pipes|
      ensures CountsOk(ts', pipes[i], i, {})
    {
      assert CountsOk(ts, pipes[i], i, Below(t, FDS));
      ReapedRefs(ts, t, th, PipeRead, i);
      ReapedRefs(ts, t, th, PipeWrite, i);
    }
    forall u, g | 0 <= u < |ts'| && 0 <= g < |ts'[u].fds|
      ensures HandleOk(ts'[u].fds[g])
    {
    }
  }

  lemma ReapedRefs(ts: seq<Thread>, t: nat, th: Thread, kind: FdKind, i: nat)
    requires t < |ts| && th.fds == NO_FDS && (kind == PipeRead || kind == PipeWrite)
    ensures Refs(ts[t := th], kind, i) - {} == Refs(ts, kind, i) - Below(t, FDS)
  {
    forall e | e in Refs(ts[t := th], kind, i)
      ensures e in Refs(ts, kind, i) - Below(t, FDS)
    {
      assert e.0 != t;
    }
  }

  /** The thread of a process is gone; all records but those of tid t stand. */
  lemma ReapKeeps(s: State, t: int)
    requires Inv(s)
    ensures Core(Reap(s, t)) && Counted(Reap(s, t).threads, Reap(s, t).pipes, {})
    ensures forall i :: 0 <= i < PROCESSES && s.processes[i].tid != t ==>
      ProcessOk(s.processes[i], Reap(s, t).threads, s.nextPid)
  {
    assert forall i :: 0 <= i < PROCESSES ==> ProcessOk(s.processes[i], s.threads, s.nextPid);
    if 0 <= t < |s.threads| && t != s.current && s.threads[t].state == Zombie {
      assert Below(t, 0) == {};
      CleanupKeeps(s, t, 0);
      var s1 := Cleanup(s, t, 0);
      var th := s1.threads[t].(state := Unused, chan := Num(0), fds := NO_FDS, place := Outside);
      ReapedCounts(s1.threads, s1.pipes, t, th);
      ReapedCore(s1, t, th);
      assert forall i :: 0 <= i < PROCESSES ==> ProcessOk(s1.processes[i], s1.threads, s1.nextPid);
    }
  }

  lemma ReapedCore(s: State, t: nat, th: Thread)
    requires Core(s) && t < |s.threads| && t != s.current && |th.fds| == FDS && th.ticks <= 8 && th.state != Blocked
      && th.place == Outside
    ensures Core(SetThread(s, t, th))
  {
    var s' := SetThread(s, t, th);
    forall u | 0 <= u < |s'.threads|
      ensures Holds(s'.threads[u])
      ensures s'.threads[u].state == Blocked ==> Justified(s'.threads[u], s'.pipes, s'.processes)
    {
      assert Holds(s.threads[u]);
    }
  }

  lemma ReapCurrent(s: State, t: int)
    requires Shape(s) && Cur(s).state == Running
    ensures Reap(s, t).current == s.current && Reap(s, t).threads[s.current] == Cur(s)
  {
    if 0 <= t < |s.threads| && t != s.current && s.threads[t].state == Zombie {
      CleanupAwake(s, t, 0, s.current);
    }
  }

  lemma {:induction false} CleanupAwake(s: State, t: nat, f: nat, u: nat)
    requires |s.pipes| == PIPES && t < |s.threads| && f <= |s.threads[t].fds| && u < |s.threads|
      && s.threads[u].state != Blocked
    ensures Cleanup(s, t, f).threads[u] == s.threads[u]
    decreases |s.threads[t].fds| - f
  {
    if f < |s.threads[t].fds| {
      CleanupAwake(ReleaseFd(s, s.threads[t].fds[f]), t, f + 1, u);
    }
  }

  /** The record of an exited process goes, and with it what was left of its thread. */
  lemma ReleasedKeeps(s: State, s1: State, pid: nat, i: nat)
    requires Inv(s) && i == FindPid(s.processes, pid, 0) && i < PROCESSES && s.processes[i].state == Exited
    requires s1 == s.(threads := s1.threads, pipes := s1.pipes) && Core(s1) && Counted(s1.threads, s1.pipes, {})
    requires forall j :: 0 <= j < PROCESSES && s.processes[j].tid != s.processes[i].tid ==>
      ProcessOk(s.processes[j], s1.threads, s.nextPid)
    ensures Inv(Released(s1, pid))
  {
    var s' := Released(s1, pid);
    var ps := s.processes;
    forall j | 0 <= j < PROCESSES
      ensures ProcessOk(s'.processes[j], s'.threads, s'.nextPid)
    {
      assert j < i ==> DifferentProcesses(ps[j], ps[i]);
      assert i < j ==> DifferentProcesses(ps[i], ps[j]);
      assert j != i && ps[j].state != NoProcess ==> ps[j].tid != ps[i].tid;
    }
    forall j, k | 0 <= j < k < PROCESSES
      ensures DifferentProcesses(s'.processes[j], s'.processes[k])
    {
      assert DifferentProcesses(ps[j], ps[k]);
    }
    forall t | 0 <= t < |s'.threads| && s'.threads[t].state == Blocked
      ensures Justified(s'.threads[t], s'.pipes, s'.processes)
    {
      assert Justified(s1.threads[t], s1.pipes, s1.processes);
      if s1.threads[t].place.Waiting? {
        var j :| 0 <= j < |ps| && IsAlive(ps[j]) && ps[j].pid == s1.threads[t].place.pid;
        assert s'.processes[j] == ps[j];
      }
    }
  }

  lemma WaitPassKeeps(s: State, pid: nat)
    requires Shape(s) && Inv(s) && Cur(s).state == Running
    ensures Inv(WaitPass(s, pid).0)
  {
    hide Inv, Counted, Core, Reap, Sleep, Holds;
    var i := FindPid(s.processes, pid, 0);
    if i == PROCESSES || s.processes[i].parent != CurrentPid(s) {
      FinishKeeps(s);
    } else if s.processes[i].state == Exited {
      RecordTid(s, i);
      ReapKeeps(s, s.processes[i].tid);
      ReapCurrent(s, s.processes[i].tid);
      var s1 := Reap(s, s.processes[i].tid);
      ReleasedKeeps(s, s1, pid, i);
      FinishKeeps(Released(s1, pid));
    } else {
      assert IsAlive(s.processes[i]);
      NothingHeld(Cur(s).(place := Waiting(pid)));
      SleepKeeps(s, Num(pid), Waiting(pid));
    }
  }

  lemma NothingHeld(t: Thread)
    requires t.place.Waiting? || t.place == Outside
    ensures Holds(t)
  {
  }

  lemma RecordTid(s: State, i: nat)
    requires Inv(s) && i < PROCESSES && s.processes[i].state != NoProcess
    ensures 0 <= s.processes[i].tid < |s.threads| && 1 <= s.processes[i].pid < s.nextPid
  {
    assert ProcessOk(s.processes[i], s.threads, s.nextPid);
  }

  // ---------------------------------------------------------------------------
  // Spawning

  lemma GrowKeeps(s: State)
    requires Inv(s)
    ensures Inv(s.(threads := s.threads + seq(|s.threads|, _ => FRESH)))
  {
    var ts := s.threads + seq(|s.threads|, _ => FRESH);
    forall t | 0 <= t < |ts|
      ensures Holds(ts[t])
      ensures ts[t].state == Blocked ==> Justified(ts[t], s.pipes, s.processes)
    {
      if t < |s.threads| {
        assert Holds(s.threads[t]);
      }
    }
    GrownCounts(s.threads, ts, s.pipes);
    forall i | 0 <= i < PROCESSES
      ensures ProcessOk(s.processes[i], ts, s.nextPid)
    {
      assert ProcessOk(s.processes[i], s.threads, s.nextPid);
    }
  }

  lemma GrownCounts(ts: seq<Thread>, ts': seq<Thread>, pipes: seq<Pipe>)
    requires Counted(ts, pipes, {}) && ts' == ts + seq(|ts|, _ => FRESH)
    ensures Counted(ts', pipes, {})
  {
    forall i | 0 <= i < |pipes|
      ensures CountsOk(ts', pipes[i], i, {})
    {
      assert CountsOk(ts, pipes[i], i, {});
      GrownRefs(ts, ts', PipeRead, i);
      GrownRefs(ts, ts', PipeWrite, i);
    }
    forall t, f | 0 <= t < |ts'| && 0 <= f < |ts'[t].fds|
      ensures HandleOk(ts'[t].fds[f])
    {
      if t < |ts| {
        assert HandleOk(ts[t].fds[f]);
      }
    }
  }

  lemma GrownRefs(ts: seq<Thread>, ts': seq<Thread>, kind: FdKind, i: nat)
    requires ts' == ts + seq(|ts|, _ => FRESH) && kind != NoKind
    ensures Refs(ts', kind, i) == Refs(ts, kind, i)
  {
    forall e | e in Refs(ts', kind, i)
      ensures e in Refs(ts, kind, i)
    {
      assert e.0 < |ts|;
    }
  }

  lemma SpawnedKeeps(s: State, slot: nat, prio: Priority)
    requires Inv(s) && slot < |s.threads| && s.threads[slot].state == Unused
    ensures Inv(SetThread(s, slot, Spawned(s.threads[slot], prio)))
  {
    var th := Spawned(s.threads[slot], prio);
    var s' := SetThread(s, slot, th);
    ReapedCore(s, slot, th);
    forall i | 0 <= i < PIPES
      ensures CountsOk(s'.threads, s.pipes[i], i, {})
    {
      assert CountsOk(s.threads, s.pipes[i], i, {});
      SpawnedRefs(s.threads, slot, th, PipeRead, i);
      SpawnedRefs(s.threads, slot, th, PipeWrite, i);
    }
    forall t, f | 0 <= t < |s'.threads| && 0 <= f < |s'.threads[t].fds|
      ensures HandleOk(s'.threads[t].fds[f])
    {
      assert t != slot ==> HandleOk(s.threads[t].fds[f]);
    }
    forall i | 0 <= i < PROCESSES
      ensures ProcessOk(s.processes[i], s'.threads, s.nextPid)
    {
      assert ProcessOk(s.processes[i], s.threads, s.nextPid);
    }
  }

  lemma SpawnedRefs(ts: seq<Thread>, slot: nat, th: Thread, kind: FdKind, i: nat)
    requires slot < |ts| && ts[slot].fds == NO_FDS && th.fds == NO_FDS[0 := CONSOLE][1 := CONSOLE]
    requires kind == PipeRead || kind == PipeWrite
    ensures Refs(ts[slot := th], kind, i) == Refs(ts, kind, i)
  {
  }

  lemma SpawnKeeps(s: State, prio: Priority, memory: Memory)
    requires Inv(s)
    ensures Inv(Spawn(s, prio, memory).0)
    ensures var (r, tid) := Spawn(s, prio, memory);
      && |r.threads| >= |s.threads| && r == s.(threads := r.threads) && r.threads[s.current] == Cur(s)
      && (tid >= 0 ==> tid < |r.threads| && tid != s.current && r.threads[tid].fds == NO_FDS[0 := CONSOLE][1 := CONSOLE]
                       && r.threads[tid].place == Outside && r.threads[tid].state == Ready
                       && (tid < |s.threads| ==> s.threads[tid].state == Unused))
  {
    var slot := FirstUnused(s.threads, 0);
    var s1 := if slot == |s.threads| then s.(threads := s.threads + seq(|s.threads|, _ => FRESH)) else s;
    if slot == |s.threads| && memory.table {
      GrowKeeps(s);
    }
    if (slot < |s.threads| || memory.table) && memory.stack {
      SpawnedKeeps(s1, slot, prio);
    }
  }

  /** A free record is filled, or left free, under a fresh pid. */
  lemma RecordKeeps(s: State, i: nat, p: Process)
    requires Inv(s) && i < PROCESSES && s.processes[i].state == NoProcess
    requires p.state == NoProcess
      || (p.pid == s.nextPid && 0 <= p.tid < |s.threads| && s.threads[p.tid].state != Unused)
    requires p.state != NoProcess ==> forall j ::
      0 <= j < PROCESSES && s.processes[j].state != NoProcess ==> s.processes[j].tid != p.tid
    ensures Inv(SetProcess(s, i, p).(nextPid := s.nextPid + 1))
  {
    var ps := s.processes[i := p];
    forall j | 0 <= j < PROCESSES
      ensures ProcessOk(ps[j], s.threads, s.nextPid + 1)
    {
      assert ProcessOk(s.processes[j], s.threads, s.nextPid);
    }
    forall j, k | 0 <= j < k < PROCESSES
      ensures DifferentProcesses(ps[j], ps[k])
    {
      assert DifferentProcesses(s.processes[j], s.processes[k]);
      assert ProcessOk(s.processes[j], s.threads, s.nextPid) && ProcessOk(s.processes[k], s.threads, s.nextPid);
    }
    forall t | 0 <= t < |s.threads| && s.threads[t].state == Blocked
      ensures Justified(s.threads[t], s.pipes, ps)
    {
      assert Justified(s.threads[t], s.pipes, s.processes);
      if s.threads[t].place.Waiting? {
        var j :| 0 <= j < |s.processes| && IsAlive(s.processes[j]) && s.processes[j].pid == s.threads[t].place.pid;
        assert ps[j] == s.processes[j];
      }
    }
  }

  lemma FreshPid(s: State, i: nat, p: Process)
    requires Inv(s) && i < PROCESSES && s.processes[i].state == NoProcess && p.state != NoProcess && p.pid == s.nextPid
    ensures FindPid(s.processes[i := p], s.nextPid, 0) == i
  {
    var ps := s.processes[i := p];
    forall j | 0 <= j < PROCESSES && j != i
      ensures ps[j].state == NoProcess || ps[j].pid != s.nextPid
    {
      assert ProcessOk(s.processes[j], s.threads, s.nextPid);
    }
    assert ps[i] == p;
    var r := FindPid(ps, s.nextPid, 0);
    assert r < |ps| ==> ps[r].state != NoProcess && ps[r].pid == s.nextPid;
  }

  /** Spawning does not look at the process records. */
  lemma SpawnApart(s: State, prio: Priority, memory: Memory, ps: seq<Process>, nextPid: nat)
    requires Shape(s) && |ps| == PROCESSES
    ensures var a := Spawn(s, prio, memory); var b := Spawn(s.(processes := ps, nextPid := nextPid), prio, memory);
      b.1 == a.1 && b.0 == a.0.(processes := ps, nextPid := nextPid)
  {
  }

  lemma SpawnProcessKeeps(s: State, memory: Memory)
    requires Shape(s) && Inv(s)
    ensures Inv(SpawnProcess(s, memory).0)
    ensures var (r, pid) := SpawnProcess(s, memory);
      && |r.threads| >= |s.threads| && r.current == s.current && r.threads[s.current] == Cur(s)
      && (pid >= 0 ==>
            && FindPid(r.processes, pid, 0) < PROCESSES
            && var tid := r.processes[FindPid(r.processes, pid, 0)].tid;
               && 0 <= tid < |r.threads| && tid != s.current && r.threads[tid].fds == NO_FDS[0 := CONSOLE][1 := CONSOLE]
               && r.threads[tid].place == Outside && r.threads[tid].state == Ready)
  {
    hide Inv, Spawn, FindPid, FirstProcess, CurrentPid;
    var i := FirstProcess(s.processes, 0);
    if i < PROCESSES {
      var p := Process(s.nextPid, -1, CurrentPid(s), -1, Starting);
      var ps := s.processes[i := p];
      SpawnApart(s, Normal, memory, ps, s.nextPid + 1);
      SpawnKeeps(s, Normal, memory);
      var (q, tid) := Spawn(s, Normal, memory);
      FreshPid(s, i, p);
      FreshPid(s, i, p.(tid := tid));
      InvShape(q);
      if tid < 0 {
        RecordKeeps(q, i, Process(0, -1, 0, 0, NoProcess));
        assert ps[i := Process(0, -1, 0, 0, NoProcess)] == s.processes[i := Process(0, -1, 0, 0, NoProcess)];
      } else {
        OtherTids(s, q, tid);
        RecordKeeps(q, i, p.(tid := tid));
        assert ps[i := ps[i].(tid := tid)] == s.processes[i := p.(tid := tid)];
      }
    }
  }

  lemma InvShape(s: State)
    requires Inv(s)
    ensures Shape(s) && LowTicks(s.threads)
  {
  }

  lemma OtherTids(s: State, q: State, tid: nat)
    requires Inv(s) && q == s.(threads := q.threads) && (tid < |s.threads| ==> s.threads[tid].state == Unused)
    ensures forall j :: 0 <= j < PROCESSES && s.processes[j].state != NoProcess ==> s.processes[j].tid != tid
  {
    assert forall j :: 0 <= j < PROCESSES ==> ProcessOk(s.processes[j], s.threads, s.nextPid);
  }

  /** One more descriptor for a pipe in use, and one more in its count. */
  lemma ShareCore(s: State, i: nat, p: Pipe)
    requires Core(s) && i < PIPES && s.pipes[i].inUse
    requires p == s.pipes[i].(readers := p.readers, writers := p.writers)
    requires p.readers >= s.pipes[i].readers && p.writers >= s.pipes[i].writers
    ensures Core(SetPipe(s, i, p))
  {
    var s' := SetPipe(s, i, p);
    forall t | 0 <= t < |s.threads| && s.threads[t].state == Blocked
      ensures Justified(s.threads[t], s'.pipes, s'.processes)
    {
      assert Justified(s.threads[t], s.pipes, s.processes);
    }
    assert Fifo(s.pipes[i], s.accepted[i], s.delivered[i]);
    assert Ring(p) == Ring(s.pipes[i]);
  }

  lemma ShareOne(ts: seq<Thread>, p: Pipe, t: nat, f: nat, fd: Fd, q: Pipe, j: nat)
    requires t < |ts| && f < FDS && f < |ts[t].fds| && ts[t].fds[f].kind == Console && CountsOk(ts, p, j, {})
    requires fd.kind == PipeRead || fd.kind == PipeWrite
    requires if fd.handle != j then q == p
             else if fd.kind == PipeRead then p.inUse && q == p.(readers := p.readers + 1)
             else p.inUse && q == p.(writers := p.writers + 1)
    ensures CountsOk(ts[t := ts[t].(fds := ts[t].fds[f := fd])], q, j, {})
  {
    hide Refs;
    NoneRemoved(Refs(ts, PipeRead, j));
    NoneRemoved(Refs(ts, PipeWrite, j));
    if IsRef(fd, PipeRead, j) {
      NewRef(ts, t, f, fd, PipeRead, j);
    } else {
      PlainRefs(ts, t, f, fd, PipeRead, j);
    }
    if IsRef(fd, PipeWrite, j) {
      NewRef(ts, t, f, fd, PipeWrite, j);
    } else {
      PlainRefs(ts, t, f, fd, PipeWrite, j);
    }
  }

  lemma ShareHandles(ts: seq<Thread>, t: nat, f: nat, fd: Fd)
    requires t < |ts| && f < |ts[t].fds| && HandleOk(fd)
    requires forall u, g :: 0 <= u < |ts| && 0 <= g < |ts[u].fds| ==> HandleOk(ts[u].fds[g])
    ensures var ts' := ts[t := ts[t].(fds := ts[t].fds[f := fd])]; forall u, g ::
      0 <= u < |ts'| && 0 <= g < |ts'[u].fds| ==> HandleOk(ts'[u].fds[g])
  {
    hide HandleOk;
    var ts' := ts[t := ts[t].(fds := ts[t].fds[f := fd])];
    forall u, g | 0 <= u < |ts'| && 0 <= g < |ts'[u].fds|
      ensures HandleOk(ts'[u].fds[g])
    {
      assert HandleOk(ts[u].fds[g]) || (u == t && g == f);
    }
  }

  lemma ShareCounts(ts: seq<Thread>, pipes: seq<Pipe>, t: nat, f: nat, fd: Fd, p: Pipe)
    requires Counted(ts, pipes, {}) && t < |ts| && f < FDS && f < |ts[t].fds| && ts[t].fds[f].kind == Console
      && ts[t].state != Unused
    requires (fd.kind == PipeRead || fd.kind == PipeWrite) && HandleOk(fd) && |pipes| == PIPES && pipes[fd.handle].inUse
    requires p == if fd.kind == PipeRead then pipes[fd.handle].(readers := pipes[fd.handle].readers + 1)
                  else pipes[fd.handle].(writers := pipes[fd.handle].writers + 1)
    ensures Counted(ts[t := ts[t].(fds := ts[t].fds[f := fd])], pipes[fd.handle := p], {})
  {
    hide Refs, CountsOk;
    var ts' := ts[t := ts[t].(fds := ts[t].fds[f := fd])];
    var q := pipes[fd.handle := p];
    forall j | 0 <= j < PIPES
      ensures CountsOk(ts', q[j], j, {})
    {
      assert CountsOk(ts, pipes[j], j, {});
      ShareOne(ts, pipes[j], t, f, fd, q[j], j);
    }
    ShareHandles(ts, t, f, fd);
  }

  /** A pipe that some descriptor names is in use. */
  lemma NamedInUse(s: State, t: nat, f: nat)
    requires Inv(s) && t < |s.threads| && f < FDS && f < |s.threads[t].fds|
    requires s.threads[t].fds[f].kind == PipeRead || s.threads[t].fds[f].kind == PipeWrite
    ensures 0 <= s.threads[t].fds[f].handle < PIPES && s.pipes[s.threads[t].fds[f].handle].inUse
    ensures s.threads[t].fds[f].kind == PipeRead ==> s.pipes[s.threads[t].fds[f].handle].readers > 0
    ensures s.threads[t].fds[f].kind == PipeWrite ==> s.pipes[s.threads[t].fds[f].handle].writers > 0
  {
    var fd := s.threads[t].fds[f];
    assert HandleOk(fd);
    var i: nat := fd.handle;
    assert CountsOk(s.threads, s.pipes[i], i, {});
    RefMember(s.threads, fd.kind, i, t, f);
    NoneRemoved(Refs(s.threads, fd.kind, i));
    assert Refs(s.threads, fd.kind, i) != {};
  }

  lemma RedirectKeeps(s: State, tid: nat, f: nat, fd: Fd, p: Pipe)
    requires Shape(s) && Inv(s) && tid < |s.threads| && f < FDS && s.threads[tid].fds[f].kind == Console
    requires s.threads[tid].place == Outside && s.threads[tid].state != Unused
    requires (fd.kind == PipeRead || fd.kind == PipeWrite) && 0 <= fd.handle < PIPES && s.pipes[fd.handle].inUse
    requires p == if fd.kind == PipeRead then s.pipes[fd.handle].(readers := s.pipes[fd.handle].readers + 1)
                  else s.pipes[fd.handle].(writers := s.pipes[fd.handle].writers + 1)
    ensures Inv(SetFd(SetPipe(s, fd.handle, p), tid, f, fd))
  {
    hide Core, Counted, Records;
    InvAll(s);
    ShareCore(s, fd.handle, p);
    var s1 := SetPipe(s, fd.handle, p);
    CoreShape(s1);
    SetFdCore(s1, tid, f, fd);
    SetFdRecords(s1, tid, f, fd);
    ShareCounts(s.threads, s.pipes, tid, f, fd, p);
  }

  lemma InvAll(s: State)
    requires Inv(s)
    ensures Core(s) && Counted(s.threads, s.pipes, {}) && Records(s.threads, s.processes, s.nextPid)
  {
  }

  lemma RedirectInKeeps(s: State, tid: int, f: int)
    requires Shape(s) && Inv(s)
    requires 0 <= tid < |s.threads| ==>
      && tid != s.current && s.threads[tid].fds[0].kind == Console && s.threads[tid].place == Outside
      && s.threads[tid].state != Unused
    ensures Inv(RedirectIn(s, tid, f)) && Shape(RedirectIn(s, tid, f))
    ensures RedirectIn(s, tid, f).current == s.current && |RedirectIn(s, tid, f).threads| == |s.threads|
    ensures 0 <= tid < |s.threads| ==>
      var th := RedirectIn(s, tid, f).threads[tid];
      th.fds[1] == s.threads[tid].fds[1] && th.place == Outside && th.state == s.threads[tid].state
  {
    hide Inv;
    if 0 <= tid < |s.threads| && f >= 0 {
      var fd := FdGet(s, f);
      if fd.kind == PipeRead {
        NamedInUse(s, s.current, f);
        RedirectKeeps(s, tid, 0, Fd(PipeRead, fd.handle, 0),
          s.pipes[fd.handle].(readers := s.pipes[fd.handle].readers + 1));
      }
    }
    InvShape(RedirectIn(s, tid, f));
  }

  lemma RedirectOutKeeps(s: State, tid: int, f: int)
    requires Shape(s) && Inv(s)
    requires 0 <= tid < |s.threads| ==>
      && tid != s.current && s.threads[tid].fds[1].kind == Console && s.threads[tid].place == Outside
      && s.threads[tid].state != Unused
    ensures Inv(RedirectOut(s, tid, f))
  {
    hide Inv;
    if 0 <= tid < |s.threads| && f >= 0 {
      var fd := FdGet(s, f);
      if fd.kind == PipeWrite {
        NamedInUse(s, s.current, f);
        RedirectKeeps(s, tid, 1, Fd(PipeWrite, fd.handle, 0),
          s.pipes[fd.handle].(writers := s.pipes[fd.handle].writers + 1));
      }
    }
  }

  lemma SpawnRedirectKeeps(s: State, memory: Memory, stdin: int, stdout: int)
    requires Shape(s) && Inv(s)
    ensures Inv(SpawnRedirect(s, memory, stdin, stdout).0)
  {
    hide Inv, SpawnProcess, FindPid, RedirectIn, RedirectOut;
    SpawnProcessKeeps(s, memory);
    var (s1, pid) := SpawnProcess(s, memory);
    InvShape(s1);
    if pid >= 0 {
      var tid := s1.processes[FindPid(s1.processes, pid, 0)].tid;
      assert s1.threads[tid].fds[0] == CONSOLE && s1.threads[tid].fds[1] == CONSOLE;
      RedirectInKeeps(s1, tid, stdin);
      RedirectOutKeeps(RedirectIn(s1, tid, stdin), tid, stdout);
    }
  }

  // ---------------------------------------------------------------------------
  // Steps and runs

  lemma ResumedKeeps(s: State)
    requires Shape(s) && Inv(s)
    ensures Inv(Resumed(s))
  {
    if Cur(s).state != Blocked && Cur(s).state != Zombie {
      CurrentHolds(s);
      var th := Cur(s).(state := Running);
      OneMoves(s.threads, s.current, th);
      var s1 := SetThread(s, s.current, th);
      QuietKeeps(s, s1);
      InvShape(s1);
      hide Inv, ReadPass, WritePass, WaitPass, Holds;
      match Cur(s).place
      case Reading(i, len) => ReadPassKeeps(s1, i, len);
      case Writing(i, data) => WritePassKeeps(s1, i, data);
      case Waiting(pid) => WaitPassKeeps(s1, pid);
      case _ =>
    }
  }

  lemma CurrentHolds(s: State)
    requires Inv(s)
    ensures Holds(Cur(s)) && Holds(Cur(s).(state := Running)) && Cur(s).state != Unused
  {
    assert Holds(s.threads[s.current]);
  }

  lemma CallHolds(s: State, f: int)
    requires Shape(s)
    ensures FdGet(s, f).kind == PipeRead && FdGet(s, f).handle >= 0 ==> forall n ::
      Holds(Cur(s).(place := Reading(FdGet(s, f).handle, n)))
    ensures FdGet(s, f).kind == PipeWrite && FdGet(s, f).handle >= 0 ==> forall d ::
      Holds(Cur(s).(place := Writing(FdGet(s, f).handle, d)))
  {
  }

  lemma SleepOnKeeps(s: State, ch: Channel)
    requires Inv(s)
    ensures Inv(Sleep(s, ch, Outside))
  {
    SleepKeeps(s, ch, Outside);
  }

  lemma LoadedKeeps(s: State, i: nat)
    requires Inv(s) && i < PROCESSES && s.processes[i].state != NoProcess
    ensures Inv(SetProcess(s, i, s.processes[i].(state := Live)))
  {
    SameRecord(s, i, s.processes[i].(state := Live));
    var ps := s.processes[i := s.processes[i].(state := Live)];
    forall t | 0 <= t < |s.threads| && s.threads[t].state == Blocked
      ensures Justified(s.threads[t], s.pipes, ps)
    {
      assert Justified(s.threads[t], s.pipes, s.processes);
      if s.threads[t].place.Waiting? {
        var j :| 0 <= j < |s.processes| && IsAlive(s.processes[j]) && s.processes[j].pid == s.threads[t].place.pid;
        assert IsAlive(ps[j]) && ps[j].pid == s.processes[j].pid;
      }
    }
  }

  lemma PriorityKeeps(s: State, t: nat, prio: Priority)
    requires Inv(s) && t < |s.threads|
    ensures Inv(SetThread(s, t, s.threads[t].(prio := prio)))
  {
    InvShape(s);
    OneMoves(s.threads, t, s.threads[t].(prio := prio));
    CurrentHolds(s);
    QuietKeeps(s, SetThread(s, t, s.threads[t].(prio := prio)));
  }

  /** Every step keeps the invariant. */
  lemma StepKeeps(s: State, e: Event)
    requires Shape(s) && Inv(s)
    ensures Inv(Step(s, e))
  {
    hide Inv, Tick, Yield, Wakeup, Resumed, SysPipe, FdClose, FdOpen, ReadPass, WritePass, WaitPass, Spawn,
         SpawnRedirect,
         Exit, KillProcess, Kill, Sleep, Holds, FdGet, FindTid, FindPid;
    if e == TimerTick {
      TickKeeps(s);
    } else if e == KeyPress {
      WakeupKeeps(s, Keyboard);
    } else if e == Retry {
      ResumedKeeps(s);
    } else if InOwnCode(s) {
      match e
      case Pipes => SysPipeKeeps(s);
      case Close(f) => FdCloseKeeps(s, f);
      case OpenFile(kind, handle) =>
        if kind == MemFs || kind == UfsFile {
          OpenFileKeeps(s, kind, handle);
        }
      case ReadFd(f, len) =>
        CallHolds(s, f);
        if FdGet(s, f).kind == PipeRead && FdGet(s, f).handle >= 0 {
          ReadPassKeeps(s, FdGet(s, f).handle, len);
        }
      case WriteFd(f, data) =>
        CallHolds(s, f);
        if FdGet(s, f).kind == PipeWrite && FdGet(s, f).handle >= 0 {
          WritePassKeeps(s, FdGet(s, f).handle, data);
        }
      case NewThread(prio, memory) => SpawnKeeps(s, prio, memory);
      case NewProcess(memory, i, o) => SpawnRedirectKeeps(s, memory, i, o);
      case ImageLoaded =>
        var i := FindTid(s.processes, s.current, 0);
        if i < PROCESSES {
          LoadedKeeps(s, i);
        }
      case Wait(pid) => WaitPassKeeps(s, pid);
      case Leave(status) => ExitKeeps(s, status);
      case Signal(pid, sig) => SignalKeeps(s, pid, sig);
      case SleepOn(ch) => SleepOnKeeps(s, ch);
      case GiveUp => YieldKeeps(s);
      case SetPriority(tid, prio) =>
        if 0 <= tid < |s.threads| {
          PriorityKeeps(s, tid, prio);
        }
      case _ =>
    }
  }

  lemma SignalKeeps(s: State, pid: int, sig: int)
    requires Shape(s) && Inv(s)
    ensures Inv(KillProcess(s, pid, sig).0)
  {
    hide Inv, Kill, FindPid;
    var i := FindPid(s.processes, pid, 0);
    if i < PROCESSES {
      KillKeeps(s, s.processes[i].tid, -128 - sig);
    }
  }

  // ---------------------------------------------------------------------------
  // Whole runs

  /** The state after the events. */
  ghost function Run(s: State, es: seq<Event>): (r: State)
    requires Shape(s) && Inv(s)
    ensures Shape(r) && Inv(r)
    decreases |es|
  {
    if es == [] then s else
    StepKeeps(s, es[0]);
    Run(Step(s, es[0]), es[1..])
  }
}
