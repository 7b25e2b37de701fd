/** What becomes of threads and processes over whole runs: who stops running and
    why, and that a parent gets the code its child ended with
    (kernel/sched/thread.c, kernel/core/process.c). */
module Fates {
  import opened Base
  import opened Kernel
  import opened Runs
  import opened Effects
  import opened Guarantees

  // ---------------------------------------------------------------------------
  // Preemption

  /** When a tick or a yield takes the processor from a thread, it is left ready
      and otherwise as it was, the new one starts a full quantum, and nothing
      else changes. */
  lemma Preempted(s: State, e: Event)
    requires Shape(s) && Inv(s) && (e == TimerTick || e == GiveUp) && Step(s, e).current != s.current
    ensures var r := Step(s, e); var c := s.current; var n := r.current;
      && r == s.(threads := r.threads, current := n) && |r.threads| == |s.threads| && n < |s.threads|
      && r.threads[c] == s.threads[c].(state := Ready, ticks := r.threads[c].ticks)
      && r.threads[c].ticks == s.threads[c].ticks - (if e == TimerTick then 1 else 0)
      && (s.threads[n].state == Ready || s.threads[n].state == Running)
      && r.threads[n] == s.threads[n].(state := Running, ticks := r.threads[n].ticks)
      && r.threads[n].ticks == (match s.threads[n].prio case Low => 2 case Normal => 4 case High => 8)
      && forall t :: 0 <= t < |s.threads| && t != c && t != n ==> r.threads[t] == s.threads[t]
  {
    hide Inv, Step, NextInTurn, Alone;
    StepMeans(s, e);
    assert FullQuantum(Low) == 2 && FullQuantum(Normal) == 4 && FullQuantum(High) == 8;
    TurnRuns(s.threads, s.current, Step(s, e).current);
    TurnRuns(s.threads[s.current := s.threads[s.current].(ticks := s.threads[s.current].ticks - 1)], s.current,
      Step(s, e).current);
  }

  lemma TurnRuns(ts: seq<Thread>, c: nat, n: nat)
    ensures NextInTurn(ts, c, n) ==> n < |ts| && n != c && CanRun(ts[n])
  {
  }

  // ---------------------------------------------------------------------------
  // What a step does to one thread

  /** The thread has ended for good. */
  predicate Over(s: State, t: int) {
    0 <= t < |s.threads| && (s.threads[t].place == Gone || (s.threads[t].state == Zombie && t != s.current))
  }

  /** A thread that can run still can, unless it was stopped; one that is over
      stays over, unless it was reaped. */
  predicate Fate(s: State, r: State, t: nat, stopped: bool, reaped: bool) {
    && t < |s.threads| && t < |r.threads|
    && (CanRun(s.threads[t]) && !stopped ==> CanRun(r.threads[t]))
    && (Over(s, t) && !reaped ==> Over(r, t))
  }

  predicate Kind(a: Thread, b: Thread) {
    b.place == a.place && (CanRun(a) ==> CanRun(b)) && (a.state == Zombie ==> b.state == Zombie)
  }

  lemma KindFate(s: State, r: State, t: nat, stopped: bool, reaped: bool)
    requires r.current == s.current && t < |s.threads| && t < |r.threads| && Kind(s.threads[t], r.threads[t])
    ensures Fate(s, r, t, stopped, reaped)
  {
  }

  lemma PassedFate(ts: seq<Thread>, c: nat, ts': seq<Thread>, c': nat, full: bool, t: nat)
    requires c < |ts| && PassedOn(ts, c, ts', c', full) && t < |ts|
    ensures |ts'| == |ts| && Kind(ts[t], ts'[t]) && (ts[t].state == Zombie && t != c ==> t != c')
      && (t == c ==> ts'[t] == ts[t])
  {
  }

  lemma WokenFate(ts: seq<Thread>, ts': seq<Thread>, ch: Channel, t: nat)
    requires AllWoken(ts, ts', ch) && t < |ts|
    ensures |ts'| == |ts| && Kind(ts[t], ts'[t])
  {
  }

  lemma YieldedFate(s: State, r: State, t: nat)
    requires s.current < |s.threads| && Yielded(s, r) && t < |s.threads|
    ensures Fate(s, r, t, false, false)
  {
  }

  lemma TickedFate(s: State, r: State, t: nat)
    requires s.current < |s.threads| && Ticked(s, r) && t < |s.threads|
    ensures Fate(s, r, t, false, false)
  {
    hide Yielded;
    var less := s.(threads := s.threads[s.current := s.threads[s.current].(ticks := s.threads[s.current].ticks - 1)]);
    if Yielded(less, r) {
      YieldedFate(less, r, t);
    }
  }

  lemma SleptFate(s: State, r: State, ch: Channel, place: Place, t: nat)
    requires s.current < |s.threads| && Slept(s, r, ch, place) && t < |s.threads| && s.threads[s.current].place != Gone
    ensures Fate(s, r, t, t == s.current, false)
  {
    hide PassedOn;
    var ts1 := s.threads[s.current := s.threads[s.current].(state := Blocked, chan := ch, place := place)];
    PassedFate(ts1, s.current, r.threads, r.current, true, t);
  }

  lemma MarkedFate(ts: seq<Thread>, ps: seq<Process>, tid: int, status: int, ts': seq<Thread>, ps': seq<Process>,
      t: nat)
    requires Ended1(ts, ps, tid, status, ts', ps') && t < |ts|
    ensures |ts'| == |ts| && Kind(ts[t], ts'[t])
  {
    if i :| 0 <= i < |ps| && IsRecord(ps[i], tid) {
      WokenFate(ts, ts', Num(ps[i].pid), t);
    }
  }

  lemma LeftFate(s: State, r: State, status: int, t: nat)
    requires s.current < |s.threads| && Left(s, r, status) && t < |s.threads|
    ensures Fate(s, r, t, t == s.current, false) && Over(r, s.current)
  {
    hide PassedOn, Ended1, AllWoken;
    var c := s.current;
    var ts0 := s.threads[c := s.threads[c].(state := Zombie, place := Gone)];
    var ts1, ts2 :| Ended1(ts0, s.processes, c, status, ts1, r.processes) && AllWoken(ts1, ts2, Num(c)) && c < |ts2|
                    && PassedOn(ts2, c, r.threads, r.current, false);
    MarkedFate(ts0, s.processes, c, status, ts1, r.processes, t);
    MarkedFate(ts0, s.processes, c, status, ts1, r.processes, c);
    WokenFate(ts1, ts2, Num(c), t);
    WokenFate(ts1, ts2, Num(c), c);
    PassedFate(ts2, c, r.threads, r.current, false, t);
    PassedFate(ts2, c, r.threads, r.current, false, c);
  }

  lemma KilledFate(s: State, r: State, tid: int, status: int, t: nat)
    requires KilledOther(s, r, tid, status) && tid != s.current && t < |s.threads|
    ensures Fate(s, r, t, t == tid, false) && Over(r, tid)
  {
    hide Ended1;
    var ts0 := s.threads[tid := s.threads[tid].(state := Zombie, chan := Num(0))];
    MarkedFate(ts0, s.processes, tid, status, r.threads, r.processes, t);
    MarkedFate(ts0, s.processes, tid, status, r.threads, r.processes, tid);
  }

  lemma BackFate(s: State, r: State, t: nat)
    requires s.current < |s.threads| && t < |s.threads| && s.threads[s.current].place != Gone && r.current == s.current
    requires Back(s, r) || exists ch :: BackAndWoken(s, r, ch)
    ensures Fate(s, r, t, t == s.current, false)
  {
  }

  lemma ReadFate(s: State, r: State, i: nat, len: nat, t: nat)
    requires Shape(s) && ReadDone(s, r, i, len) && t < |s.threads| && s.threads[s.current].place != Gone
    ensures Fate(s, r, t, t == s.current, false) && r.processes == s.processes && r.nextPid == s.nextPid
  {
    hide Slept, BackAndWoken, Oldest;
    if Slept(s, r, PipeCh(i), Reading(i, len)) {
      SleptFate(s, r, PipeCh(i), Reading(i, len), t);
      SleptApart(s, r, PipeCh(i), Reading(i, len));
    } else {
      BackFate(s, r, t);
    }
  }

  lemma WriteFate(s: State, r: State, i: nat, data: seq<Byte>, t: nat)
    requires Shape(s) && WriteDone(s, r, i, data) && t < |s.threads| && s.threads[s.current].place != Gone
    ensures Fate(s, r, t, t == s.current, false) && r.processes == s.processes && r.nextPid == s.nextPid
  {
    hide Slept, BackAndWoken, Appended;
    if Slept(s, r, PipeCh(i), Writing(i, data)) {
      SleptFate(s, r, PipeCh(i), Writing(i, data), t);
      SleptApart(s, r, PipeCh(i), Writing(i, data));
    } else {
      BackFate(s, r, t);
    }
  }

  lemma SleptApart(s: State, r: State, ch: Channel, place: Place)
    requires s.current < |s.threads| && Slept(s, r, ch, place)
    ensures r == s.(threads := r.threads, current := r.current)
  {
  }

  lemma ReapedFate(s: State, r: State, tid: int, t: nat)
    requires Shape(s) && Reaped(s, r, tid) && t < |s.threads|
    ensures Fate(s, r, t, false, t == tid) && r.current == s.current && |r.threads| == |s.threads|
    ensures r == s.(threads := r.threads, pipes := r.pipes)
  {
    hide Names;
    if t != tid && r != s {
      assert r.threads[t := r.threads[t]] == r.threads;
    }
  }

  /** Record i is that of an ended child of the caller, and the step released it. */
  predicate Released1(s: State, r: State, i: nat, pid: nat) {
    && i < |s.processes| && HasPid(s.processes[i], pid) && s.processes[i].state == Exited
    && CallerIs(s, s.processes[i].parent)
    && r.processes == s.processes[i := Nobody()]
  }

  lemma CollectedFate(s: State, r: State, i: nat, t: nat)
    requires Shape(s) && i < 64 && Collected(s, r, i) && t < |s.threads| && s.threads[s.current].place != Gone
    ensures Fate(s, r, t, t == s.current, t == s.processes[i].tid) && r.processes == s.processes[i := Nobody()]
    ensures r.nextPid == s.nextPid && |r.threads| == |s.threads|
  {
    hide Reaped;
    var m: State :| && Reaped(s, m, s.processes[i].tid) && s.current < |m.threads|
                    && r == m.(threads := m.threads[s.current := m.threads[s.current].(place := Outside)],
                               processes := s.processes[i := Nobody()]);
    ReapedFate(s, m, s.processes[i].tid, t);
  }

  /** A pass of a wait releases one ended record, or none. */
  lemma WaitFate(s: State, r: State, pid: nat, answer: Outcome, t: nat)
    requires Shape(s) && Inv(s) && WaitDone(s, r, pid, answer) && t < |s.threads| && s.threads[s.current].place != Gone
    ensures r.nextPid == s.nextPid
    ensures (r.processes == s.processes && Fate(s, r, t, t == s.current, false))
      || exists i: nat :: i < 64 && Released1(s, r, i, pid) && Fate(s, r, t, t == s.current, t == s.processes[i].tid)
  {
    hide Inv, Slept, Back, Collected, CallerIs, CurrentPid, Fate;
    CallerMeans(s);
    var caller := CurrentPid(s);
    assert CallerIs(s, caller);
    if i: nat :| i < 64 && HasPid(s.processes[i], pid) {
      if s.processes[i].parent != caller {
        ReturnedFate(s, r, t);
      } else if s.processes[i].state == Exited {
        CollectedFate(s, r, i, t);
        assert Released1(s, r, i, pid);
      } else {
        SleptFate(s, r, Num(pid), Waiting(pid), t);
        SleptApart(s, r, Num(pid), Waiting(pid));
      }
    } else {
      ReturnedFate(s, r, t);
    }
  }

  lemma ReturnedFate(s: State, r: State, t: nat)
    requires Shape(s) && t < |s.threads| && s.threads[s.current].place != Gone
    ensures Back(s, r) ==> r.processes == s.processes && r.nextPid == s.nextPid && Fate(s, r, t, t == s.current, false)
  {
    if Back(s, r) {
      BackFate(s, r, t);
    }
  }

  lemma GotFate(s: State, r: State, f: nat, fd: Fd, t: nat)
    requires s.current < |s.threads| && GotFd(s, r, f, fd) && t < |s.threads|
    ensures Kind(s.threads[t], r.threads[t]) && r == s.(threads := r.threads) && |r.threads| == |s.threads|
  {
  }

  lemma OpenedFate(s: State, r: State, kind: FdKind, handle: int, t: nat)
    requires Shape(s) && FileOpened(s, r, kind, handle) && t < |s.threads|
    ensures Fate(s, r, t, false, false) && r == s.(threads := r.threads)
  {
    hide GotFd, LowestFree, NoneFree, Fate;
    LowestOrNone(s.threads[s.current].fds, 2);
    if f: nat :| LowestFree(s.threads[s.current].fds, 2, f) {
      GotFate(s, r, f, Fd(kind, handle, 0), t);
    }
    KindFate(s, r, t, false, false);
  }

  lemma EndFate(s: State, r: State, i: int, reader: bool, t: nat)
    requires EndClosed(s, r, i, reader) && t < |s.threads|
    ensures |r.threads| == |s.threads| && Kind(s.threads[t], r.threads[t])
      && r == s.(threads := r.threads, pipes := r.pipes)
  {
  }

  lemma ClosedFate(s: State, r: State, f: int, t: nat)
    requires Shape(s) && Closed(s, r, f) && t < |s.threads|
    ensures Fate(s, r, t, false, false) && r == s.(threads := r.threads, pipes := r.pipes)
  {
    hide EndClosed, GotFd, Fate;
    if 0 <= f < 8 && s.threads[s.current].fds[f].kind != NoKind {
      var fd := s.threads[s.current].fds[f];
      var m: State :| && (if fd.kind == PipeRead then EndClosed(s, m, fd.handle, true)
                          else if fd.kind == PipeWrite then EndClosed(s, m, fd.handle, false) else m == s)
                      && m.current == s.current && |m.threads| == |s.threads| && GotFd(m, r, f, Fd(NoKind, -1, 0));
      if m != s {
        EndFate(s, m, fd.handle, fd.kind == PipeRead, t);
      }
      GotFate(m, r, f, Fd(NoKind, -1, 0), t);
    }
    KindFate(s, r, t, false, false);
  }

  lemma PipedFate(s: State, r: State, answer: (int, int), t: nat)
    requires Shape(s) && Piped(s, r, answer) && t < |s.threads|
    ensures Fate(s, r, t, false, false) && r.processes == s.processes && r.nextPid == s.nextPid
  {
    hide FreePipe, TwoFree, PipeMade, PipeUndone, Fate;
    if i: nat :| FreePipe(s.pipes, i) {
      if a: nat, b: nat :| TwoFree(s.threads[s.current].fds, a, b) {
        MadeFate(s, r, i, a, b, t);
      } else {
        UndoneFate(s, r, i, t);
      }
    }
    KindFate(s, r, t, false, false);
  }

  lemma MadeFate(s: State, r: State, i: nat, a: nat, b: nat, t: nat)
    requires Shape(s) && PipeMade(s, r, i, a, b) && t < |s.threads|
    ensures r.processes == s.processes && r.nextPid == s.nextPid && r.current == s.current && |r.threads| == |s.threads|
    ensures Kind(s.threads[t], r.threads[t])
  {
  }

  lemma UndoneFate(s: State, r: State, i: nat, t: nat)
    requires Shape(s) && i < 8 && PipeUndone(s, r, i) && t < |s.threads|
    ensures r.processes == s.processes && r.nextPid == s.nextPid && r.current == s.current && |r.threads| == |s.threads|
    ensures Kind(s.threads[t], r.threads[t])
  {
    hide AllWoken, LowestFree, NoneFree;
    var th := s.threads[s.current];
    LowestOrNone(th.fds, 2);
    if a: nat :| LowestFree(th.fds, 2, a) {
      LowestHere(th.fds, 2, a);
      var ts1 := s.threads[s.current := th.(fds := th.fds[a := Fd(NoKind, -1, 0)])];
      WokenFate(ts1, r.threads, PipeCh(i), t);
    } else {
      WokenFate(s.threads, r.threads, PipeCh(i), t);
    }
  }

  lemma LowestHere(fds: seq<Fd>, from: nat, a: nat)
    requires LowestFree(fds, from, a)
    ensures a < |fds|
  {
  }

  lemma SpawnFate(s: State, r: State, prio: Priority, memory: Memory, tid: int, t: nat)
    requires ThreadMade(s, r, prio, memory, tid) && t < |s.threads| && s.threads[t].state != Unused
    ensures t < |r.threads| && r.threads[t] == s.threads[t] && r == s.(threads := r.threads)
  {
    hide NewlyMade;
    OnlyUnused(s.threads);
    var u := FirstUnused(s.threads, 0);
    if u < |s.threads| {
      assert LowestUnused(s.threads, u);
    } else if memory.table {
      assert r.threads[t] == r.threads[..|s.threads|][t];
    }
  }

  /** The new record, if there is one, carries a pid never given before. */
  predicate RecordMade(s: State, r: State) {
    && s.nextPid <= r.nextPid <= s.nextPid + 1 && |r.processes| == |s.processes|
    && forall i :: 0 <= i < |s.processes| ==>
         r.processes[i] == s.processes[i]
         || (s.processes[i].state == NoProcess
             && (r.processes[i] == Nobody()
               || (r.processes[i].state == Starting && r.processes[i].pid == s.nextPid < r.nextPid)))
  }

  lemma ProcessFate(s: State, r: State, memory: Memory, pid: int, t: nat)
    requires Shape(s) && Inv(s) && ProcessMade(s, r, memory, pid) && t < |s.threads| && s.threads[t].state != Unused
    ensures t < |r.threads| && r.threads[t] == s.threads[t] && r.current == s.current && RecordMade(s, r)
  {
    hide Inv, ThreadMade, LowestProcess, CallerIs, CurrentPid;
    CallerMeans(s);
    if i: nat :| LowestProcess(s.processes, i) {
      LowestRecord(s.processes, i);
      var tid: int :| MadeIn(s, r, memory, tid);
      SpawnFate(s, s.(threads := r.threads), Normal, memory, tid, t);
      assert CallerIs(s, CurrentPid(s));
    }
  }

  lemma LowestRecord(ps: seq<Process>, i: nat)
    requires LowestProcess(ps, i)
    ensures i < |ps| && ps[i].state == NoProcess
  {
  }

  lemma LaunchFate(s: State, r: State, memory: Memory, stdin: int, stdout: int, t: nat)
    requires Shape(s) && Inv(s) && Launched(s, r, memory, stdin, stdout) && t < |s.threads|
      && s.threads[t].state != Unused
    ensures Fate(s, r, t, false, false) && RecordMade(s, r)
  {
    hide Inv, ProcessMade, RecordMade;
    var m: State, pid: int :| ProcessMade(s, m, memory, pid) && Shape(m) && IsLaunch(m, r, pid, stdin, stdout);
    ProcessFate(s, m, memory, pid, t);
    if pid >= 0 {
      var i :| 0 <= i < 64 && HasPid(m.processes[i], pid) && 0 <= m.processes[i].tid < |m.threads|
               && Redirected(m, r, m.processes[i].tid, stdin, stdout);
      assert Kind(m.threads[t], r.threads[t]);
      assert r.processes == m.processes && r.nextPid == m.nextPid;
    }
    SameMade(s, m, r);
    KindFate(s, r, t, false, false);
  }

  lemma SameMade(s: State, m: State, r: State)
    requires RecordMade(s, m) && r.processes == m.processes && r.nextPid == m.nextPid
    ensures RecordMade(s, r)
  {
  }

  // ---------------------------------------------------------------------------
  // One step

  predicate Executing(s: State)
    requires s.current < |s.threads|
  {
    s.threads[s.current].state == Running && s.threads[s.current].place == Outside
  }

  /** Thread t is that of a process with this pid, which a kill ends. */
  ghost predicate IsKilled(s: State, pid: int, t: nat) {
    exists i: nat :: Killable(s, i, pid) && s.processes[i].tid == t
  }

  /** Thread t runs and makes a call that may sleep, or exits; or it is killed. */
  ghost predicate Stopped(s: State, e: Event, t: nat)
    requires s.current < |s.threads|
  {
    || (t == s.current && (e.SleepOn? || e.ReadFd? || e.WriteFd? || e.Wait? || e.Retry? || e.Leave?))
    || (e.Signal? && Executing(s) && IsKilled(s, e.target, t))
  }

  /** The thread was that of an ended child, whose record the step released. */
  predicate WasReaped(s: State, r: State, t: nat) {
    exists i :: 0 <= i < |s.processes| && i < |r.processes| && s.processes[i].state == Exited && s.processes[i].tid == t
                && r.processes[i] == Nobody()
  }

  lemma FateMore(s: State, r: State, t: nat, stopped: bool, reaped: bool, stopped': bool, reaped': bool)
    requires Fate(s, r, t, stopped, reaped) && (stopped ==> stopped') && (reaped ==> reaped')
    ensures Fate(s, r, t, stopped', reaped')
  {
  }

  lemma ReapedRecord(s: State, r: State, i: nat, pid: nat)
    requires Released1(s, r, i, pid)
    ensures s.processes[i].tid >= 0 ==> WasReaped(s, r, s.processes[i].tid)
  {
  }

  lemma WaitingFate(s: State, r: State, pid: nat, answer: Outcome, t: nat)
    requires Shape(s) && Inv(s) && WaitDone(s, r, pid, answer) && t < |s.threads| && s.threads[s.current].place != Gone
    ensures Fate(s, r, t, t == s.current, WasReaped(s, r, t))
  {
    hide Inv, WaitDone, Fate, WasReaped, Released1;
    WaitFate(s, r, pid, answer, t);
    if i: nat :| i < 64 && Released1(s, r, i, pid) && Fate(s, r, t, t == s.current, t == s.processes[i].tid) {
      ReapedRecord(s, r, i, pid);
      FateMore(s, r, t, t == s.current, t == s.processes[i].tid, t == s.current, WasReaped(s, r, t));
    } else {
      FateMore(s, r, t, t == s.current, false, t == s.current, WasReaped(s, r, t));
    }
  }

  lemma WentOnFate(s: State, r: State, t: nat)
    requires Shape(s) && Inv(s) && WentOn(s, r) && t < |s.threads|
    ensures Fate(s, r, t, t == s.current, WasReaped(s, r, t))
  {
    hide Inv, ReadDone, WriteDone, WaitDone, WasReaped, PipeShape;
    var th := s.threads[s.current];
    if th.state != Blocked && th.state != Zombie {
      var m := s.(threads := s.threads[s.current := th.(state := Running)]);
      GoingOn(s);
      var gone := WasReaped(s, r, t);
      assert WasReaped(m, r, t) ==> gone by {
        SameReaped(s, m, r, t);
      }
      match th.place
      case Reading(i, len) => ReadFate(m, r, i, len, t);
      case Writing(i, data) => WriteFate(m, r, i, data, t);
      case Waiting(pid) =>
        var answer :| WaitDone(m, r, pid, answer);
        WaitingFate(m, r, pid, answer, t);
      case _ =>
    }
  }

  lemma SameReaped(s: State, m: State, r: State, t: nat)
    requires m.processes == s.processes
    ensures WasReaped(m, r, t) ==> WasReaped(s, r, t)
  {
  }

  lemma GoingOn(s: State)
    requires Shape(s) && Inv(s)
    ensures var m := s.(threads := s.threads[s.current := s.threads[s.current].(state := Running)]); Shape(m) && Inv(m)
  {
    hide Inv;
    CurrentHolds(s);
    InvShape(s);
    var th := Cur(s).(state := Running);
    OneMoves(s.threads, s.current, th);
    QuietKeeps(s, SetThread(s, s.current, th));
    InvShape(SetThread(s, s.current, th));
  }

  lemma SignalledFate(s: State, r: State, pid: int, sig: int, t: nat)
    requires Shape(s) && Signalled(s, r, pid, sig) && t < |s.threads|
    ensures Fate(s, r, t, IsKilled(s, pid, t), false)
  {
    hide Killable, Left, KilledOther, Fate;
    if i: nat :| Killable(s, i, pid) {
      KillableThread(s, i, pid);
      if s.processes[i].tid == s.current {
        LeftFate(s, r, -128 - sig, t);
      } else {
        KilledFate(s, r, s.processes[i].tid, -128 - sig, t);
      }
      FateMore(s, r, t, t == s.processes[i].tid, false, IsKilled(s, pid, t), false);
    } else {
      KindFate(s, r, t, false, false);
    }
  }

  lemma KillableThread(s: State, i: nat, pid: int)
    requires Killable(s, i, pid)
    ensures i < |s.processes| && 0 <= s.processes[i].tid < |s.threads|
  {
  }

  lemma LoadedFate(s: State, r: State)
    requires Loaded(s, r)
    ensures r == s.(processes := r.processes)
  {
    if i: nat :| i < |s.processes| && IsRecord(s.processes[i], s.current) {
    }
  }

  /** A step stops no thread that can run but the ones named above, and revives
      none that is over. */
  lemma StepFate(s: State, e: Event, t: nat)
    requires Shape(s) && Inv(s) && t < |s.threads| && s.threads[t].state != Unused
    ensures Fate(s, Step(s, e), t, Stopped(s, e, t), WasReaped(s, Step(s, e), t))
  {
    hide Inv, Step, Fate, Stopped, WasReaped, Ticked, WentOn, CallEffect, AllWoken;
    StepMeans(s, e);
    var r := Step(s, e);
    var gone := WasReaped(s, r, t);
    StoppedCases(s, e, t);
    if e == TimerTick {
      TickedFate(s, r, t);
      FateMore(s, r, t, false, false, Stopped(s, e, t), gone);
    } else if e == KeyPress {
      WokenFate(s.threads, r.threads, Keyboard, t);
      KindFate(s, r, t, Stopped(s, e, t), gone);
    } else if e == Retry {
      WentOnFate(s, r, t);
      FateMore(s, r, t, t == s.current, gone, Stopped(s, e, t), gone);
    } else if Executing(s) {
      CallFate(s, e, r, t);
    } else {
      KindFate(s, r, t, Stopped(s, e, t), gone);
    }
  }

  lemma StoppedCases(s: State, e: Event, t: nat)
    requires s.current < |s.threads|
    ensures t == s.current && (e.SleepOn? || e.ReadFd? || e.WriteFd? || e.Wait? || e.Retry? || e.Leave?) ==>
      Stopped(s, e, t)
    ensures e.Signal? && Executing(s) && IsKilled(s, e.target, t) ==>
      Stopped(s, e, t)
  {
  }

  lemma CallFate(s: State, e: Event, r: State, t: nat)
    requires Shape(s) && Inv(s) && t < |s.threads| && s.threads[t].state != Unused && Executing(s)
    requires CallEffect(s, e, r)
    ensures Fate(s, r, t, Stopped(s, e, t), WasReaped(s, r, t))
  {
    hide Inv, Fate, Stopped, WasReaped, Yielded, Slept, Piped, Closed, FileOpened, ReadDone, WriteDone, ThreadMade,
         Launched, Loaded, WaitDone, Left, Signalled, IsKilled;
    var gone := WasReaped(s, r, t);
    var stop := Stopped(s, e, t);
    StoppedCases(s, e, t);
    match e {
      case Pipes =>
        var answer :| Piped(s, r, answer);
        PipedFate(s, r, answer, t);
        FateMore(s, r, t, false, false, stop, gone);
      case Close(f) =>
        ClosedFate(s, r, f, t);
        FateMore(s, r, t, false, false, stop, gone);
      case OpenFile(kind, handle) =>
        if kind == MemFs || kind == UfsFile {
          OpenedFate(s, r, kind, handle, t);
          FateMore(s, r, t, false, false, stop, gone);
        } else {
          KindFate(s, r, t, stop, gone);
        }
      case ReadFd(f, len) =>
        if HasEnd(s, f, PipeRead) && s.threads[s.current].fds[f].handle >= 0 {
          ReadFate(s, r, s.threads[s.current].fds[f].handle, len, t);
          FateMore(s, r, t, t == s.current, false, stop, gone);
        } else {
          KindFate(s, r, t, stop, gone);
        }
      case WriteFd(f, data) =>
        if HasEnd(s, f, PipeWrite) && s.threads[s.current].fds[f].handle >= 0 {
          WriteFate(s, r, s.threads[s.current].fds[f].handle, data, t);
          FateMore(s, r, t, t == s.current, false, stop, gone);
        } else {
          KindFate(s, r, t, stop, gone);
        }
      case NewThread(prio, memory) =>
        var tid :| ThreadMade(s, r, prio, memory, tid);
        SpawnFate(s, r, prio, memory, tid, t);
        KindFate(s, r, t, stop, gone);
      case NewProcess(memory, stdin, stdout) =>
        LaunchFate(s, r, memory, stdin, stdout, t);
        FateMore(s, r, t, false, false, stop, gone);
      case ImageLoaded =>
        LoadedFate(s, r);
        KindFate(s, r, t, stop, gone);
      case Wait(pid) =>
        var answer :| WaitDone(s, r, pid, answer);
        WaitingFate(s, r, pid, answer, t);
        FateMore(s, r, t, t == s.current, gone, stop, gone);
      case Leave(status) =>
        LeftFate(s, r, status, t);
        FateMore(s, r, t, t == s.current, false, stop, gone);
      case Signal(pid, sig) =>
        SignalledFate(s, r, pid, sig, t);
        FateMore(s, r, t, IsKilled(s, pid, t), false, stop, gone);
      case SleepOn(ch) =>
        SleptFate(s, r, ch, Outside, t);
        FateMore(s, r, t, t == s.current, false, stop, gone);
      case GiveUp =>
        YieldedFate(s, r, t);
        FateMore(s, r, t, false, false, stop, gone);
      case _ =>
        KindFate(s, r, t, stop, gone);
    }
  }

  // ---------------------------------------------------------------------------
  // Process records

  /** The event ends the process of record i with code c: its thread leaves with
      c, or it is killed by signal -128 - c. */
  predicate Ends(s: State, e: Event, i: nat, c: int)
    requires s.current < |s.threads|
  {
    && i < |s.processes| && s.processes[i].state != NoProcess && Executing(s)
    && ((e.Leave? && s.processes[i].tid == s.current && c == e.status)
        || (e.Signal? && Killable(s, i, e.target) && c == -128 - e.sig))
  }

  ghost predicate IsEnd(s: State, e: Event, i: nat)
    requires s.current < |s.threads|
  {
    exists c :: Ends(s, e, i, c)
  }

  /** The parent of process p waits for it. */
  predicate Collects(s: State, e: Event, p: Process)
    requires s.current < |s.threads|
  {
    (e == Wait(p.pid) || (e == Retry && s.threads[s.current].place == Waiting(p.pid))) && CallerIs(s, p.parent)
  }

  /** What became of record i: ended with the event's code; as it was; loaded; of
      an ended child and released; or free, and free or fresh now. */
  ghost predicate RecordFate(s: State, e: Event, r: State, i: nat)
    requires s.current < |s.threads| && i < |s.processes| == |r.processes|
  {
    var p := s.processes[i];
    var q := r.processes[i];
    && (forall c :: Ends(s, e, i, c) ==> q == Process(p.pid, p.tid, p.parent, c, Exited))
    && (IsEnd(s, e, i) || q == p
        || (e == ImageLoaded && Executing(s) && IsRecord(p, s.current) && q == p.(state := Live))
        || (p.state == Exited && q == Nobody() && Collects(s, e, p))
        || (p.state == NoProcess && (q == Nobody() || (q.state == Starting && q.pid == s.nextPid < r.nextPid))))
  }

  ghost predicate RecordsFate(s: State, e: Event, r: State)
    requires s.current < |s.threads|
  {
    && |r.processes| == |s.processes| && s.nextPid <= r.nextPid
    && forall i: nat :: i < |s.processes| ==> RecordFate(s, e, r, i)
  }

  lemma SameRecordsFate(s: State, e: Event, r: State)
    requires s.current < |s.threads| && r.processes == s.processes && r.nextPid == s.nextPid
    requires !Executing(s) || (!e.Leave? && !e.Signal?)
    ensures RecordsFate(s, e, r)
  {
  }

  lemma MadeRecordsFate(s: State, e: Event, r: State)
    requires s.current < |s.threads| && RecordMade(s, r) && !e.Leave? && !e.Signal?
    ensures RecordsFate(s, e, r)
  {
  }

  lemma ReleasedRecordsFate(s: State, e: Event, r: State, i: nat, pid: nat)
    requires s.current < |s.threads| && Released1(s, r, i, pid) && r.nextPid == s.nextPid
    requires e == Wait(pid) || (e == Retry && s.threads[s.current].place == Waiting(pid))
    ensures RecordsFate(s, e, r)
  {
  }

  lemma LoadedRecordsFate(s: State, r: State)
    requires s.current < |s.threads| && Loaded(s, r) && Executing(s)
    ensures RecordsFate(s, ImageLoaded, r)
  {
    LoadedFate(s, r);
    if i: nat :| i < |s.processes| && IsRecord(s.processes[i], s.current) {
      assert r.processes == s.processes[i := s.processes[i].(state := Live)];
    }
  }

  lemma MarkedRecords(ts: seq<Thread>, ps: seq<Process>, tid: int, status: int, ts': seq<Thread>, ps': seq<Process>)
    requires Ended1(ts, ps, tid, status, ts', ps')
    ensures |ps'| == |ps| && forall i :: 0 <= i < |ps| ==>
      ps'[i] == if IsRecord(ps[i], tid) then Process(ps[i].pid, ps[i].tid, ps[i].parent, status, Exited) else ps[i]
  {
  }

  lemma LeftRecords(s: State, r: State, status: int)
    requires s.current < |s.threads| && Left(s, r, status)
    ensures r.nextPid == s.nextPid && |r.processes| == |s.processes|
    ensures forall i :: 0 <= i < |s.processes| ==> var p := s.processes[i];
      r.processes[i] == if IsRecord(p, s.current) then Process(p.pid, p.tid, p.parent, status, Exited) else p
  {
    hide PassedOn, Ended1, AllWoken;
    var c := s.current;
    var ts0 := s.threads[c := s.threads[c].(state := Zombie, place := Gone)];
    var ts1, ts2 :| Ended1(ts0, s.processes, c, status, ts1, r.processes) && AllWoken(ts1, ts2, Num(c)) && c < |ts2|
                    && PassedOn(ts2, c, r.threads, r.current, false);
    MarkedRecords(ts0, s.processes, c, status, ts1, r.processes);
  }

  lemma LeaveRecordsFate(s: State, r: State, status: int)
    requires s.current < |s.threads| && Left(s, r, status) && Executing(s)
    ensures RecordsFate(s, Leave(status), r)
  {
    hide Left;
    LeftRecords(s, r, status);
    forall i: nat | i < |s.processes|
      ensures RecordFate(s, Leave(status), r, i)
    {
      assert IsRecord(s.processes[i], s.current) ==> Ends(s, Leave(status), i, status);
    }
  }

  /** A kill ends the record it is aimed at and no other. */
  lemma KilledRecords(s: State, r: State, pid: int, sig: int, k: nat)
    requires Shape(s) && Inv(s) && Signalled(s, r, pid, sig) && Killable(s, k, pid)
    ensures r.nextPid == s.nextPid && |r.processes| == |s.processes|
    ensures forall i :: 0 <= i < |s.processes| ==> var p := s.processes[i];
      r.processes[i] == if i == k then Process(p.pid, p.tid, p.parent, -128 - sig, Exited) else p
  {
    hide Inv, Left, Ended1;
    KillableThread(s, k, pid);
    var tid := s.processes[k].tid;
    OtherRecords(s, k);
    if tid == s.current {
      LeftRecords(s, r, -128 - sig);
    } else {
      var ts0 := s.threads[tid := s.threads[tid].(state := Zombie, chan := Num(0))];
      MarkedRecords(ts0, s.processes, tid, -128 - sig, r.threads, r.processes);
    }
  }

  lemma OtherRecords(s: State, k: nat)
    requires Shape(s) && Inv(s) && k < 64 && s.processes[k].state != NoProcess
    ensures forall i :: 0 <= i < 64 && i != k ==>
      !IsRecord(s.processes[i], s.processes[k].tid) && !HasPid(s.processes[i], s.processes[k].pid)
  {
    hide Core, Counted;
    forall i | 0 <= i < 64 && i != k
      ensures !IsRecord(s.processes[i], s.processes[k].tid) && !HasPid(s.processes[i], s.processes[k].pid)
    {
      if i < k {
        assert DifferentProcesses(s.processes[i], s.processes[k]);
      } else {
        assert DifferentProcesses(s.processes[k], s.processes[i]);
      }
    }
  }

  lemma SignalRecordsFate(s: State, r: State, pid: int, sig: int)
    requires Shape(s) && Inv(s) && Signalled(s, r, pid, sig) && Executing(s)
    ensures RecordsFate(s, Signal(pid, sig), r)
  {
    hide Inv, Left, KilledOther;
    if k: nat :| Killable(s, k, pid) {
      KilledRecords(s, r, pid, sig, k);
      OtherRecords(s, k);
      assert Ends(s, Signal(pid, sig), k, -128 - sig);
    }
  }

  lemma WaitRecordsFate(s: State, e: Event, r: State, pid: nat, answer: Outcome)
    requires Shape(s) && Inv(s) && WaitDone(s, r, pid, answer) && s.threads[s.current].place != Gone
    requires e == Wait(pid) || (e == Retry && s.threads[s.current].place == Waiting(pid))
    ensures RecordsFate(s, e, r)
  {
    hide Inv, WaitDone, Fate, RecordsFate, Released1;
    WaitFate(s, r, pid, answer, s.current);
    if i: nat :| i < 64 && Released1(s, r, i, pid) {
      ReleasedRecordsFate(s, e, r, i, pid);
    } else {
      SameRecordsFate(s, e, r);
    }
  }

  lemma WentOnRecordsFate(s: State, r: State)
    requires Shape(s) && Inv(s) && WentOn(s, r)
    ensures RecordsFate(s, Retry, r)
  {
    hide Inv, ReadDone, WriteDone, WaitDone, PipeShape, RecordFate, Fate;
    var th := s.threads[s.current];
    if th.state != Blocked && th.state != Zombie {
      var m := s.(threads := s.threads[s.current := th.(state := Running)]);
      GoingOn(s);
      match th.place {
        case Reading(i, len) =>
          ReadFate(m, r, i, len, s.current);
          SameRecordsFate(m, Retry, r);
        case Writing(i, data) =>
          WriteFate(m, r, i, data, s.current);
          SameRecordsFate(m, Retry, r);
        case Waiting(pid) =>
          var answer :| WaitDone(m, r, pid, answer);
          WaitRecordsFate(m, Retry, r, pid, answer);
        case _ =>
          SameRecordsFate(m, Retry, r);
      }
      MovedRecordsFate(s, m, r);
    } else {
      SameRecordsFate(s, Retry, r);
    }
  }

  lemma MovedRecordsFate(s: State, m: State, r: State)
    requires s.current < |s.threads| && m.current < |m.threads| && m.processes == s.processes && m.nextPid == s.nextPid
    requires m.current == s.current && m.threads[s.current].place == s.threads[s.current].place
    requires RecordsFate(m, Retry, r)
    ensures RecordsFate(s, Retry, r)
  {
    forall i: nat | i < |s.processes|
      ensures RecordFate(s, Retry, r, i)
    {
      assert RecordFate(m, Retry, r, i);
    }
  }

  /** What a step does to the process records. */
  lemma StepRecords(s: State, e: Event)
    requires Shape(s) && Inv(s)
    ensures RecordsFate(s, e, Step(s, e))
  {
    hide Inv, Step, Yielded, WentOn, CallEffect, AllWoken, RecordsFate;
    StepMeans(s, e);
    var r := Step(s, e);
    if e == Retry {
      WentOnRecordsFate(s, r);
    } else if e == TimerTick {
      TickedApart(s, r);
      SameRecordsFate(s, e, r);
    } else if e != KeyPress && Executing(s) {
      CallRecordsFate(s, e, r);
    } else {
      SameRecordsFate(s, e, r);
    }
  }

  lemma YieldedApart(s: State, r: State)
    requires s.current < |s.threads| && Yielded(s, r)
    ensures r == s.(threads := r.threads, current := r.current)
  {
  }

  lemma TickedApart(s: State, r: State)
    requires s.current < |s.threads| && Ticked(s, r)
    ensures r == s.(threads := r.threads, current := r.current)
  {
    hide NextInTurn, Alone, SameBut;
  }

  lemma CallRecordsFate(s: State, e: Event, r: State)
    requires Shape(s) && Inv(s) && Executing(s) && CallEffect(s, e, r)
    ensures RecordsFate(s, e, r)
  {
    hide Inv, Fate, Yielded, Slept, Piped, Closed, FileOpened, ReadDone, WriteDone, ThreadMade, Launched, Loaded,
         WaitDone,
         Left, Signalled, RecordsFate, RecordMade;
    var c := s.current;
    CurrentHolds(s);
    match e {
      case Pipes =>
        var answer :| Piped(s, r, answer);
        PipedFate(s, r, answer, c);
        SameRecordsFate(s, e, r);
      case Close(f) =>
        ClosedFate(s, r, f, c);
        SameRecordsFate(s, e, r);
      case OpenFile(kind, handle) =>
        if kind == MemFs || kind == UfsFile {
          OpenedFate(s, r, kind, handle, c);
        }
        SameRecordsFate(s, e, r);
      case ReadFd(f, len) =>
        if HasEnd(s, f, PipeRead) && s.threads[c].fds[f].handle >= 0 {
          ReadFate(s, r, s.threads[c].fds[f].handle, len, c);
        }
        SameRecordsFate(s, e, r);
      case WriteFd(f, data) =>
        if HasEnd(s, f, PipeWrite) && s.threads[c].fds[f].handle >= 0 {
          WriteFate(s, r, s.threads[c].fds[f].handle, data, c);
        }
        SameRecordsFate(s, e, r);
      case NewThread(prio, memory) =>
        var tid :| ThreadMade(s, r, prio, memory, tid);
        SpawnFate(s, r, prio, memory, tid, c);
        SameRecordsFate(s, e, r);
      case NewProcess(memory, stdin, stdout) =>
        LaunchFate(s, r, memory, stdin, stdout, c);
        MadeRecordsFate(s, e, r);
      case ImageLoaded => LoadedRecordsFate(s, r);
      case Wait(pid) =>
        var answer :| WaitDone(s, r, pid, answer);
        WaitRecordsFate(s, e, r, pid, answer);
      case Leave(status) => LeaveRecordsFate(s, r, status);
      case Signal(pid, sig) => SignalRecordsFate(s, r, pid, sig);
      case SleepOn(ch) =>
        SleptApart(s, r, ch, Outside);
        SameRecordsFate(s, e, r);
      case GiveUp =>
        YieldedApart(s, r);
        SameRecordsFate(s, e, r);
      case _ => SameRecordsFate(s, e, r);
    }
  }

  // ---------------------------------------------------------------------------
  // Whole runs

  /** The state before event k of a run. */
  ghost function At(s: State, es: seq<Event>, k: nat): (r: State)
    requires Shape(s) && Inv(s) && k <= |es|
    ensures Shape(r) && Inv(r)
  {
    Run(s, es[..k])
  }

  lemma AtStart(s: State, es: seq<Event>)
    requires Shape(s) && Inv(s)
    ensures At(s, es, 0) == s && At(s, es, |es|) == Run(s, es)
  {
    assert es[..0] == [] && es[..|es|] == es;
  }

  lemma {:induction false} RunAppend(s: State, es: seq<Event>, e: Event)
    requires Shape(s) && Inv(s)
    ensures Run(s, es + [e]) == Step(Run(s, es), e)
    decreases |es|
  {
    hide Inv, Shape, Step;
    if es == [] {
      assert es + [e] == [e];
      assert [e][1..] == [];
      StepKeeps(s, e);
    } else {
      StepKeeps(s, es[0]);
      InvShape(Step(s, es[0]));
      assert (es + [e])[1..] == es[1..] + [e];
      RunAppend(Step(s, es[0]), es[1..], e);
    }
  }

  lemma AtNext(s: State, es: seq<Event>, k: nat)
    requires Shape(s) && Inv(s) && k < |es|
    ensures At(s, es, k + 1) == Step(At(s, es, k), es[k])
  {
    hide Inv, Step;
    RunAppend(s, es[..k], es[k]);
    assert es[..k + 1] == es[..k] + [es[k]];
  }

  /** A runnable thread stops being runnable only by a call of its own that sleeps
      or exits, or by a kill aimed at its process: some event of the run is one. */
  lemma {:induction false} StoppedByItself(s: State, es: seq<Event>, t: nat, k: nat)
    requires Shape(s) && Inv(s) && t < |s.threads| && CanRun(s.threads[t]) && k <= |es|
    ensures (t < |At(s, es, k).threads| && CanRun(At(s, es, k).threads[t]))
      || exists j: nat :: j < k && Stopped(At(s, es, j), es[j], t)
  {
    hide Inv, Step, Stopped, At, WasReaped;
    AtStart(s, es);
    if k > 0 {
      StoppedByItself(s, es, t, k - 1);
      AtNext(s, es, k - 1);
      if t < |At(s, es, k - 1).threads| && CanRun(At(s, es, k - 1).threads[t]) {
        StepFate(At(s, es, k - 1), es[k - 1], t);
      }
    }
  }

  // ---------------------------------------------------------------------------
  // Exit codes

  /** The thread of every ended process is over, so nothing can end it again. */
  predicate Settled(s: State) {
    forall i :: 0 <= i < |s.processes| && s.processes[i].state == Exited ==> Over(s, s.processes[i].tid)
  }

  lemma ThreadUsed(s: State, i: nat)
    requires Shape(s) && Inv(s) && i < 64 && s.processes[i].state != NoProcess
    ensures 0 <= s.processes[i].tid < |s.threads| && s.threads[s.processes[i].tid].state != Unused
  {
    hide Core, Counted;
    assert ProcessOk(s.processes[i], s.threads, s.nextPid);
  }

  /** No event ends an ended process. */
  lemma EndedOnce(s: State, e: Event, i: nat, c: int)
    requires Shape(s) && Settled(s) && i < 64 && Ends(s, e, i, c)
    ensures s.processes[i].state != Exited
  {
  }

  lemma StillExecuting(s: State, i: nat)
    requires Shape(s) && Settled(s) && i < 64
    ensures Executing(s) && IsRecord(s.processes[i], s.current) ==> s.processes[i].state != Exited
  {
  }

  /** Whoever is ended by the event is over after it. */
  lemma EndIsOver(s: State, e: Event, i: nat, c: int)
    requires Shape(s) && Inv(s) && i < 64 && Ends(s, e, i, c)
    ensures Over(Step(s, e), s.processes[i].tid)
  {
    hide Inv, Step, Left, KilledOther;
    StepMeans(s, e);
    var r := Step(s, e);
    if e.Leave? {
      LeftFate(s, r, e.status, s.current);
    } else {
      KillableThread(s, i, e.target);
      if s.processes[i].tid == s.current {
        LeftFate(s, r, c, s.current);
      } else {
        KilledFate(s, r, s.processes[i].tid, c, s.current);
      }
    }
  }

  lemma NotReaped(s: State, r: State, i: nat)
    requires Shape(s) && Inv(s) && i < 64 && s.processes[i].state == Exited
    requires |r.processes| == 64 && r.processes[i].state != NoProcess && s.processes[i].tid >= 0
    ensures !WasReaped(s, r, s.processes[i].tid)
  {
    hide Inv;
    OtherRecords(s, i);
  }

  lemma SettledStays(s: State, e: Event)
    requires Shape(s) && Inv(s) && Settled(s)
    ensures Settled(Step(s, e))
  {
    hide Inv, Step, Over, Stopped, WasReaped, Ends;
    StepRecords(s, e);
    var r := Step(s, e);
    forall i | 0 <= i < |r.processes| && r.processes[i].state == Exited
      ensures Over(r, r.processes[i].tid)
    {
      assert RecordFate(s, e, r, i);
      if c :| Ends(s, e, i, c) {
        EndIsOver(s, e, i, c);
      } else if s.processes[i].state != NoProcess {
        ThreadUsed(s, i);
        StepFate(s, e, s.processes[i].tid);
        NotReaped(s, r, i);
      }
    }
  }

  /** Process pid has ended with code c; while its parent has not collected it,
      its record says so. */
  predicate Finished(s: State, pid: nat, c: int) {
    pid < s.nextPid
    && forall i :: 0 <= i < |s.processes| && HasPid(s.processes[i], pid) ==>
         s.processes[i].state == Exited && s.processes[i].status == c
  }

  lemma FinishedStays(s: State, e: Event, pid: nat, c: int)
    requires Shape(s) && Inv(s) && Settled(s) && Finished(s, pid, c)
    ensures Finished(Step(s, e), pid, c)
  {
    hide Inv, Step, Settled, Ends;
    StepRecords(s, e);
    var r := Step(s, e);
    forall i | 0 <= i < |r.processes| && HasPid(r.processes[i], pid)
      ensures r.processes[i].state == Exited && r.processes[i].status == c
    {
      assert RecordFate(s, e, r, i);
      if d :| Ends(s, e, i, d) {
        EndedOnce(s, e, i, d);
        EndedRecord(s, e, i, d);
      } else {
        StillExecuting(s, i);
      }
    }
  }

  lemma EndedRecord(s: State, e: Event, i: nat, c: int)
    requires s.current < |s.threads| && Ends(s, e, i, c)
    ensures i < |s.processes| && s.processes[i].state != NoProcess
  {
  }

  /** The event ends the process with this pid. */
  ghost predicate EndsPid(s: State, e: Event, pid: nat, c: int)
    requires s.current < |s.threads|
  {
    exists i: nat :: i < |s.processes| && HasPid(s.processes[i], pid) && Ends(s, e, i, c)
  }

  lemma EndFinishes(s: State, e: Event, pid: nat, c: int)
    requires Shape(s) && Inv(s) && EndsPid(s, e, pid, c)
    ensures Finished(Step(s, e), pid, c)
  {
    hide Inv, Step, Ends;
    var k: nat :| k < |s.processes| && HasPid(s.processes[k], pid) && Ends(s, e, k, c);
    StepRecords(s, e);
    OtherRecords(s, k);
    RecordTid(s, k);
    var r := Step(s, e);
    forall i | 0 <= i < |r.processes| && HasPid(r.processes[i], pid)
      ensures r.processes[i].state == Exited && r.processes[i].status == c
    {
      assert RecordFate(s, e, r, i);
      if i != k {
        if d :| Ends(s, e, i, d) {
          EndedRecord(s, e, i, d);
        }
      }
    }
  }

  lemma FinishedHasNoEnd(s: State, e: Event, pid: nat, c: int, d: int)
    requires Shape(s) && Settled(s) && Finished(s, pid, c)
    ensures !EndsPid(s, e, pid, d)
  {
    hide Settled, Ends;
    if EndsPid(s, e, pid, d) {
      var i: nat :| i < |s.processes| && HasPid(s.processes[i], pid) && Ends(s, e, i, d);
      EndedOnce(s, e, i, d);
    }
  }

  lemma {:induction false} SettledAt(s: State, es: seq<Event>, k: nat)
    requires Shape(s) && Inv(s) && Settled(s) && k <= |es|
    ensures Settled(At(s, es, k))
  {
    hide Inv, Step, Settled, At;
    AtStart(s, es);
    if k > 0 {
      SettledAt(s, es, k - 1);
      AtNext(s, es, k - 1);
      SettledStays(At(s, es, k - 1), es[k - 1]);
    }
  }

  lemma {:induction false} FinishedAt(s: State, es: seq<Event>, j: nat, k: nat, pid: nat, c: int)
    requires Shape(s) && Inv(s) && Settled(s) && j <= k <= |es| && Finished(At(s, es, j), pid, c)
    ensures Finished(At(s, es, k), pid, c)
  {
    hide Inv, Step, Settled, At, Finished;
    if k > j {
      FinishedAt(s, es, j, k - 1, pid, c);
      SettledAt(s, es, k - 1);
      AtNext(s, es, k - 1);
      FinishedStays(At(s, es, k - 1), es[k - 1], pid, c);
    }
  }

  /** Once an event has ended a process with code c, every later state of the run
      knows it as ended with that code, and no other event ends it. */
  lemma EndIsFinal(s: State, es: seq<Event>, j: nat, pid: nat, c: int)
    requires Shape(s) && Inv(s) && Settled(s) && j < |es| && EndsPid(At(s, es, j), es[j], pid, c)
    ensures forall k: nat :: j < k <= |es| ==> Finished(At(s, es, k), pid, c)
    ensures forall k: nat, d: int :: k < |es| && EndsPid(At(s, es, k), es[k], pid, d) ==> k == j
  {
    hide Inv, Step, Settled, At, Finished, EndsPid;
    AtNext(s, es, j);
    EndFinishes(At(s, es, j), es[j], pid, c);
    forall k: nat | j < k <= |es|
      ensures Finished(At(s, es, k), pid, c)
    {
      FinishedAt(s, es, j + 1, k, pid, c);
    }
    forall k: nat, d: int | k < |es| && EndsPid(At(s, es, k), es[k], pid, d)
      ensures k == j
    {
      if k < j {
        AtNext(s, es, k);
        EndFinishes(At(s, es, k), es[k], pid, d);
        FinishedAt(s, es, k + 1, j, pid, d);
        SettledAt(s, es, j);
        FinishedHasNoEnd(At(s, es, j), es[j], pid, d, c);
      } else if k > j {
        SettledAt(s, es, k);
        FinishedHasNoEnd(At(s, es, k), es[k], pid, c, d);
      }
    }
  }

  /** No process has ended yet. */
  predicate NoneEnded(s: State) {
    forall i :: 0 <= i < |s.processes| ==> s.processes[i].state != Exited
  }

  /** Every ended process of a run was ended by an event of it, with its code. */
  lemma {:induction false} EndWasThere(s: State, es: seq<Event>, k: nat, i: nat)
    requires Shape(s) && Inv(s) && NoneEnded(s) && k <= |es| && i < 64 && At(s, es, k).processes[i].state == Exited
    ensures var p := At(s, es, k).processes[i]; exists j: nat :: j < k && EndsPid(At(s, es, j), es[j], p.pid, p.status)
  {
    hide Inv, Step, At, EndsPid, Ends;
    AtStart(s, es);
    if k > 0 {
      AtNext(s, es, k - 1);
      var m := At(s, es, k - 1);
      var e := es[k - 1];
      StepRecords(m, e);
      assert RecordFate(m, e, At(s, es, k), i);
      if c :| Ends(m, e, i, c) {
        EndedRecord(m, e, i, c);
        EndsNow(m, e, i, c);
      } else {
        EndWasThere(s, es, k - 1, i);
      }
    }
  }

  lemma EndsNow(s: State, e: Event, i: nat, c: int)
    requires s.current < |s.threads| && Ends(s, e, i, c)
    ensures i < |s.processes| && EndsPid(s, e, s.processes[i].pid, c)
  {
    assert HasPid(s.processes[i], s.processes[i].pid);
  }

  lemma BootSettled()
    ensures Shape(Boot()) && Inv(Boot()) && NoneEnded(Boot()) && Settled(Boot())
  {
    hide Inv;
    BootKeeps();
  }

  /** A wait answers with a status only for an ended child, and with its status. */
  lemma StatusAnswered(s: State, pid: nat)
    requires Shape(s) && Inv(s) && WaitPass(s, pid).1.Ended?
    ensures exists i: nat :: i < 64 && HasPid(s.processes[i], pid) && s.processes[i].state == Exited
                             && s.processes[i].status == WaitPass(s, pid).1.status
  {
    hide Inv, WaitPass, Back, Slept, Collected, CallerIs;
    WaitMeans(s, pid);
    CallerMeans(s);
    assert CallerIs(s, CurrentPid(s));
  }

  /** The status a wait answers with, in any state of any run in which nobody had
      ended at first, is the one its child left with or -128 minus the signal that
      killed it: exactly one event of the run ended the child, and with that code. */
  lemma CodeOfChild(s: State, es: seq<Event>, pid: nat)
    requires Shape(s) && Inv(s) && NoneEnded(s) && Settled(s) && WaitPass(Run(s, es), pid).1.Ended?
    ensures var c := WaitPass(Run(s, es), pid).1.status;
      exists j: nat :: j < |es| && EndsPid(At(s, es, j), es[j], pid, c)
                       && forall k: nat, d: int :: k < |es| && EndsPid(At(s, es, k), es[k], pid, d) ==> k == j
  {
    hide Inv, WaitPass, At, EndsPid, Run, NoneEnded, Settled, Finished;
    var r := Run(s, es);
    AtStart(s, es);
    StatusAnswered(r, pid);
    var i: nat :| i < 64 && HasPid(r.processes[i], pid) && r.processes[i].state == Exited
                  && r.processes[i].status == WaitPass(r, pid).1.status;
    var c := r.processes[i].status;
    EndWasThere(s, es, |es|, i);
    var j: nat :| j < |es| && EndsPid(At(s, es, j), es[j], pid, c);
    EndIsFinal(s, es, j, pid, c);
  }

  /** Conversely, once an event has ended a process, a wait by its parent answers
      with exactly that code, however late, unless it was collected before. */
  lemma ChildAnswers(s: State, es: seq<Event>, j: nat, pid: nat, c: int, i: nat)
    requires Shape(s) && Inv(s) && Settled(s) && j < |es| && EndsPid(At(s, es, j), es[j], pid, c)
    requires var r := Run(s, es); i < 64 && HasPid(r.processes[i], pid) && CallerIs(r, r.processes[i].parent)
    ensures WaitPass(Run(s, es), pid).1 == Ended(c)
  {
    hide Inv, WaitPass, At, EndsPid, Run, Settled, Back, Slept, Collected, CallerIs;
    var r := Run(s, es);
    AtStart(s, es);
    EndIsFinal(s, es, j, pid, c);
    assert Finished(At(s, es, |es|), pid, c);
    WaitMeans(r, pid);
  }
}
