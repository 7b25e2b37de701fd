/** Bounded waiting: how soon a ready thread runs, whatever the other threads
    and the interrupts do. */
module Fairness {
  import opened Base
  import opened Kernel
  import opened Runs

  /** How far the scan for the next thread is from slot w. */
  function Distance(s: State, w: nat): nat
    requires s.current < |s.threads| && w < |s.threads|
  {
    (w + |s.threads| - s.current) % |s.threads|
  }

  /** An upper bound for the timer ticks until w runs. */
  function Potential(s: State, w: nat): int
    requires s.current < |s.threads| && w < |s.threads|
  {
    8 * (Distance(s, w) - 1) + if Cur(s).ticks > 1 then Cur(s).ticks else 1
  }

  lemma Wrap(n: nat, x: nat)
    requires x < 2 * n
    ensures x % n == if x < n then x else x - n
  {
    if x >= n {
      assert x == n + (x - n);
      assert (n + (x - n)) % n == x - n;
    }
  }

  lemma AroundDistance(n: nat, from: nat, w: nat)
    requires from < n && w < n
    ensures (w + n - from) % n == if w >= from then w - from else w + n - from
    ensures Around(n, from, (w + n - from) % n) == w
  {
    Wrap(n, w + n - from);
    Wrap(n, from + (w + n - from) % n);
  }

  /** The scan stops no later than at the first runnable slot. */
  lemma {:induction false} NextBefore(ts: seq<Thread>, from: nat, k: nat, d: nat)
    requires from < |ts| && k <= d < |ts| && Runnable(ts[Around(|ts|, from, d)])
    ensures exists j :: k <= j <= d && NextFrom(ts, from, k) == Around(|ts|, from, j)
    decreases d - k
  {
    if Runnable(ts[Around(|ts|, from, k)]) {
      assert NextFrom(ts, from, k) == Around(|ts|, from, k);
    } else {
      NextBefore(ts, from, k + 1, d);
    }
  }

  lemma Closer(n: nat, from: nat, w: nat, j: nat)
    requires from < n && w < n && w != from && 1 <= j <= (w + n - from) % n
    ensures Around(n, from, j) != from
    ensures Around(n, from, j) == w || 1 <= (w + n - Around(n, from, j)) % n == (w + n - from) % n - j
  {
    AroundDistance(n, from, w);
    Wrap(n, from + j);
    AroundDistance(n, Around(n, from, j), w);
  }

  /** A switch away from the current thread, while w is ready, goes to w or closer. */
  lemma NextCloser(ts: seq<Thread>, from: nat, w: nat)
    requires from < |ts| && w < |ts| && w != from && Runnable(ts[w])
    ensures var n := Next(ts, from);
      n != from && (n == w || 1 <= (w + |ts| - n) % |ts| < (w + |ts| - from) % |ts|)
  {
    var d := (w + |ts| - from) % |ts|;
    AroundDistance(|ts|, from, w);
    NextBefore(ts, from, 1, d);
    var j :| 1 <= j <= d && Next(ts, from) == Around(|ts|, from, j);
    Closer(|ts|, from, w, j);
  }

  // ---------------------------------------------------------------------------
  // One step

  predicate IsReady(s: State, w: nat) {
    && s.current < |s.threads| && w < |s.threads| && w != s.current
    && s.threads[w].state == Ready && Cur(s).state == Running
  }

  /** No switch: the current thread keeps running on the same ticks, and thread w
      stays ready. */
  predicate Undisturbed(s: State, s': State, w: nat) {
    IsReady(s, w) && IsReady(s', w) && s'.current == s.current && |s'.threads| >= |s.threads|
      && Cur(s').ticks == Cur(s).ticks
  }

  /** The step brought w closer to running, or left it where it was. */
  predicate Nearer(s: State, s': State, w: nat, tick: bool) {
    && s.current < |s.threads| && w < |s.threads| && s'.current < |s'.threads|
    && (|s'.threads| == |s.threads| && s'.current != w && s'.threads[w].state != Zombie ==>
          && s'.threads[w].state == Ready
          && (s'.current != s.current ==> Distance(s', w) < Distance(s, w))
          && (s'.current == s.current ==> Distance(s', w) == Distance(s, w))
          && Potential(s', w) <= Potential(s, w) - (if tick then 1 else 0))
  }

  /** Switching to the next runnable thread, from a state like s but for the
      current thread. */
  lemma SwitchNearer(s: State, s1: State, w: nat, refill: bool)
    requires s1.current == s.current < |s.threads| == |s1.threads| && w < |s.threads| && w != s.current
    requires s1.threads[w].state == Ready && LowTicks(s1.threads)
    ensures var next := Next(s1.threads, s1.current);
      next != s1.current && Nearer(s, SwitchTo(s1, next, refill), w, true)
  {
    NextCloser(s1.threads, s1.current, w);
    AroundDistance(|s.threads|, s.current, w);
  }

  lemma YieldNearer(s: State, w: nat)
    requires s.current < |s.threads| && LowTicks(s.threads) && w < |s.threads| && w != s.current
      && s.threads[w].state == Ready
    ensures Nearer(s, Yield(s), w, true)
  {
    NextCloser(s.threads, s.current, w);
    var s1 := SetThread(s, s.current, Cur(s).(state := Ready));
    AroundDistance(|s.threads|, s.current, w);
  }

  lemma TickNearer(s: State, w: nat)
    requires s.current < |s.threads| && LowTicks(s.threads) && w < |s.threads| && w != s.current
      && s.threads[w].state == Ready
    ensures Nearer(s, Tick(s), w, true)
  {
    var s1 := SetThread(s, s.current, Cur(s).(ticks := Cur(s).ticks - 1));
    AroundDistance(|s.threads|, s.current, w);
    if Cur(s1).ticks <= 0 {
      YieldNearer(s1, w);
    }
  }

  lemma SleepNearer(s: State, w: nat, ch: Channel, place: Place)
    requires s.current < |s.threads| && LowTicks(s.threads) && w < |s.threads| && w != s.current
      && s.threads[w].state == Ready
    ensures Nearer(s, Sleep(s, ch, place), w, true)
  {
    SwitchNearer(s, SetThread(s, s.current, Cur(s).(chan := ch, state := Blocked, place := place)), w, true);
  }

  lemma UndisturbedNearer(s: State, s': State, w: nat)
    requires Undisturbed(s, s', w)
    ensures Nearer(s, s', w, false)
  {
  }

  lemma ReleaseUndisturbed(s: State, fd: Fd, w: nat)
    requires IsReady(s, w) && |s.pipes| == PIPES
    ensures Undisturbed(s, ReleaseFd(s, fd), w)
  {
  }

  lemma {:induction false} CleanupUndisturbed(s: State, t: nat, f: nat, w: nat)
    requires IsReady(s, w) && |s.pipes| == PIPES && t < |s.threads| && f <= |s.threads[t].fds|
    ensures Undisturbed(s, Cleanup(s, t, f), w)
    decreases |s.threads[t].fds| - f
  {
    if f < |s.threads[t].fds| {
      ReleaseUndisturbed(s, s.threads[t].fds[f], w);
      CleanupUndisturbed(ReleaseFd(s, s.threads[t].fds[f]), t, f + 1, w);
    }
  }

  lemma ReapUndisturbed(s: State, t: int, w: nat)
    requires Shape(s) && IsReady(s, w)
    ensures Undisturbed(s, Reap(s, t), w)
  {
    if 0 <= t < |s.threads| && t != s.current && s.threads[t].state == Zombie {
      CleanupUndisturbed(s, t, 0, w);
    }
  }

  lemma WaitNearer(s: State, pid: nat, w: nat)
    requires Shape(s) && IsReady(s, w)
    ensures Nearer(s, WaitPass(s, pid).0, w, false)
  {
    var i := FindPid(s.processes, pid, 0);
    if i < PROCESSES && s.processes[i].parent == CurrentPid(s) {
      if s.processes[i].state == Exited {
        ReapUndisturbed(s, s.processes[i].tid, w);
        UndisturbedNearer(s, WaitPass(s, pid).0, w);
      } else {
        SleepNearer(s, w, Num(pid), Waiting(pid));
      }
    } else {
      UndisturbedNearer(s, Finish(s), w);
    }
  }

  lemma ReadNearer(s: State, i: nat, len: nat, w: nat)
    requires Shape(s) && IsReady(s, w)
    ensures Nearer(s, ReadPass(s, i, len).0, w, false)
  {
    if i < PIPES && s.pipes[i].inUse && s.pipes[i].count == 0 && s.pipes[i].writers > 0 {
      SleepNearer(s, w, PipeCh(i), Reading(i, len));
    } else {
      assert Undisturbed(s, ReadPass(s, i, len).0, w);
    }
  }

  lemma WriteNearer(s: State, i: nat, data: seq<Byte>, w: nat)
    requires Shape(s) && IsReady(s, w)
    ensures Nearer(s, WritePass(s, i, data).0, w, false)
  {
    if i < PIPES && s.pipes[i].inUse && s.pipes[i].readers > 0 && s.pipes[i].count == RING {
      SleepNearer(s, w, PipeCh(i), Writing(i, data));
    } else {
      assert Undisturbed(s, WritePass(s, i, data).0, w);
    }
  }

  lemma SysPipeUndisturbed(s: State, w: nat)
    requires Shape(s) && IsReady(s, w)
    ensures Undisturbed(s, SysPipe(s).0, w)
  {
    hide FirstFd, FirstFree, PipeShape;
  }

  lemma SpawnUndisturbed(s: State, prio: Priority, memory: Memory, w: nat)
    requires Shape(s) && IsReady(s, w)
    ensures Undisturbed(s, Spawn(s, prio, memory).0, w)
  {
  }

  lemma RedirectUndisturbed(s: State, memory: Memory, stdin: int, stdout: int, w: nat)
    requires Shape(s) && IsReady(s, w)
    ensures Undisturbed(s, SpawnRedirect(s, memory, stdin, stdout).0, w)
  {
    hide SpawnProcess, RedirectIn, RedirectOut, IsReady, FindPid;
    SpawnProcessUndisturbed(s, memory, w);
    var (s1, pid) := SpawnProcess(s, memory);
    if pid >= 0 {
      var j := FindPid(s1.processes, pid, 0);
      var tid := if j < |s1.processes| then s1.processes[j].tid else -1;
      RedirectInUndisturbed(s1, tid, stdin, w);
      RedirectOutUndisturbed(RedirectIn(s1, tid, stdin), tid, stdout, w);
    }
  }

  lemma RedirectInUndisturbed(s: State, tid: int, f: int, w: nat)
    requires IsReady(s, w)
    ensures Undisturbed(s, RedirectIn(s, tid, f), w)
  {
  }

  lemma RedirectOutUndisturbed(s: State, tid: int, f: int, w: nat)
    requires IsReady(s, w)
    ensures Undisturbed(s, RedirectOut(s, tid, f), w)
  {
  }

  lemma SpawnProcessUndisturbed(s: State, memory: Memory, w: nat)
    requires Shape(s) && IsReady(s, w)
    ensures Undisturbed(s, SpawnProcess(s, memory).0, w)
  {
    var i := FirstProcess(s.processes, 0);
    if i < PROCESSES {
      SpawnUndisturbed(SetProcess(s, i, Process(s.nextPid, -1, CurrentPid(s), -1, Starting)).(nextPid := s.nextPid + 1),
        Normal, memory, w);
    }
  }

  lemma ExitNearer(s: State, status: int, w: nat)
    requires Shape(s) && IsReady(s, w)
    ensures Nearer(s, Exit(s, status), w, true)
  {
    var s1 := SetThread(s, s.current, Cur(s).(state := Zombie, place := Gone));
    var s2 := Wakeup(MarkExited(s1, s.current, status), Num(s.current));
    SwitchNearer(s, s2, w, false);
  }

  lemma KillNearer(s: State, pid: int, sig: int, w: nat)
    requires Shape(s) && IsReady(s, w)
    ensures Nearer(s, KillProcess(s, pid, sig).0, w, false)
  {
    hide Undisturbed, Nearer, FindPid, MarkExited;
    var i := FindPid(s.processes, pid, 0);
    UndisturbedSame(s, w);
    UndisturbedNearer(s, s, w);
    if i < PROCESSES && s.processes[i].state != Exited && s.processes[i].tid >= 0 {
      var tid := s.processes[i].tid;
      if tid == s.current {
        ExitNearer(s, -128 - sig, w);
        NearerAnyway(s, Exit(s, -128 - sig), w);
      } else if tid == w {
        Killed(s, w, -128 - sig);
      } else {
        KillUndisturbed(s, tid, -128 - sig, w);
        UndisturbedNearer(s, Kill(s, tid, -128 - sig).0, w);
      }
    }
  }

  lemma UndisturbedSame(s: State, w: nat)
    requires IsReady(s, w)
    ensures Undisturbed(s, s, w)
  {
  }

  lemma Killed(s: State, w: nat, status: int)
    requires Shape(s) && IsReady(s, w)
    ensures Nearer(s, Kill(s, w, status).0, w, false)
  {
    assert Kill(s, w, status).0.threads[w].state == Zombie;
  }

  lemma KillUndisturbed(s: State, tid: int, status: int, w: nat)
    requires Shape(s) && IsReady(s, w) && tid != s.current && tid != w
    ensures Undisturbed(s, Kill(s, tid, status).0, w)
  {
  }

  /** Any step brings a ready thread closer, or leaves it ready where it was. */
  lemma StepNearer(s: State, e: Event, w: nat)
    requires Shape(s) && Inv(s) && w < |s.threads| && w != s.current && s.threads[w].state == Ready
    ensures Nearer(s, Step(s, e), w, e == TimerTick)
  {
    hide Inv, Tick, Yield, Resumed, SysPipe, FdClose, FdOpen, ReadPass, WritePass, WaitPass, Spawn, SpawnRedirect,
         Exit, KillProcess, Kill, Sleep, FdGet, FindTid, FindPid, Woken, Nearer;
    InvShape(s);
    SameNearer(s, s, w);
    if e == TimerTick {
      TickNearer(s, w);
    } else if e == KeyPress {
      WakeupNearer(s, Keyboard, w);
    } else if e == Retry {
      RetryNearer(s, w);
    } else if InOwnCode(s) {
      match e
      case Pipes =>
        SysPipeUndisturbed(s, w);
        UndisturbedNearer(s, SysPipe(s).0, w);
      case Close(f) => CloseNearer(s, f, w);
      case OpenFile(kind, handle) => OpenNearer(s, kind, handle, w);
      case ReadFd(f, len) =>
        if FdGet(s, f).kind == PipeRead && FdGet(s, f).handle >= 0 {
          ReadNearer(s, FdGet(s, f).handle, len, w);
        }
      case WriteFd(f, data) =>
        if FdGet(s, f).kind == PipeWrite && FdGet(s, f).handle >= 0 {
          WriteNearer(s, FdGet(s, f).handle, data, w);
        }
      case NewThread(prio, memory) =>
        SpawnUndisturbed(s, prio, memory, w);
        UndisturbedNearer(s, Spawn(s, prio, memory).0, w);
      case NewProcess(memory, i, o) =>
        RedirectUndisturbed(s, memory, i, o, w);
        UndisturbedNearer(s, SpawnRedirect(s, memory, i, o).0, w);
      case ImageLoaded =>
        var i := FindTid(s.processes, s.current, 0);
        if i < PROCESSES {
          SameNearer(s, SetProcess(s, i, s.processes[i].(state := Live)), w);
        }
      case Wait(pid) => WaitNearer(s, pid, w);
      case Leave(status) =>
        ExitNearer(s, status, w);
        NearerAnyway(s, Exit(s, status), w);
      case Signal(pid, sig) => KillNearer(s, pid, sig, w);
      case SleepOn(ch) =>
        SleepNearer(s, w, ch, Outside);
        NearerAnyway(s, Sleep(s, ch, Outside), w);
      case GiveUp =>
        YieldNearer(s, w);
        NearerAnyway(s, Yield(s), w);
      case SetPriority(tid, prio) =>
        if 0 <= tid < |s.threads| {
          SameNearer(s, SetThread(s, tid, s.threads[tid].(prio := prio)), w);
        }
      case _ =>
    }
  }

  lemma NearerAnyway(s: State, s': State, w: nat)
    requires Nearer(s, s', w, true)
    ensures Nearer(s, s', w, false)
  {
  }

  /** States with the same schedule. */
  lemma SameNearer(s: State, s': State, w: nat)
    requires s.current < |s.threads| == |s'.threads| && w < |s.threads| && s'.current == s.current
    requires s.threads[w].state == s'.threads[w].state == Ready && Cur(s').ticks == Cur(s).ticks
    ensures Nearer(s, s', w, false)
  {
  }

  lemma WakeupNearer(s: State, ch: Channel, w: nat)
    requires s.current < |s.threads| && w < |s.threads| && s.threads[w].state == Ready
    ensures Nearer(s, Wakeup(s, ch), w, false)
  {
    SameNearer(s, Wakeup(s, ch), w);
  }

  lemma CloseNearer(s: State, f: int, w: nat)
    requires Shape(s) && IsReady(s, w)
    ensures Nearer(s, FdClose(s, f).0, w, false)
  {
    ReleaseUndisturbed(s, FdGet(s, f), w);
    UndisturbedNearer(s, FdClose(s, f).0, w);
  }

  lemma OpenNearer(s: State, kind: FdKind, handle: int, w: nat)
    requires Shape(s) && IsReady(s, w)
    ensures Nearer(s, FdOpen(s, kind, handle).0, w, false)
  {
    UndisturbedNearer(s, FdOpen(s, kind, handle).0, w);
  }

  lemma RetryNearer(s: State, w: nat)
    requires Shape(s) && w < |s.threads| && w != s.current && s.threads[w].state == Ready
    ensures Nearer(s, Resumed(s), w, false)
  {
    hide Nearer, ReadPass, WritePass, WaitPass;
    SameNearer(s, s, w);
    if Cur(s).state != Blocked && Cur(s).state != Zombie {
      var s1 := SetThread(s, s.current, Cur(s).(state := Running));
      SameNearer(s, s1, w);
      match Cur(s).place
      case Reading(i, len) =>
        ReadNearer(s1, i, len, w);
        NearerFrom(s, s1, ReadPass(s1, i, len).0, w);
      case Writing(i, data) =>
        WriteNearer(s1, i, data, w);
        NearerFrom(s, s1, WritePass(s1, i, data).0, w);
      case Waiting(pid) =>
        WaitNearer(s1, pid, w);
        NearerFrom(s, s1, WaitPass(s1, pid).0, w);
      case _ =>
    }
  }

  lemma NearerFrom(s: State, s1: State, s': State, w: nat)
    requires s.current < |s.threads| == |s1.threads| && w < |s.threads| && s1.current == s.current
      && Cur(s1).ticks == Cur(s).ticks
    requires Nearer(s1, s', w, false)
    ensures Nearer(s, s', w, false)
  {
  }

  // ---------------------------------------------------------------------------
  // Runs

  /** All along the run, w is not killed, does not run, and the table stays. */
  ghost predicate Overlooked(s: State, es: seq<Event>, w: nat)
    requires Shape(s) && Inv(s)
    decreases |es|
  {
    && w < |s.threads| && w != s.current && s.threads[w].state != Zombie
    && if es == [] then true else
       StepKeeps(s, es[0]);
       |Step(s, es[0]).threads| == |s.threads| && Overlooked(Step(s, es[0]), es[1..], w)
  }

  function Ticks(es: seq<Event>): nat {
    if es == [] then 0 else (if es[0] == TimerTick then 1 else 0) + Ticks(es[1..])
  }

  ghost function Switches(s: State, es: seq<Event>): nat
    requires Shape(s) && Inv(s)
    decreases |es|
  {
    if es == [] then 0 else
    StepKeeps(s, es[0]);
    (if Step(s, es[0]).current != s.current then 1 else 0) + Switches(Step(s, es[0]), es[1..])
  }

  lemma {:induction false} WaitingShrinks(s: State, es: seq<Event>, w: nat)
    requires Shape(s) && Inv(s) && Overlooked(s, es, w) && s.threads[w].state == Ready
    ensures Ticks(es) < Potential(s, w) && Switches(s, es) < Distance(s, w)
    decreases |es|
  {
    AroundDistance(|s.threads|, s.current, w);
    if es != [] {
      StepKeeps(s, es[0]);
      StepNearer(s, es[0], w);
      hide Step, Inv;
      WaitingShrinks(Step(s, es[0]), es[1..], w);
    }
  }

  /** A ready thread that is not killed runs within N - 1 switches and within
      8 (N - 1) timer ticks, N being the size of the table, for any priorities
      and any behaviour of the others: a run in which it does not get to run
      has fewer. */
  lemma BoundedWaiting(s: State, es: seq<Event>, w: nat)
    requires Shape(s) && Inv(s) && Overlooked(s, es, w) && s.threads[w].state == Ready
    ensures Switches(s, es) < |s.threads| - 1
    ensures Ticks(es) < 8 * (|s.threads| - 1)
  {
    WaitingShrinks(s, es, w);
    AroundDistance(|s.threads|, s.current, w);
    InvShape(s);
  }
}
