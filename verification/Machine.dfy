/** The kernel's own code over its static tables: every operation, with its
    loops, proved to compute the step function of the same name. */
module Machine {
  import opened Base
  import opened Kernel
  import opened Runs
  import opened Fairness
  import opened Guarantees

  lemma AroundIs(n: nat, from: nat, k: nat)
    requires from < n && from + k < 2 * n
    ensures Around(n, from, k) == if from + k < n then from + k else from + k - n
  {
    Wrap(n, from + k);
  }

  lemma OneFurther(n: nat, from: nat, k: nat)
    requires from < n && k < n
    ensures (Around(n, from, k) + 1) % n == Around(n, from, k + 1)
    ensures Around(n, from, 0) == from && Around(n, from, n) == from
  {
    hide Around;
    AroundIs(n, from, k);
    AroundIs(n, from, k + 1);
    AroundIs(n, from, 0);
    AroundIs(n, from, n);
    Wrap(n, Around(n, from, k) + 1);
  }

  lemma NextStep(ts: seq<Thread>, from: nat, k: nat)
    requires from < |ts| && k <= |ts| + 1
    ensures NextFrom(ts, from, k) == if k > |ts| then from
      else if Runnable(ts[Around(|ts|, from, k)]) then Around(|ts|, from, k) else NextFrom(ts, from, k + 1)
  {
  }

  /** Taking the oldest byte, then the rest. */
  lemma TakenOne(p: Pipe, n: nat)
    requires PipeShape(p) && n < p.count
    ensures Ring(p)[n] == p.buf[(p.readPos + n) % RING]
    ensures ((p.readPos + n) % RING + 1) % RING == (p.readPos + (n + 1)) % RING
  {
    Rotated(p.readPos, n, 1);
  }

  lemma {:induction false} StoredMore(p: Pipe, data: seq<Byte>, b: Byte)
    requires PipeShape(p) && p.count + |data| + 1 <= RING
    ensures Stored(p, data + [b]) == Pushed(Stored(p, data), b)
    decreases |data|
  {
    hide Pushed, PipeShape;
    if data == [] {
      assert data + [b] == [b];
      assert Stored(Pushed(p, b), []) == Pushed(p, b);
    } else {
      assert (data + [b])[1..] == data[1..] + [b] && (data + [b])[0] == data[0];
      StoredMore(Pushed(p, data[0]), data[1..], b);
    }
  }

  class Tables {
    var threads: seq<Thread>
    var current: nat
    var pipes: seq<Pipe>
    var processes: seq<Process>
    var nextPid: nat
    ghost var accepted: seq<seq<Byte>>
    ghost var delivered: seq<seq<Byte>>

    ghost function S(): State
      reads this
    {
      State(threads, current, pipes, processes, nextPid, accepted, delivered)
    }

    /** The tables as sched_init leaves them. */
    constructor ()
      ensures S() == Boot() && Shape(S()) && Inv(S())
    {
      var boot := Boot();
      threads, current, pipes, processes, nextPid := boot.threads, boot.current, boot.pipes, boot.processes,
        boot.nextPid;
      accepted, delivered := boot.accepted, boot.delivered;
      new;
      BootKeeps();
    }

    // -------------------------------------------------------------------------
    // thread.c

    method FindNextRunnable(from: nat) returns (next: nat)
      requires from < |threads|
      ensures next == Next(threads, from)
    {
      hide NextFrom;
      next := from;
      var i := 0;
      NextStep(threads, from, 1);
      OneFurther(|threads|, from, 0);
      while i < |threads|
        invariant 0 <= i <= |threads| && next == Around(|threads|, from, i)
        invariant NextFrom(threads, from, i + 1) == Next(threads, from)
      {
        OneFurther(|threads|, from, i);
        NextStep(threads, from, i + 1);
        next := (next + 1) % |threads|;
        if Runnable(threads[next]) {
          return;
        }
        i := i + 1;
      }
      NextStep(threads, from, |threads| + 1);
    }

    method SchedYield()
      requires current < |threads|
      modifies this`threads, this`current
      ensures S() == Yield(old(S()))
    {
      var next := FindNextRunnable(current);
      if next == current {
        return;
      }
      threads := threads[current := threads[current].(state := Ready)];
      threads := threads[next := threads[next].(state := Running, ticks := Quantum(threads[next].prio))];
      current := next;
    }

    method SchedTick()
      requires current < |threads|
      modifies this`threads, this`current
      ensures S() == Tick(old(S()))
    {
      threads := threads[current := threads[current].(ticks := threads[current].ticks - 1)];
      if threads[current].ticks > 0 {
        return;
      }
      SchedYield();
    }

    method SchedSleep(ch: Channel, place: Place)
      requires current < |threads|
      modifies this`threads, this`current
      ensures S() == Sleep(old(S()), ch, place)
    {
      threads := threads[current := threads[current].(chan := ch, state := Blocked, place := place)];
      var next := FindNextRunnable(current);
      if next == current {
        return;
      }
      threads := threads[next := threads[next].(state := Running, ticks := Quantum(threads[next].prio))];
      current := next;
    }

    method SchedWakeup(ch: Channel)
      modifies this`threads
      ensures S() == Wakeup(old(S()), ch)
    {
      ghost var was := threads;
      var i := 0;
      while i < |threads|
        invariant 0 <= i <= |threads| == |was|
        invariant forall t :: 0 <= t < i ==> threads[t] == WokenOne(was[t], ch)
        invariant forall t :: i <= t < |was| ==> threads[t] == was[t]
      {
        if threads[i].state == Blocked && threads[i].chan == ch {
          threads := threads[i := threads[i].(state := Ready, chan := Num(0))];
        }
        i := i + 1;
      }
      assert threads == Woken(was, ch);
    }

    method SchedFdOpen(kind: FdKind, handle: int) returns (fd: int)
      requires Shape(S())
      modifies this`threads
      ensures (S(), fd) == FdOpen(old(S()), kind, handle)
    {
      var i := 2;
      while i < FDS
        invariant 2 <= i <= FDS && threads == old(threads)
        invariant FirstFd(Cur(S()).fds, 2) == FirstFd(Cur(S()).fds, i)
      {
        if threads[current].fds[i].kind == NoKind {
          threads := threads[current := threads[current].(fds := threads[current].fds[i := Fd(kind, handle, 0)])];
          return i;
        }
        i := i + 1;
      }
      return -1;
    }

    method SchedFdClose(fd: int) returns (r: int)
      requires current < |threads| && |threads[current].fds| == FDS
      modifies this`threads
      ensures S() == FdUnset(old(S()), fd)
    {
      if fd < 0 || fd >= FDS {
        return -1;
      }
      threads := threads[current := threads[current].(fds := threads[current].fds[fd := NO_FD])];
      return 0;
    }

    method SchedExitStatus(status: int)
      requires Shape(S())
      modifies this`threads, this`current, this`processes
      ensures S() == Exit(old(S()), status)
    {
      threads := threads[current := threads[current].(state := Zombie, place := Gone)];
      ProcessMarkExited(current, status);
      SchedWakeup(Num(current));
      var next := FindNextRunnable(current);
      if next == current {
        return;
      }
      threads := threads[next := threads[next].(state := Running)];
      current := next;
    }

    method SchedKill(tid: int, status: int) returns (r: int)
      requires Shape(S())
      modifies this`threads, this`current, this`processes
      ensures (S(), r) == Kill(old(S()), tid, status)
    {
      if tid < 0 || tid >= |threads| {
        return -1;
      }
      if tid == current {
        SchedExitStatus(status);
        return 0;
      }
      if threads[tid].state == Unused || threads[tid].state == Zombie {
        return -1;
      }
      threads := threads[tid := threads[tid].(state := Zombie, chan := Num(0))];
      ProcessMarkExited(tid, status);
      return 0;
    }

    method ReapZombie(tid: int)
      requires Shape(S())
      modifies this`threads, this`pipes
      ensures S() == Reap(old(S()), tid)
    {
      if tid < 0 || tid >= |threads| || tid == current || threads[tid].state != Zombie {
        return;
      }
      FdCleanupThread(tid);
      threads := threads[tid := threads[tid].(state := Unused, chan := Num(0), place := Outside)];
      var i := 0;
      ghost var t := threads[tid];
      while i < FDS
        invariant 0 <= i <= FDS && |t.fds| == FDS && |threads| == |old(threads)|
        invariant pipes == Cleanup(old(S()), tid, 0).pipes
        invariant |threads[tid].fds| == FDS && forall f :: 0 <= f < i ==> threads[tid].fds[f] == NO_FD
        invariant threads == Cleanup(old(S()), tid, 0).threads[tid := t.(fds := threads[tid].fds)]
      {
        threads := threads[tid := threads[tid].(fds := threads[tid].fds[i := NO_FD])];
        i := i + 1;
      }
      assert threads[tid].fds == NO_FDS;
    }

    // -------------------------------------------------------------------------
    // pipe.c

    method PipeCreate() returns (idx: int)
      requires Shape(S())
      modifies this`pipes, this`accepted, this`delivered
      ensures idx == if FirstFree(old(pipes), 0) < PIPES then FirstFree(old(pipes), 0) else -1
      ensures idx < 0 ==> S() == old(S())
      ensures idx >= 0 ==> S() == SetPipe(old(S()), idx, Opened(old(pipes)[idx])).(
                                     accepted := old(accepted)[idx := []], delivered := old(delivered)[idx := []])
    {
      var i := 0;
      while i < PIPES
        invariant 0 <= i <= PIPES && S() == old(S()) && FirstFree(pipes, 0) == FirstFree(pipes, i)
      {
        if !pipes[i].inUse {
          pipes := pipes[i := pipes[i].(inUse := true, readPos := 0, writePos := 0, count := 0, readers := 1,
            writers := 1)];
          accepted, delivered := accepted[i := []], delivered[i := []];
          return i;
        }
        i := i + 1;
      }
      return -1;
    }

    method PipeCloseReader(idx: int)
      requires |pipes| == PIPES
      modifies this`pipes, this`threads
      ensures S() == CloseReader(old(S()), idx)
    {
      if idx < 0 || idx >= PIPES || !pipes[idx].inUse {
        return;
      }
      if pipes[idx].readers > 0 {
        pipes := pipes[idx := pipes[idx].(readers := pipes[idx].readers - 1)];
      }
      if pipes[idx].readers <= 0 && pipes[idx].writers <= 0 {
        pipes := pipes[idx := pipes[idx].(inUse := false)];
      }
      assert pipes == CloseReader(old(S()), idx).pipes;
      SchedWakeup(PipeCh(idx));
    }

    method PipeCloseWriter(idx: int)
      requires |pipes| == PIPES
      modifies this`pipes, this`threads
      ensures S() == CloseWriter(old(S()), idx)
    {
      if idx < 0 || idx >= PIPES || !pipes[idx].inUse {
        return;
      }
      if pipes[idx].writers > 0 {
        pipes := pipes[idx := pipes[idx].(writers := pipes[idx].writers - 1)];
      }
      if pipes[idx].readers <= 0 && pipes[idx].writers <= 0 {
        pipes := pipes[idx := pipes[idx].(inUse := false)];
      }
      assert pipes == CloseWriter(old(S()), idx).pipes;
      SchedWakeup(PipeCh(idx));
    }

    /** One pass of pipe_read: it returns bytes or an error, or falls asleep. */
    method PipeReadPass(idx: nat, len: nat) returns (out: Outcome)
      requires Shape(S())
      modifies this`threads, this`current, this`pipes, this`delivered
      ensures (S(), out) == ReadPass(old(S()), idx, len)
    {
      hide Sleep, Finish, Ring, Woken;
      if idx >= PIPES || !pipes[idx].inUse {
        LeaveKernel();
        return Done(-1, []);
      }
      if pipes[idx].count > 0 {
        var n := if pipes[idx].count < len then pipes[idx].count else len;
        ghost var p := pipes[idx];
        var dst: seq<Byte> := [];
        var i := 0;
        while i < n
          invariant 0 <= i <= n && dst == Ring(p)[..i]
          invariant S() == SetPipe(old(S()), idx, p.(readPos := (p.readPos + i) % RING))
        {
          TakenOne(p, i);
          dst := dst + [pipes[idx].buf[pipes[idx].readPos]];
          pipes := pipes[idx := pipes[idx].(readPos := (pipes[idx].readPos + 1) % RING)];
          i := i + 1;
        }
        pipes := pipes[idx := pipes[idx].(count := pipes[idx].count - n)];
        delivered := delivered[idx := delivered[idx] + dst];
        assert pipes == old(pipes)[idx := Taken(p, n)];
        SchedWakeup(PipeCh(idx));
        LeaveKernel();
        return Done(n, dst);
      }
      if pipes[idx].writers <= 0 {
        LeaveKernel();
        return Done(0, []);
      }
      SchedSleep(PipeCh(idx), Reading(idx, len));
      return Asleep;
    }

    /** One pass of pipe_write. */
    method PipeWritePass(idx: nat, data: seq<Byte>) returns (out: Outcome)
      requires Shape(S())
      modifies this`threads, this`current, this`pipes, this`accepted
      ensures (S(), out) == WritePass(old(S()), idx, data)
    {
      hide Sleep, Finish, Ring, Woken;
      if idx >= PIPES || !pipes[idx].inUse {
        LeaveKernel();
        return Done(-1, []);
      }
      if pipes[idx].readers <= 0 {
        LeaveKernel();
        return Done(-1, []);
      }
      var free := RING - pipes[idx].count;
      if free > 0 {
        var n := if free < |data| then free else |data|;
        ghost var p := pipes[idx];
        assert data[..0] == [];
        var i := 0;
        while i < n
          invariant 0 <= i <= n
          invariant S() == SetPipe(old(S()), idx, Stored(p, data[..i]).(count := p.count))
        {
          StoredMore(p, data[..i], data[i]);
          StoredRing(p, data[..i]);
          assert data[..i] + [data[i]] == data[..i + 1];
          pipes := pipes[idx := pipes[idx].(buf := pipes[idx].buf[pipes[idx].writePos := data[i]])];
          pipes := pipes[idx := pipes[idx].(writePos := (pipes[idx].writePos + 1) % RING)];
          i := i + 1;
        }
        StoredRing(p, data[..n]);
        pipes := pipes[idx := pipes[idx].(count := pipes[idx].count + n)];
        accepted := accepted[idx := accepted[idx] + data[..n]];
        assert pipes == old(pipes)[idx := Stored(p, data[..n])];
        SchedWakeup(PipeCh(idx));
        LeaveKernel();
        return Done(n, []);
      }
      SchedSleep(PipeCh(idx), Writing(idx, data));
      return Asleep;
    }

    method LeaveKernel()
      requires current < |threads|
      modifies this`threads
      ensures S() == Finish(old(S()))
    {
      threads := threads[current := threads[current].(place := Outside)];
    }
    // -------------------------------------------------------------------------
    // fd.c and SYS_PIPE

    method ReleaseSlot(fd: Fd)
      requires |pipes| == PIPES
      modifies this`pipes, this`threads
      ensures S() == ReleaseFd(old(S()), fd)
    {
      if fd.kind == PipeRead {
        PipeCloseReader(fd.handle);
      } else if fd.kind == PipeWrite {
        PipeCloseWriter(fd.handle);
      }
    }

    method FdCleanupThread(tid: nat)
      requires |pipes| == PIPES && tid < |threads| && |threads[tid].fds| == FDS
      modifies this`pipes, this`threads
      ensures S() == Cleanup(old(S()), tid, 0)
    {
      var fd := 0;
      while fd < FDS
        invariant 0 <= fd <= FDS && |pipes| == PIPES && tid < |threads| && |threads[tid].fds| == FDS
        invariant S() == old(S()).(threads := threads, pipes := pipes)
        invariant Cleanup(S(), tid, fd) == Cleanup(old(S()), tid, 0)
      {
        if threads[tid].fds[fd].kind != NoKind {
          ReleaseSlot(threads[tid].fds[fd]);
        }
        fd := fd + 1;
      }
    }

    method CloseFd(fd: int) returns (r: int)
      requires Shape(S())
      modifies this`pipes, this`threads
      ensures (S(), r) == FdClose(old(S()), fd)
    {
      if fd < 0 || fd >= FDS || threads[current].fds[fd].kind == NoKind {
        return -1;
      }
      ReleaseSlot(threads[current].fds[fd]);
      r := SchedFdClose(fd);
      r := 0;
    }

    /** The SYS_PIPE system call. */
    method MakePipe() returns (read: int, write: int)
      requires Shape(S())
      modifies this`pipes, this`threads, this`accepted, this`delivered
      ensures (S(), (read, write)) == SysPipe(old(S()))
    {
      var idx := PipeCreate();
      if idx < 0 {
        return -1, -1;
      }
      read := SchedFdOpen(PipeRead, idx);
      write := SchedFdOpen(PipeWrite, idx);
      if read < 0 || write < 0 {
        var r := SchedFdClose(read);
        r := SchedFdClose(write);
        PipeCloseReader(idx);
        PipeCloseWriter(idx);
        return -1, -1;
      }
    }

    // -------------------------------------------------------------------------
    // process.c

    method FindProcess(pid: int) returns (i: nat)
      ensures i == FindPid(processes, pid, 0)
    {
      i := 0;
      while i < |processes|
        invariant 0 <= i <= |processes| && FindPid(processes, pid, 0) == FindPid(processes, pid, i)
      {
        if processes[i].state != NoProcess && processes[i].pid == pid {
          return;
        }
        i := i + 1;
      }
    }

    method FindProcessByTid(tid: int) returns (i: nat)
      ensures i == FindTid(processes, tid, 0)
    {
      i := 0;
      while i < |processes|
        invariant 0 <= i <= |processes| && FindTid(processes, tid, 0) == FindTid(processes, tid, i)
      {
        if processes[i].state != NoProcess && processes[i].tid == tid {
          return;
        }
        i := i + 1;
      }
    }

    method ProcessMarkExited(tid: int, status: int)
      requires |processes| == PROCESSES
      modifies this`processes, this`threads
      ensures S() == MarkExited(old(S()), tid, status)
    {
      var i := FindProcessByTid(tid);
      if i == PROCESSES {
        return;
      }
      processes := processes[i := processes[i].(status := status, state := Exited)];
      SchedWakeup(Num(processes[i].pid));
    }

    method ReleaseProcess(pid: int)
      requires |processes| == PROCESSES
      modifies this`processes
      ensures S() == Released(old(S()), pid)
    {
      var i := FindProcess(pid);
      if i < PROCESSES {
        processes := processes[i := Process(0, -1, 0, 0, NoProcess)];
      }
    }

    method ProcessKill(pid: int, sig: int) returns (r: int)
      requires Shape(S())
      modifies this`threads, this`current, this`processes
      ensures (S(), r) == KillProcess(old(S()), pid, sig)
    {
      var i := FindProcess(pid);
      var tid := if i < PROCESSES && processes[i].state != Exited then processes[i].tid else -1;
      if tid < 0 {
        return -1;
      }
      r := SchedKill(tid, -128 - sig);
    }

    /** One pass of process_wait. */
    method ProcessWaitPass(pid: nat) returns (out: Outcome)
      requires Shape(S())
      modifies this`threads, this`current, this`pipes, this`processes
      ensures (S(), out) == WaitPass(old(S()), pid)
    {
      var i := FindProcess(pid);
      var me := FindProcessByTid(current);
      var myPid := if me < PROCESSES then processes[me].pid else 0;
      if i == PROCESSES || processes[i].parent != myPid {
        LeaveKernel();
        return Done(-1, []);
      }
      if processes[i].state == Exited {
        var status := processes[i].status;
        if processes[i].tid >= 0 {
          ReapZombie(processes[i].tid);
        }
        ReleaseProcess(pid);
        LeaveKernel();
        return Ended(status);
      }
      SchedSleep(Num(pid), Waiting(pid));
      return Asleep;
    }

    /** sched_spawn_prio, growing the table when every slot is taken. */
    method SchedSpawn(prio: Priority, memory: Memory) returns (tid: int)
      requires Shape(S())
      modifies this`threads
      ensures (S(), tid) == Spawn(old(S()), prio, memory)
    {
      var slot := 0;
      while slot < |threads| && threads[slot].state != Unused
        invariant 0 <= slot <= |threads| && FirstUnused(threads, 0) == FirstUnused(threads, slot)
      {
        slot := slot + 1;
      }
      if slot == |threads| {
        if !memory.table {
          return -1;
        }
        GrowTable();
      }
      if !memory.stack {
        return -1;
      }
      threads := threads[slot := Spawned(threads[slot], prio)];
      return slot;
    }

    /** grow_thread_table: the old slots are copied, the new ones unused. */
    method GrowTable()
      modifies this`threads
      ensures threads == old(threads) + seq(|old(threads)|, _ => FRESH)
    {
      var table: seq<Thread> := [];
      var i := 0;
      while i < |threads|
        invariant 0 <= i <= |threads| && table == threads[..i]
      {
        table := table + [threads[i]];
        i := i + 1;
      }
      assert table == threads;
      while i < 2 * |threads|
        invariant |threads| <= i <= 2 * |threads| && |table| == i && table[..|threads|] == threads
        invariant forall t :: |threads| <= t < i ==> table[t] == FRESH
      {
        table := table + [FRESH];
        i := i + 1;
      }
      assert table == threads + seq(|threads|, _ => FRESH);
      threads := table;
    }

    method ProcessSpawn(memory: Memory) returns (pid: int)
      requires Shape(S())
      modifies this`threads, this`processes, this`nextPid
      ensures (S(), pid) == SpawnProcess(old(S()), memory)
    {
      hide Spawn;
      var i := 0;
      while i < PROCESSES && processes[i].state != NoProcess
        invariant 0 <= i <= PROCESSES && FirstProcess(processes, 0) == FirstProcess(processes, i)
      {
        i := i + 1;
      }
      if i == PROCESSES {
        return -1;
      }
      pid := nextPid;
      var me := FindProcessByTid(current);
      var myPid := if me < PROCESSES then processes[me].pid else 0;
      nextPid := nextPid + 1;
      processes := processes[i := Process(pid, -1, myPid, -1, Starting)];
      var tid := SchedSpawn(Normal, memory);
      if tid < 0 {
        ReleaseProcess(pid);
        return -1;
      }
      var j := FindProcess(pid);
      if j < |processes| {
        processes := processes[j := processes[j].(tid := tid)];
      }
    }

    method ProcessSpawnRedirect(memory: Memory, stdin: int, stdout: int) returns (pid: int)
      requires Shape(S()) && Inv(S())
      modifies this`threads, this`processes, this`nextPid, this`pipes
      ensures (S(), pid) == SpawnRedirect(old(S()), memory, stdin, stdout)
    {
      hide Inv, SpawnProcess, FindPid, RedirectIn, RedirectOut;
      SpawnProcessKeeps(S(), memory);
      pid := ProcessSpawn(memory);
      InvShape(S());
      if pid < 0 {
        return -1;
      }
      var j := FindProcess(pid);
      var tid := processes[j].tid;
      RedirectInKeeps(S(), tid, stdin);
      PassStdin(tid, stdin);
      PassStdout(tid, stdout);
    }

    method PassStdin(tid: nat, fd: int)
      requires Shape(S()) && tid < |threads|
      modifies this`threads, this`pipes
      ensures S() == RedirectIn(old(S()), tid, fd)
    {
      if fd < 0 || fd >= FDS || threads[current].fds[fd].kind != PipeRead {
        return;
      }
      var h := threads[current].fds[fd].handle;
      PipeAddReader(h);
      threads := threads[tid := threads[tid].(fds := threads[tid].fds[0 := Fd(PipeRead, h, 0)])];
    }

    method PassStdout(tid: nat, fd: int)
      requires Shape(S()) && tid < |threads|
      modifies this`threads, this`pipes
      ensures S() == RedirectOut(old(S()), tid, fd)
    {
      if fd < 0 || fd >= FDS || threads[current].fds[fd].kind != PipeWrite {
        return;
      }
      var h := threads[current].fds[fd].handle;
      PipeAddWriter(h);
      threads := threads[tid := threads[tid].(fds := threads[tid].fds[1 := Fd(PipeWrite, h, 0)])];
    }

    method PipeAddReader(idx: int)
      requires |pipes| == PIPES
      modifies this`pipes
      ensures S() == AddReader(old(S()), idx)
    {
      if 0 <= idx < PIPES && pipes[idx].inUse {
        pipes := pipes[idx := pipes[idx].(readers := pipes[idx].readers + 1)];
      }
    }

    method PipeAddWriter(idx: int)
      requires |pipes| == PIPES
      modifies this`pipes
      ensures S() == AddWriter(old(S()), idx)
    {
      if 0 <= idx < PIPES && pipes[idx].inUse {
        pipes := pipes[idx := pipes[idx].(writers := pipes[idx].writers + 1)];
      }
    }

    // -------------------------------------------------------------------------
    // Runs

    method Handle(e: Event)
      requires Shape(S()) && Inv(S())
      modifies this
      ensures S() == Step(old(S()), e) && Shape(S()) && Inv(S())
    {
      hide Inv, Tick, Yield, SysPipe, FdClose, FdOpen, ReadPass, WritePass, WaitPass, Spawn, SpawnRedirect,
           Exit, KillProcess, Kill, Sleep, FindTid, FindPid, Woken;
      StepKeeps(S(), e);
      InvShape(Step(S(), e));
      match e
      case TimerTick => SchedTick();
      case KeyPress => SchedWakeup(Keyboard);
      case Retry => Resume();
      case _ =>
        if threads[current].state == Running && threads[current].place == Outside {
          Call(e);
        }
    }

    /** The current thread goes on inside the kernel. */
    method Resume()
      requires Shape(S())
      modifies this
      ensures S() == Resumed(old(S()))
    {
      hide ReadPass, WritePass, WaitPass;
      var t := threads[current];
      if t.state == Blocked || t.state == Zombie {
        return;
      }
      threads := threads[current := t.(state := Running)];
      var out;
      match t.place
      case Reading(i, len) => out := PipeReadPass(i, len);
      case Writing(i, data) => out := PipeWritePass(i, data);
      case Waiting(pid) => out := ProcessWaitPass(pid);
      case _ =>
    }

    /** A call from the code of the current thread. */
    method Call(e: Event)
      requires Shape(S()) && Inv(S()) && InOwnCode(S())
      requires e != TimerTick && e != KeyPress && e != Retry
      modifies this
      ensures S() == Step(old(S()), e)
    {
      hide Inv, Tick, Yield, SysPipe, FdClose, FdOpen, ReadPass, WritePass, WaitPass, Spawn, SpawnRedirect,
           Exit, KillProcess, Kill, Sleep, FindTid, FindPid, Woken, Resumed;
      var r: int;
      var out: Outcome;
      match e
      case Pipes =>
        var w: int;
        r, w := MakePipe();
      case Close(f) => r := CloseFd(f);
      case OpenFile(kind, handle) =>
        if kind == MemFs || kind == UfsFile {
          r := SchedFdOpen(kind, handle);
        }
      case ReadFd(f, len) =>
        if 0 <= f < FDS && threads[current].fds[f].kind == PipeRead && threads[current].fds[f].handle >= 0 {
          out := PipeReadPass(threads[current].fds[f].handle, len);
        }
      case WriteFd(f, data) =>
        if 0 <= f < FDS && threads[current].fds[f].kind == PipeWrite && threads[current].fds[f].handle >= 0 {
          out := PipeWritePass(threads[current].fds[f].handle, data);
        }
      case NewThread(prio, memory) => r := SchedSpawn(prio, memory);
      case NewProcess(memory, i, o) => r := ProcessSpawnRedirect(memory, i, o);
      case ImageLoaded =>
        var i := FindProcessByTid(current);
        if i < PROCESSES {
          processes := processes[i := processes[i].(state := Live)];
        }
      case Wait(pid) => out := ProcessWaitPass(pid);
      case Leave(status) => SchedExitStatus(status);
      case Signal(pid, sig) => r := ProcessKill(pid, sig);
      case SleepOn(ch) => SchedSleep(ch, Outside);
      case GiveUp => SchedYield();
      case SetPriority(tid, prio) =>
        if 0 <= tid < |threads| {
          threads := threads[tid := threads[tid].(prio := prio)];
        }
      case _ =>
    }

    /** The machine follows the state machine through any run. */
    method HandleAll(es: seq<Event>)
      requires S() == Boot()
      modifies this
      ensures Shape(Boot()) && Inv(Boot()) && S() == Run(Boot(), es)
      ensures Shape(S()) && Inv(S())
    {
      hide Inv, Step, Boot, Shape;
      BootKeeps();
      var i := 0;
      while i < |es|
        invariant 0 <= i <= |es| && Shape(S()) && Inv(S())
        invariant Run(S(), es[i..]) == Run(Boot(), es)
      {
        Handle(es[i]);
        assert es[i..][1..] == es[i + 1..];
        i := i + 1;
      }
      assert es[i..] == [];
    }
  }
}
