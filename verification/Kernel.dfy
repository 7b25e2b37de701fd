/** Threads, pipes, descriptors and processes (kernel/sched/thread.c,
    kernel/core/pipe.c, fd.c, process.c and the SYS_PIPE case of syscall.c) as
    one state machine. System calls run with interrupts off, so the code from
    the entry of a call to its end, or to the point where it goes to sleep, is
    one step; interrupts are steps of their own. */
module Kernel {
  import opened Base

  const FDS: nat := 8
  const PIPES: nat := 8
  const RING: nat := 1024
  const PROCESSES: nat := 64

  datatype ThreadState = Unused | Ready | Running | Blocked | Zombie
  datatype Priority = Low | Normal | High

  function Quantum(p: Priority): (q: int)
    ensures 2 <= q <= 8
  {
    match p case Low => 2 case Normal => 4 case High => 8
  }

  /** What a thread sleeps on: the address of a pipe, the keyboard, or a small
      number, which thread ids and process ids share. Num(0) is the null pointer. */
  datatype Channel = PipeCh(idx: nat) | Keyboard | Num(n: nat)

  datatype FdKind = NoKind | Console | MemFs | UfsFile | PipeRead | PipeWrite
  datatype Fd = Fd(kind: FdKind, handle: int, cursor: nat)

  const NO_FD := Fd(NoKind, -1, 0)
  const CONSOLE := Fd(Console, 0, 0)

  /** Where in the kernel a thread will continue: in its own code, in the retry
      loop of a blocking call, or nowhere, after its exit. */
  datatype Place = Outside | Reading(idx: nat, len: nat) | Writing(idx: nat, data: seq<Byte>) | Waiting(pid: nat) | Gone

  datatype Thread = Thread(state: ThreadState, prio: Priority, ticks: int, chan: Channel, fds: seq<Fd>, place: Place)
  datatype Pipe = Pipe(inUse: bool, buf: seq<Byte>, readPos: nat, writePos: nat, count: nat, readers: int, writers: int)
  datatype ProcState = NoProcess | Starting | Live | Exited
  datatype Process = Process(pid: nat, tid: int, parent: nat, status: int, state: ProcState)

  /** accepted[i] and delivered[i] are all bytes taken from writers of pipe i and
      given to its readers since it was created. */
  datatype State = State(threads: seq<Thread>, current: nat, pipes: seq<Pipe>, processes: seq<Process>, nextPid: nat,
                         accepted: seq<seq<Byte>>, delivered: seq<seq<Byte>>)

  // ---------------------------------------------------------------------------
  // Shape

  predicate PipeShape(p: Pipe) {
    |p.buf| == RING && p.readPos < RING && p.writePos < RING && p.count <= RING
      && p.writePos == (p.readPos + p.count) % RING
  }

  predicate Shape(s: State) {
    && s.current < |s.threads| && |s.pipes| == |s.accepted| == |s.delivered| == PIPES && |s.processes| == PROCESSES
    && (forall t :: 0 <= t < |s.threads| ==> |s.threads[t].fds| == FDS && s.threads[t].ticks <= 8)
    && (forall i :: 0 <= i < PIPES ==> PipeShape(s.pipes[i]))
  }

  // ---------------------------------------------------------------------------
  // The scheduler

  function Cur(s: State): Thread
    requires s.current < |s.threads|
  {
    s.threads[s.current]
  }

  function SetThread(s: State, t: nat, th: Thread): State
    requires t < |s.threads|
  {
    s.(threads := s.threads[t := th])
  }

  function WokenOne(t: Thread, ch: Channel): Thread {
    if t.state == Blocked && t.chan == ch then t.(state := Ready, chan := Num(0)) else t
  }

  function Woken(ts: seq<Thread>, ch: Channel): (r: seq<Thread>)
    ensures |r| == |ts| && forall t :: 0 <= t < |ts| ==> r[t] == WokenOne(ts[t], ch)
  {
    seq(|ts|, t requires 0 <= t < |ts| => WokenOne(ts[t], ch))
  }

  predicate Runnable(t: Thread) {
    t.state == Ready || t.state == Running
  }

  /** The slot at cyclic distance k after `from`. */
  function Around(n: nat, from: nat, k: nat): (r: nat)
    requires from < n
    ensures r < n
  {
    (from + k) % n
  }

  /** The first runnable slot at distance k or more after `from`, else `from`. */
  function NextFrom(ts: seq<Thread>, from: nat, k: nat): (r: nat)
    requires from < |ts| && k <= |ts| + 1
    ensures r < |ts|
    decreases |ts| + 1 - k
  {
    if k > |ts| then from
    else if Runnable(ts[Around(|ts|, from, k)]) then Around(|ts|, from, k)
    else NextFrom(ts, from, k + 1)
  }

  function Next(ts: seq<Thread>, from: nat): nat
    requires from < |ts|
  {
    NextFrom(ts, from, 1)
  }

  function SwitchTo(s: State, next: nat, refill: bool): State
    requires next < |s.threads|
  {
    var t := s.threads[next];
    SetThread(s, next, t.(state := Running, ticks := if refill then Quantum(t.prio) else t.ticks)).(current := next)
  }

  function Yield(s: State): State
    requires s.current < |s.threads|
  {
    var next := Next(s.threads, s.current);
    if next == s.current then s
    else SwitchTo(SetThread(s, s.current, Cur(s).(state := Ready)), next, true)
  }

  function Tick(s: State): State
    requires s.current < |s.threads|
  {
    var s1 := SetThread(s, s.current, Cur(s).(ticks := Cur(s).ticks - 1));
    if Cur(s1).ticks > 0 then s1 else Yield(s1)
  }

  /** Goes to sleep. With nobody else to run, the thread stays current and halts. */
  function Sleep(s: State, ch: Channel, place: Place): State
    requires s.current < |s.threads|
  {
    var s1 := SetThread(s, s.current, Cur(s).(chan := ch, state := Blocked, place := place));
    var next := Next(s1.threads, s1.current);
    if next == s1.current then s1 else SwitchTo(s1, next, true)
  }

  function Wakeup(s: State, ch: Channel): State {
    s.(threads := Woken(s.threads, ch))
  }

  /** The current thread leaves the kernel. */
  function Finish(s: State): State
    requires s.current < |s.threads|
  {
    SetThread(s, s.current, Cur(s).(place := Outside))
  }

  // ---------------------------------------------------------------------------
  // Pipes

  function FirstFree(pipes: seq<Pipe>, i: nat): (r: nat)
    requires i <= |pipes|
    ensures i <= r <= |pipes| && (r < |pipes| ==> !pipes[r].inUse)
    ensures forall j :: i <= j < r ==> pipes[j].inUse
    decreases |pipes| - i
  {
    if i == |pipes| || !pipes[i].inUse then i else FirstFree(pipes, i + 1)
  }

  /** The bytes in the ring, oldest first. */
  function Ring(p: Pipe): (r: seq<Byte>)
    requires PipeShape(p)
    ensures |r| == p.count
  {
    seq(p.count, k requires 0 <= k < p.count => p.buf[(p.readPos + k) % RING])
  }

  function Opened(p: Pipe): Pipe {
    p.(inUse := true, readPos := 0, writePos := 0, count := 0, readers := 1, writers := 1)
  }

  function MaybeFreed(p: Pipe): Pipe {
    if p.readers <= 0 && p.writers <= 0 then p.(inUse := false) else p
  }

  function SetPipe(s: State, i: nat, p: Pipe): State
    requires i < |s.pipes|
  {
    s.(pipes := s.pipes[i := p])
  }

  function CloseReader(s: State, i: int): (r: State)
    requires |s.pipes| == PIPES
    ensures |r.threads| == |s.threads| && |r.pipes| == PIPES
    ensures r == s.(threads := r.threads, pipes := r.pipes)
    ensures forall t :: 0 <= t < |s.threads| ==> r.threads[t].fds == s.threads[t].fds
  {
    if i < 0 || i >= PIPES || !s.pipes[i].inUse then s else
    var p := s.pipes[i];
    Wakeup(SetPipe(s, i, MaybeFreed(p.(readers := if p.readers > 0 then p.readers - 1 else p.readers))), PipeCh(i))
  }

  function CloseWriter(s: State, i: int): (r: State)
    requires |s.pipes| == PIPES
    ensures |r.threads| == |s.threads| && |r.pipes| == PIPES
    ensures r == s.(threads := r.threads, pipes := r.pipes)
    ensures forall t :: 0 <= t < |s.threads| ==> r.threads[t].fds == s.threads[t].fds
  {
    if i < 0 || i >= PIPES || !s.pipes[i].inUse then s else
    var p := s.pipes[i];
    Wakeup(SetPipe(s, i, MaybeFreed(p.(writers := if p.writers > 0 then p.writers - 1 else p.writers))), PipeCh(i))
  }

  function AddReader(s: State, i: int): State
    requires |s.pipes| == PIPES
  {
    if 0 <= i < PIPES && s.pipes[i].inUse then SetPipe(s, i, s.pipes[i].(readers := s.pipes[i].readers + 1)) else s
  }

  function AddWriter(s: State, i: int): State
    requires |s.pipes| == PIPES
  {
    if 0 <= i < PIPES && s.pipes[i].inUse then SetPipe(s, i, s.pipes[i].(writers := s.pipes[i].writers + 1)) else s
  }

  function Taken(p: Pipe, n: nat): Pipe
    requires n <= p.count
  {
    p.(readPos := (p.readPos + n) % RING, count := p.count - n)
  }

  /** One byte goes into the ring. */
  function Pushed(p: Pipe, b: Byte): (r: Pipe)
    requires PipeShape(p) && p.count < RING
    ensures PipeShape(r) && r.count == p.count + 1
  {
    p.(buf := p.buf[p.writePos := b], writePos := (p.writePos + 1) % RING, count := p.count + 1)
  }

  /** The ring after storing `data` byte by byte. */
  function Stored(p: Pipe, data: seq<Byte>): (r: Pipe)
    requires PipeShape(p) && p.count + |data| <= RING
    ensures PipeShape(r) && r.count == p.count + |data|
    decreases |data|
  {
    if data == [] then p else Stored(Pushed(p, data[0]), data[1..])
  }

  /** How a pass of a blocking call ends: with a result, with the status of an
      exited child, or asleep. */
  datatype Outcome = Done(value: int, data: seq<Byte>) | Ended(status: int) | Asleep

  /** One pass of the loop of pipe_read. */
  function ReadPass(s: State, i: nat, len: nat): (State, Outcome)
    requires Shape(s)
  {
    if i >= PIPES || !s.pipes[i].inUse then (Finish(s), Done(-1, [])) else
    var p := s.pipes[i];
    if p.count > 0 then
      var n := if p.count < len then p.count else len;
      var out := Ring(p)[..n];
      var s1 := SetPipe(s, i, Taken(p, n)).(delivered := s.delivered[i := s.delivered[i] + out]);
      (Finish(Wakeup(s1, PipeCh(i))), Done(n, out))
    else if p.writers <= 0 then (Finish(s), Done(0, []))
    else (Sleep(s, PipeCh(i), Reading(i, len)), Asleep)
  }

  /** One pass of the loop of pipe_write. */
  function WritePass(s: State, i: nat, data: seq<Byte>): (State, Outcome)
    requires Shape(s)
  {
    if i >= PIPES || !s.pipes[i].inUse then (Finish(s), Done(-1, [])) else
    var p := s.pipes[i];
    if p.readers <= 0 then (Finish(s), Done(-1, []))
    else if p.count < RING then
      var n := if RING - p.count < |data| then RING - p.count else |data|;
      var s1 := SetPipe(s, i, Stored(p, data[..n])).(accepted := s.accepted[i := s.accepted[i] + data[..n]]);
      (Finish(Wakeup(s1, PipeCh(i))), Done(n, []))
    else (Sleep(s, PipeCh(i), Writing(i, data)), Asleep)
  }

  // ---------------------------------------------------------------------------
  // Descriptors

  function FirstFd(fds: seq<Fd>, i: nat): (r: nat)
    requires i <= |fds|
    ensures i <= r <= |fds| && (r < |fds| ==> fds[r].kind == NoKind)
    ensures forall j :: i <= j < r ==> fds[j].kind != NoKind
    decreases |fds| - i
  {
    if i == |fds| || fds[i].kind == NoKind then i else FirstFd(fds, i + 1)
  }

  function SetFd(s: State, t: nat, f: nat, fd: Fd): State
    requires t < |s.threads| && f < |s.threads[t].fds|
  {
    SetThread(s, t, s.threads[t].(fds := s.threads[t].fds[f := fd]))
  }

  /** sched_fd_open: the lowest free descriptor from 2 up. */
  function FdOpen(s: State, kind: FdKind, handle: int): (r: (State, int))
    requires Shape(s)
  {
    var f: int := FirstFd(Cur(s).fds, 2);
    if f < FDS then (SetFd(s, s.current, f, Fd(kind, handle, 0)), f) else (s, -1)
  }

  /** sched_fd_get. */
  function FdGet(s: State, f: int): (fd: Fd)
    requires Shape(s)
    ensures fd.kind != NoKind ==> 0 <= f < FDS && Cur(s).fds[f] == fd
  {
    if 0 <= f < FDS then Cur(s).fds[f] else NO_FD
  }

  function ReleaseFd(s: State, fd: Fd): (r: State)
    requires |s.pipes| == PIPES
    ensures |r.threads| == |s.threads| && |r.pipes| == PIPES
    ensures r == s.(threads := r.threads, pipes := r.pipes)
    ensures forall t :: 0 <= t < |s.threads| ==> r.threads[t].fds == s.threads[t].fds
  {
    if fd.kind == PipeRead then CloseReader(s, fd.handle)
    else if fd.kind == PipeWrite then CloseWriter(s, fd.handle)
    else s
  }

  /** sched_fd_close, which releases nothing. */
  function FdUnset(s: State, f: int): State
    requires s.current < |s.threads|
  {
    if 0 <= f < FDS && f < |Cur(s).fds| then SetFd(s, s.current, f, NO_FD) else s
  }

  function FdClose(s: State, f: int): (State, int)
    requires Shape(s)
  {
    var fd := FdGet(s, f);
    if fd.kind == NoKind then (s, -1) else (SetFd(ReleaseFd(s, fd), s.current, f, NO_FD), 0)
  }

  /** The SYS_PIPE system call, after its pointer check. */
  function SysPipe(s: State): (State, (int, int))
    requires Shape(s)
  {
    var i := FirstFree(s.pipes, 0);
    if i == PIPES then (s, (-1, -1)) else
    var s1 := SetPipe(s, i, Opened(s.pipes[i])).(accepted := s.accepted[i := []], delivered := s.delivered[i := []]);
    var (s2, r) := FdOpen(s1, PipeRead, i);
    var (s3, w) := FdOpen(s2, PipeWrite, i);
    if r < 0 || w < 0 then
      (CloseWriter(CloseReader(FdUnset(FdUnset(s3, r), w), i), i), (-1, -1))
    else (s3, (r, w))
  }

  // ---------------------------------------------------------------------------
  // Processes

  /** Slot of the process, from i up; PROCESSES if there is none. */
  function FindPid(ps: seq<Process>, pid: int, i: nat): (r: nat)
    requires i <= |ps|
    ensures i <= r <= |ps| && (r < |ps| ==> ps[r].state != NoProcess && ps[r].pid == pid)
    ensures forall j :: i <= j < r ==> ps[j].state == NoProcess || ps[j].pid != pid
    decreases |ps| - i
  {
    if i == |ps| || (ps[i].state != NoProcess && ps[i].pid == pid) then i else FindPid(ps, pid, i + 1)
  }

  function FindTid(ps: seq<Process>, tid: int, i: nat): (r: nat)
    requires i <= |ps|
    ensures i <= r <= |ps| && (r < |ps| ==> ps[r].state != NoProcess && ps[r].tid == tid)
    ensures forall j :: i <= j < r ==> ps[j].state == NoProcess || ps[j].tid != tid
    decreases |ps| - i
  {
    if i == |ps| || (ps[i].state != NoProcess && ps[i].tid == tid) then i else FindTid(ps, tid, i + 1)
  }

  function FirstProcess(ps: seq<Process>, i: nat): (r: nat)
    requires i <= |ps|
    ensures i <= r <= |ps| && (r < |ps| ==> ps[r].state == NoProcess)
    ensures forall j :: i <= j < r ==> ps[j].state != NoProcess
    decreases |ps| - i
  {
    if i == |ps| || ps[i].state == NoProcess then i else FirstProcess(ps, i + 1)
  }

  function CurrentPid(s: State): nat
    requires Shape(s)
  {
    var i := FindTid(s.processes, s.current, 0);
    if i < PROCESSES then s.processes[i].pid else 0
  }

  function SetProcess(s: State, i: nat, p: Process): State
    requires i < |s.processes|
  {
    s.(processes := s.processes[i := p])
  }

  /** release_process. */
  function Released(s: State, pid: int): (r: State)
    requires |s.processes| == PROCESSES
    ensures r == s.(processes := r.processes) && |r.processes| == PROCESSES
  {
    var i := FindPid(s.processes, pid, 0);
    if i == PROCESSES then s else SetProcess(s, i, Process(0, -1, 0, 0, NoProcess))
  }

  /** process_mark_exited. */
  function MarkExited(s: State, tid: int, status: int): (r: State)
    requires |s.processes| == PROCESSES
    ensures |r.threads| == |s.threads| && |r.processes| == PROCESSES
    ensures r == s.(threads := r.threads, processes := r.processes)
  {
    var i := FindTid(s.processes, tid, 0);
    if i == PROCESSES then s else
    Wakeup(SetProcess(s, i, s.processes[i].(status := status, state := Exited)), Num(s.processes[i].pid))
  }

  /** sched_exit_status. The next thread keeps the ticks it had left. */
  function Exit(s: State, status: int): State
    requires Shape(s)
  {
    var s1 := SetThread(s, s.current, Cur(s).(state := Zombie, place := Gone));
    var s2 := Wakeup(MarkExited(s1, s.current, status), Num(s.current));
    var next := Next(s2.threads, s2.current);
    if next == s2.current then s2 else SwitchTo(s2, next, false)
  }

  /** sched_kill. */
  function Kill(s: State, tid: int, status: int): (State, int)
    requires Shape(s)
  {
    if tid < 0 || tid >= |s.threads| then (s, -1)
    else if tid == s.current then (Exit(s, status), 0)
    else if s.threads[tid].state == Unused || s.threads[tid].state == Zombie then (s, -1)
    else (MarkExited(SetThread(s, tid, s.threads[tid].(state := Zombie, chan := Num(0))), tid, status), 0)
  }

  /** process_kill. */
  function KillProcess(s: State, pid: int, sig: int): (State, int)
    requires Shape(s)
  {
    var i := FindPid(s.processes, pid, 0);
    if i == PROCESSES || s.processes[i].state == Exited || s.processes[i].tid < 0 then (s, -1)
    else Kill(s, s.processes[i].tid, -128 - sig)
  }

  /** fd_cleanup_thread, from descriptor f on. */
  function Cleanup(s: State, t: nat, f: nat): (r: State)
    requires |s.pipes| == PIPES && t < |s.threads| && f <= |s.threads[t].fds|
    ensures |r.threads| == |s.threads| && |r.pipes| == PIPES
    ensures r == s.(threads := r.threads, pipes := r.pipes)
    ensures forall u :: 0 <= u < |s.threads| ==> r.threads[u].fds == s.threads[u].fds
    decreases |s.threads[t].fds| - f
  {
    if f == |s.threads[t].fds| then s else Cleanup(ReleaseFd(s, s.threads[t].fds[f]), t, f + 1)
  }

  const NO_FDS: seq<Fd> := [NO_FD, NO_FD, NO_FD, NO_FD, NO_FD, NO_FD, NO_FD, NO_FD]

  /** reap_zombie, without its stack and address space. */
  function Reap(s: State, t: int): (r: State)
    requires Shape(s)
    ensures |r.threads| == |s.threads| && |r.pipes| == PIPES
    ensures r == s.(threads := r.threads, pipes := r.pipes)
  {
    if t < 0 || t >= |s.threads| || t == s.current || s.threads[t].state != Zombie then s else
    var s1 := Cleanup(s, t, 0);
    SetThread(s1, t, s1.threads[t].(state := Unused, chan := Num(0), fds := NO_FDS, place := Outside))
  }

  /** One pass of the loop of process_wait. */
  function WaitPass(s: State, pid: nat): (State, Outcome)
    requires Shape(s)
  {
    var i := FindPid(s.processes, pid, 0);
    if i == PROCESSES || s.processes[i].parent != CurrentPid(s) then (Finish(s), Done(-1, []))
    else if s.processes[i].state == Exited then
      (Finish(Released(if s.processes[i].tid >= 0 then Reap(s, s.processes[i].tid) else s, pid)),
        Ended(s.processes[i].status))
    else (Sleep(s, Num(pid), Waiting(pid)), Asleep)
  }

  // ---------------------------------------------------------------------------
  // Spawning

  const FRESH := Thread(Unused, Normal, 4, Num(0), NO_FDS, Outside)

  function FirstUnused(ts: seq<Thread>, i: nat): (r: nat)
    requires i <= |ts|
    ensures i <= r <= |ts| && (r < |ts| ==> ts[r].state == Unused)
    ensures forall j :: i <= j < r ==> ts[j].state != Unused
    decreases |ts| - i
  {
    if i == |ts| || ts[i].state == Unused then i else FirstUnused(ts, i + 1)
  }

  function Spawned(t: Thread, prio: Priority): Thread {
    t.(state := Ready, prio := prio, ticks := Quantum(prio), fds := NO_FDS[0 := CONSOLE][1 := CONSOLE],
      place := Outside)
  }

  /** sched_spawn_prio; memory says which of its allocations succeed: a table of
      twice the size, if needed, and a stack. */
  datatype Memory = Memory(table: bool, stack: bool)

  function Spawn(s: State, prio: Priority, memory: Memory): (State, int)
    requires Shape(s)
  {
    var slot: int := FirstUnused(s.threads, 0);
    if slot == |s.threads| && !memory.table then (s, -1) else
    var s1 := if slot == |s.threads| then s.(threads := s.threads + seq(|s.threads|, _ => FRESH)) else s;
    if !memory.stack then (s1, -1) else
    (SetThread(s1, slot, Spawned(s1.threads[slot], prio)), slot)
  }

  /** process_spawn_from_file once the image has been read. */
  function SpawnProcess(s: State, memory: Memory): (r: (State, int))
    requires Shape(s)
  {
    var i := FirstProcess(s.processes, 0);
    if i == PROCESSES then (s, -1) else
    var pid: int := s.nextPid;
    var s1 := SetProcess(s, i, Process(pid, -1, CurrentPid(s), -1, Starting)).(nextPid := pid + 1);
    var (s2, tid) := Spawn(s1, Normal, memory);
    if tid < 0 then (Released(s2, pid), -1) else
    var j := FindPid(s2.processes, pid, 0);
    if j == |s2.processes| then (s2, pid) else (SetProcess(s2, j, s2.processes[j].(tid := tid)), pid)
  }

  /** process_spawn_from_file_redirect. */
  function SpawnRedirect(s: State, memory: Memory, stdin: int, stdout: int): (State, int)
    requires Shape(s)
  {
    var (s1, pid) := SpawnProcess(s, memory);
    if pid < 0 then (s1, -1) else
    var j := FindPid(s1.processes, pid, 0);
    var tid := if j < |s1.processes| then s1.processes[j].tid else -1;
    (RedirectOut(RedirectIn(s1, tid, stdin), tid, stdout), pid)
  }

  function RedirectIn(s: State, tid: int, f: int): State {
    if !Shape(s) || tid < 0 || tid >= |s.threads| || f < 0 then s else
    var fd := FdGet(s, f);
    if fd.kind == PipeRead then SetFd(AddReader(s, fd.handle), tid, 0, Fd(PipeRead, fd.handle, 0)) else s
  }

  function RedirectOut(s: State, tid: int, f: int): State {
    if !Shape(s) || tid < 0 || tid >= |s.threads| || f < 0 then s else
    var fd := FdGet(s, f);
    if fd.kind == PipeWrite then SetFd(AddWriter(s, fd.handle), tid, 1, Fd(PipeWrite, fd.handle, 0)) else s
  }

  // ---------------------------------------------------------------------------
  // Events

  datatype Event =
    | TimerTick
    | KeyPress
    | Pipes
    | Close(fd: int)
    | OpenFile(kind: FdKind, handle: int)
    | ReadFd(fd: int, len: nat)
    | WriteFd(fd: int, data: seq<Byte>)
    | Retry
    | NewThread(prio: Priority, memory: Memory)
    | NewProcess(memory: Memory, stdin: int, stdout: int)
    | ImageLoaded
    | Wait(pid: nat)
    | Leave(status: int)
    | Signal(target: int, sig: int)
    | SleepOn(ch: Channel)
    | GiveUp
    | SetPriority(tid: int, prio: Priority)

  /** The current thread is executing its own code. */
  predicate InOwnCode(s: State)
    requires s.current < |s.threads|
  {
    Cur(s).state == Running && Cur(s).place == Outside
  }

  /** One step. Events that cannot happen now change nothing. */
  function Step(s: State, e: Event): State
    requires Shape(s)
  {
    if e == TimerTick then Tick(s)
    else if e == KeyPress then Wakeup(s, Keyboard)
    else if e == Retry then Resumed(s)
    else if !InOwnCode(s) then s
    else match e
      case Pipes => SysPipe(s).0
      case Close(f) => FdClose(s, f).0
      case OpenFile(kind, handle) => if kind == MemFs || kind == UfsFile then FdOpen(s, kind, handle).0 else s
      case ReadFd(f, len) => if FdGet(s, f).kind == PipeRead && FdGet(s, f).handle >= 0 then
        ReadPass(s, FdGet(s, f).handle, len).0 else s
      case WriteFd(f, data) => if FdGet(s, f).kind == PipeWrite && FdGet(s, f).handle >= 0 then
        WritePass(s, FdGet(s, f).handle, data).0 else s
      case NewThread(prio, memory) => Spawn(s, prio, memory).0
      case NewProcess(memory, i, o) => SpawnRedirect(s, memory, i, o).0
      case ImageLoaded =>
        var i := FindTid(s.processes, s.current, 0);
        if i < PROCESSES then SetProcess(s, i, s.processes[i].(state := Live)) else s
      case Wait(pid) => WaitPass(s, pid).0
      case Leave(status) => Exit(s, status)
      case Signal(pid, sig) => KillProcess(s, pid, sig).0
      case SleepOn(ch) => Sleep(s, ch, Outside)
      case GiveUp => Yield(s)
      case SetPriority(tid, prio) => if 0 <= tid < |s.threads| then SetThread(s, tid, s.threads[tid].(prio := prio))
        else s
      case _ => s
  }

  /** The current thread wakes inside the kernel and takes another pass. While
      it is halted, blocked with nobody else to run, nothing happens. */
  function Resumed(s: State): State
    requires Shape(s)
  {
    if Cur(s).state == Blocked || Cur(s).state == Zombie then s else
    var s1 := SetThread(s, s.current, Cur(s).(state := Running));
    match Cur(s).place
    case Reading(i, len) => ReadPass(s1, i, len).0
    case Writing(i, data) => WritePass(s1, i, data).0
    case Waiting(pid) => WaitPass(s1, pid).0
    case _ => s1
  }
}
