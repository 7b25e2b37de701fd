/** What the invariant of the kernel state machine means for its users, in any
    state that any run from the boot state reaches. */
module Guarantees {
  import opened Base
  import opened Kernel
  import opened Runs
  import opened Fairness

  /** sched_init: four slots, the boot thread running with the console open. */
  function Boot(): State {
    State([FRESH.(state := Running, fds := NO_FDS[0 := CONSOLE][1 := CONSOLE]), FRESH, FRESH, FRESH], 0,
          seq(PIPES, _ => Pipe(false, seq(RING, _ => 0), 0, 0, 0, 0, 0)),
            seq(PROCESSES, _ => Process(0, 0, 0, 0, NoProcess)), 1,
          seq(PIPES, _ => []), seq(PIPES, _ => []))
  }

  lemma BootThread(t: nat)
    requires t < 4
    ensures var th := Boot().threads[t]; |th.fds| == FDS && th.ticks <= 8 && th.place == Outside && th.state != Blocked
    ensures var th := Boot().threads[t]; forall f ::
      0 <= f < FDS ==> th.fds[f].kind == NoKind || th.fds[f].kind == Console
    ensures Boot().threads[t].state == Unused ==> Boot().threads[t].fds == NO_FDS
  {
  }

  lemma BootThreads()
    ensures var s := Boot(); |s.threads| == 4 && forall t :: 0 <= t < 4 ==>
      && |s.threads[t].fds| == FDS && s.threads[t].ticks <= 8 && Holds(s.threads[t]) && s.threads[t].state != Blocked
      && (forall f :: 0 <= f < FDS ==> s.threads[t].fds[f].kind == NoKind || s.threads[t].fds[f].kind == Console)
      && (s.threads[t].state == Unused ==> s.threads[t].fds == NO_FDS)
    ensures Cur(Boot()).state == Running
  {
    forall t: nat | t < 4
      ensures var th := Boot().threads[t];
        |th.fds| == FDS && th.ticks <= 8 && th.place == Outside && th.state != Blocked
      ensures var th := Boot().threads[t];
        forall f :: 0 <= f < FDS ==> th.fds[f].kind == NoKind || th.fds[f].kind == Console
      ensures Boot().threads[t].state == Unused ==> Boot().threads[t].fds == NO_FDS
    {
      BootThread(t);
    }
  }

  lemma BootKeeps()
    ensures Shape(Boot()) && Inv(Boot())
  {
    hide NO_FDS, FRESH;
    var s := Boot();
    BootThreads();
    forall i | 0 <= i < PIPES
      ensures CountsOk(s.threads, s.pipes[i], i, {})
    {
      assert Refs(s.threads, PipeRead, i) == {} && Refs(s.threads, PipeWrite, i) == {};
    }
  }

  /** Every state that a run from boot reaches satisfies the invariant, and so
      everything below. */
  lemma Reachable(es: seq<Event>)
    ensures Shape(Boot()) && Inv(Boot()) && Inv(Run(Boot(), es))
  {
    BootKeeps();
  }

  /** No lost wakeup: a reader sleeps only on an empty pipe somebody can still
      write to, a writer only on a full pipe somebody can still read, and a
      waiting parent only while the child exists and has not exited. */
  lemma NoLostWakeup(s: State, t: nat)
    requires Shape(s) && Inv(s) && t < |s.threads| && s.threads[t].state == Blocked
    ensures match s.threads[t].place
      case Reading(i, _) => i < PIPES && s.pipes[i].inUse && Ring(s.pipes[i]) == [] && s.pipes[i].writers > 0
      case Writing(i, _) => i < PIPES && s.pipes[i].inUse && |Ring(s.pipes[i])| == RING && s.pipes[i].readers > 0
      case Waiting(pid) => FindPid(s.processes, pid, 0) < PROCESSES
        && s.processes[FindPid(s.processes, pid, 0)].state != Exited
      case _ => true
  {
    hide Counted, Holders, Streams;
    assert Justified(s.threads[t], s.pipes, s.processes);
    if s.threads[t].place.Waiting? {
      OnlyRecord(s, s.threads[t].place.pid);
    }
  }

  lemma OnlyRecord(s: State, pid: nat)
    requires Shape(s) && Inv(s) && ChildAlive(s.processes, pid)
    ensures FindPid(s.processes, pid, 0) < PROCESSES && IsAlive(s.processes[FindPid(s.processes, pid, 0)])
  {
    var j: nat :| j < PROCESSES && IsAlive(s.processes[j]) && s.processes[j].pid == pid;
    var k := FindPid(s.processes, pid, 0);
    assert k < j ==> DifferentProcesses(s.processes[k], s.processes[j]);
  }

  /** The counts of a pipe in use are its descriptors, over all threads and
      zombies; a pipe slot is free exactly when no descriptor names it. */
  lemma CountsAreDescriptors(s: State, i: nat)
    requires Shape(s) && Inv(s) && i < PIPES
    ensures s.pipes[i].inUse ==>
      s.pipes[i].readers == |Refs(s.threads, PipeRead, i)| && s.pipes[i].writers == |Refs(s.threads, PipeWrite, i)|
    ensures s.pipes[i].inUse <==> Refs(s.threads, PipeRead, i) + Refs(s.threads, PipeWrite, i) != {}
  {
    assert CountsOk(s.threads, s.pipes[i], i, {});
    hide Inv, Refs;
    NoneRemoved(Refs(s.threads, PipeRead, i));
    NoneRemoved(Refs(s.threads, PipeWrite, i));
  }

  /** A thread inside a pipe call finds its pipe in use when it wakes up: the slot
      was not recycled under it. */
  lemma PipeStays(s: State, t: nat)
    requires Shape(s) && Inv(s) && t < |s.threads|
    ensures match s.threads[t].place
      case Reading(i, _) => i < PIPES && s.pipes[i].inUse && s.pipes[i].readers > 0
      case Writing(i, _) => i < PIPES && s.pipes[i].inUse && s.pipes[i].writers > 0
      case _ => true
  {
    var th := s.threads[t];
    assert Holds(th);
    match th.place
    case Reading(i, _) =>
      var f :| 0 <= f < |th.fds| && IsRef(th.fds[f], PipeRead, i);
      NamedInUse(s, t, f);
    case Writing(i, _) =>
      var f :| 0 <= f < |th.fds| && IsRef(th.fds[f], PipeWrite, i);
      NamedInUse(s, t, f);
    case _ =>
  }

  /** Streams: what a read returns is the next part of what was accepted. It
      returns nothing for len > 0 only at the end: everything accepted was
      delivered and no descriptor for writing is left. */
  lemma ReadsInOrder(s: State, i: nat, len: nat)
    requires Shape(s) && Inv(s) && i < PIPES && s.pipes[i].inUse && ReadPass(s, i, len).1.Done?
    ensures var (s', out) := ReadPass(s, i, len);
      && out.value == |out.data| == (if s.pipes[i].count < len then s.pipes[i].count else len)
      && s'.accepted == s.accepted
      && |s'.delivered| == PIPES && s'.delivered[i] == s.delivered[i] + out.data && s'.delivered[i] <= s.accepted[i]
      && (out.value == 0 && len > 0 ==> s.delivered[i] == s.accepted[i] && Refs(s.threads, PipeWrite, i) == {})
  {
    hide Inv, Sleep, Woken, Ring, Refs;
    PipeFifo(s, i);
    CountsAreDescriptors(s, i);
    RingSize(s.pipes[i]);
    assert s.delivered[i] + Ring(s.pipes[i]) == s.accepted[i];
  }

  lemma PipeFifo(s: State, i: nat)
    requires Shape(s) && Inv(s) && i < PIPES && s.pipes[i].inUse
    ensures s.accepted[i] == s.delivered[i] + Ring(s.pipes[i])
  {
    assert Fifo(s.pipes[i], s.accepted[i], s.delivered[i]);
  }

  lemma RingSize(p: Pipe)
    requires PipeShape(p)
    ensures |Ring(p)| == p.count
  {
  }

  /** A write is accepted as far as the ring has room, at the end of the stream;
      it is refused exactly when no descriptor for reading is left. */
  lemma WritesInOrder(s: State, i: nat, data: seq<Byte>)
    requires Shape(s) && Inv(s) && i < PIPES && s.pipes[i].inUse && WritePass(s, i, data).1.Done?
    ensures WritePass(s, i, data).1.value == -1 <==> Refs(s.threads, PipeRead, i) == {}
    ensures WritePass(s, i, data).1.value >= 0 ==>
      var (s', out) := WritePass(s, i, data);
      && out.value == (if 1024 - s.pipes[i].count < |data| then 1024 - s.pipes[i].count else |data|)
      && s'.delivered == s.delivered && |s'.accepted| == |s'.pipes| == PIPES
      && s'.accepted[i] == s.accepted[i] + data[..out.value]
      && (out.value < |data| ==> s'.pipes[i].count == RING)
  {
    hide Inv, Sleep, Woken, Stored, Refs;
    CountsAreDescriptors(s, i);
    var p := s.pipes[i];
    if p.readers > 0 && p.count < RING {
      var n := if RING - p.count < |data| then RING - p.count else |data|;
      StoredRing(p, data[..n]);
    }
  }
}
