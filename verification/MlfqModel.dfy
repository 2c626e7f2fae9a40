/** The multi-level feedback queue of kernel/proc.c and of the timer branch in kernel/trap.c,
    on one hart. Each step is one stretch of kernel code that nothing interrupts. */
module MlfqModel {
  import opened Basics

  const NPROC: nat := 64
  const NQUEUE: nat := 4

  /** timesliceq */
  function TimeSlice(level: nat): nat {
    if level == 0 then 1 else if level == 1 then 4 else if level == 2 then 8 else 16
  }

  datatype ProcState = UNUSED | USED | SLEEPING | RUNNABLE | RUNNING | ZOMBIE

  datatype Proc = Proc(state: ProcState, pid: nat, chan: nat, level: nat, ticks: nat)

  /** A queue holds the indices of processes; `level` and `ticks` of a process are its
      queue_number and queueticks; `cur` is the process on the hart, or NPROC. */
  datatype State = State(proc: seq<Proc>, queue: seq<seq<nat>>, cur: nat, nextpid: nat)

  ghost predicate Shape(s: State) {
    && |s.proc| == NPROC && |s.queue| == NQUEUE
    && forall l, i :: 0 <= l < NQUEUE && 0 <= i < |s.queue[l]| ==> s.queue[l][i] < NPROC
  }

  // ----- enqueue and dequeue, which compare pids -----

  /** The first position at which a process with the pid is queued, or |q|. */
  function Position(proc: seq<Proc>, q: seq<nat>, pid: nat): (i: nat)
    requires forall k :: 0 <= k < |q| ==> q[k] < |proc|
    ensures i <= |q| && (i < |q| ==> proc[q[i]].pid == pid) && forall k :: 0 <= k < i ==> proc[q[k]].pid != pid
  {
    if q == [] || proc[q[0]].pid == pid then 0 else Position(proc, q[1..], pid) + 1
  }

  function Enqueued(s: State, p: nat, level: nat): State
    requires Shape(s) && p < NPROC && level < NQUEUE
  {
    if Position(s.proc, s.queue[level], s.proc[p].pid) < |s.queue[level]| then s
    else s.(queue := s.queue[level := s.queue[level] + [p]],
        proc := s.proc[p := s.proc[p].(ticks := 0, level := level)])
  }

  function Dequeued(s: State, p: nat, level: nat): State
    requires Shape(s) && p < NPROC && level < NQUEUE
  {
    s.(queue := s.queue[level := Without(s.queue[level], Position(s.proc, s.queue[level], s.proc[p].pid))])
  }

  predicate Queueable(state: ProcState) { state == RUNNABLE || state == RUNNING }

  // ----- Invariant -----

  ghost predicate ProcOk(s: State, p: nat) {
    p < |s.proc| ==>
      var x := s.proc[p];
      && x.level < NQUEUE
      && (x.state.UNUSED? <==> x.pid == 0) && x.pid < s.nextpid && (x.state.RUNNING? <==> p == s.cur)
  }

  ghost predicate PidOk(s: State, p: nat, q: nat) {
    p < |s.proc| && q < |s.proc| && p != q && s.proc[p].pid != 0 ==> s.proc[p].pid != s.proc[q].pid
  }

  ghost predicate EntryOk(s: State, l: nat, i: nat) {
    l < |s.queue| && i < |s.queue[l]| ==>
      s.queue[l][i] < |s.proc| && s.proc[s.queue[l][i]].level == l && Queueable(s.proc[s.queue[l][i]].state)
  }

  ghost predicate OnceOk(s: State, l: nat, i: nat, j: nat) {
    l < |s.queue| && i < j < |s.queue[l]| ==> s.queue[l][i] != s.queue[l][j]
  }

  /** All but that every process that can run is queued. */
  ghost predicate Core(s: State) {
    && Shape(s) && 0 < s.nextpid && s.cur <= NPROC
    && (forall p :: ProcOk(s, p)) && (forall p, q :: PidOk(s, p, q))
    && (forall l, i :: EntryOk(s, l, i)) && (forall l, i, j :: OnceOk(s, l, i, j))
  }

  ghost predicate QueuedOk(s: State, p: nat)
    requires Shape(s)
  {
    p < NPROC && Queueable(s.proc[p].state) ==> s.proc[p].level < NQUEUE && p in s.queue[s.proc[p].level]
  }

  ghost predicate Full(s: State) {
    Core(s) && forall p :: QueuedOk(s, p)
  }

  ghost predicate TicksOk(s: State, p: nat) {
    p < |s.proc| ==> s.proc[p].ticks < TimeSlice(s.proc[p].level)
  }

  /** The processes that can run are the ones queued, each once and in its own queue, and no
      process has used up its time slice. */
  ghost predicate Inv(s: State) {
    Full(s) && forall p :: TicksOk(s, p)
  }
}
