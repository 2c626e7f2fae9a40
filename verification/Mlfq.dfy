/** The queue arrays of kernel/proc.c and the loops over them. */
module Mlfq {
  import opened Basics
  import opened MlfqModel
  import opened MlfqSafety
  import opened MlfqBoost
  import opened MlfqRun
  import opened MlfqStarvation

  /** The entries of a row of multique are processes. */
  ghost predicate RowOk(proc: seq<Proc>, q: seq<nat>) {
    forall k :: 0 <= k < |q| ==> q[k] < |proc|
  }

  lemma {:induction false} PositionFirst(proc: seq<Proc>, q: seq<nat>, pid: nat, i: nat)
    requires RowOk(proc, q) && i <= |q| && (forall k :: 0 <= k < i ==> proc[q[k]].pid != pid)
             && (i < |q| ==> proc[q[i]].pid == pid)
    ensures Position(proc, q, pid) == i
  {
  }

  /** The inner loop of dequeue: the rest of the row moves down. */
  method ShiftDown(q: array<nat>, i: nat, size: nat)
    requires i < size <= q.Length
    modifies q
    ensures q[..size - 1] == Without(old(q[..size]), i)
  {
    var j := i;
    while j < size - 1
      invariant i <= j <= size - 1
      invariant forall k :: 0 <= k < i || j <= k < size ==> q[k] == old(q[k])
      invariant forall k :: i <= k < j ==> q[k] == old(q[k + 1])
    {
      q[j] := q[j + 1];
      j := j + 1;
    }
  }

  /** dequeue on one row: find the process and take it out. */
  method DequeueRow(proc: seq<Proc>, q: array<nat>, size: nat, pid: nat) returns (size': nat)
    requires size <= q.Length && RowOk(proc, q[..size])
    modifies q
    ensures size' <= size && q[..size'] == Without(old(q[..size]), Position(proc, old(q[..size]), pid))
    ensures size' < size ==> size' == size - 1 && q[size'] == 0
  {
    ghost var q0 := q[..size];
    size' := size;
    if size == 0 {
      return;
    }
    var i := 0;
    while i < size
      invariant i <= size && q[..size] == q0 && forall k :: 0 <= k < i ==> proc[q0[k]].pid != pid
    {
      if proc[q[i]].pid == pid {
        PositionFirst(proc, q0, pid, i);
        ShiftDown(q, i, size);
        size' := size - 1;
        q[size'] := 0;
        return;
      }
      i := i + 1;
    }
    PositionFirst(proc, q0, pid, i);
  }

  /** The loop of enqueue: the process joins the row unless one with its pid is there. */
  method EnqueueRow(proc: seq<Proc>, q: array<nat>, size: nat, p: nat) returns (size': nat, added: bool)
    requires p < |proc| && size <= q.Length && RowOk(proc, q[..size])
    requires Position(proc, q[..size], proc[p].pid) == size ==> size < q.Length
    modifies q
    ensures added <==> Position(proc, old(q[..size]), proc[p].pid) == size
    ensures size' <= q.Length && q[..size'] == if added then old(q[..size]) + [p] else old(q[..size])
  {
    ghost var q0 := q[..size];
    var i := 0;
    while i < size
      invariant i <= size && q[..size] == q0 && forall k :: 0 <= k < i ==> proc[q0[k]].pid != proc[p].pid
    {
      if proc[q[i]].pid == proc[p].pid {
        PositionFirst(proc, q0, proc[p].pid, i);
        return size, false;
      }
      i := i + 1;
    }
    PositionFirst(proc, q0, proc[p].pid, i);
    q[size] := p;
    return size + 1, true;
  }

  lemma FirstQueued(s: State)
    requires Shape(s) && s.queue == [[], [], [], []]
    ensures Position(s.proc, s.queue[0], s.proc[0].pid) == 0
    ensures Enqueued(s, 0, 0) == s.(queue := [[0], [], [], []], proc := s.proc[0 := s.proc[0].(ticks := 0, level := 0)])
  {
    assert s.queue[0] + [0] == [0];
    assert s.queue[0 := [0]] == [[0], [], [], []];
  }

  class Scheduler {
    const multique: seq<array<nat>>
    var sizeofq: seq<nat>
    var proc: seq<Proc>
    var cur: nat
    var nextpid: nat

    ghost predicate Rows()
      reads this
    {
      && |multique| == NQUEUE && |sizeofq| == NQUEUE
      && (forall l :: 0 <= l < NQUEUE ==> multique[l].Length == NPROC && sizeofq[l] <= NPROC)
      && (forall l, m :: 0 <= l < m < NQUEUE ==> multique[l] != multique[m])
    }

    ghost function S(): State
      requires Rows()
      reads this, multique
    {
      State(proc, [multique[0][..sizeofq[0]], multique[1][..sizeofq[1]], multique[2][..sizeofq[2]],
          multique[3][..sizeofq[3]]], cur, nextpid)
    }

    /** userinit: the first process is runnable, in queue 0, and there is no other. */
    constructor ()
      ensures Rows() && fresh(multique) && Init(S())
    {
      var q0, q1, q2, q3 := new nat[NPROC], new nat[NPROC], new nat[NPROC], new nat[NPROC];
      multique, sizeofq := [q0, q1, q2, q3], [0, 0, 0, 0];
      proc := seq(NPROC, _ => Proc(UNUSED, 0, 0, 0, 0));
      cur, nextpid := NPROC, 1;
      new;
      proc, nextpid := proc[0 := proc[0].(state := USED, pid := nextpid, ticks := 0)], nextpid + 1;
      proc := proc[0 := proc[0].(state := RUNNABLE)];
      assert S().queue == [[], [], [], []];
      FirstQueued(S());
      Enqueue(0, 0);
    }

    method Dequeue(p: nat, l: nat)
      requires Rows() && Shape(S()) && p < NPROC && l < NQUEUE
      modifies this`sizeofq, multique
      ensures Rows() && S() == Dequeued(old(S()), p, l)
    {
      assert S().queue[l] == multique[l][..sizeofq[l]];
      var n := DequeueRow(proc, multique[l], sizeofq[l], proc[p].pid);
      sizeofq := sizeofq[l := n];
    }

    method Enqueue(p: nat, l: nat)
      requires Rows() && Shape(S()) && p < NPROC && l < NQUEUE
      requires Position(proc, S().queue[l], proc[p].pid) == |S().queue[l]| ==> |S().queue[l]| < NPROC
      modifies this`sizeofq, this`proc, multique
      ensures Rows() && S() == Enqueued(old(S()), p, l)
    {
      assert S().queue[l] == multique[l][..sizeofq[l]];
      var n, added := EnqueueRow(proc, multique[l], sizeofq[l], p);
      if added {
        sizeofq := sizeofq[l := n];
        proc := proc[p := proc[p].(ticks := 0, level := l)];
      }
    }

    /** The inner loop of the priority boost. */
    method BoostLevel(level: nat)
      requires Rows() && Core(S()) && 0 < level < NQUEUE
      modifies this`sizeofq, this`proc, multique
      ensures Rows() && S() == BoostFrom(old(S()), level, 0)
    {
      hide Core, Dequeued, Enqueued, BoostOne, Without;
      ghost var s1 := S();
      var j := 0;
      while j < sizeofq[level]
        invariant Rows() && Core(S()) && BoostFrom(S(), level, j) == BoostFrom(s1, level, 0)
        decreases sizeofq[level] - j
      {
        ghost var s := S();
        assert s.queue[level] == multique[level][..sizeofq[level]];
        BoostRound(s, level, j);
        var temp := multique[level][j];
        Dequeue(temp, proc[temp].level);
        Enqueue(temp, 0);
        assert S() == BoostOne(s, level, j);
        assert S().queue[level] == multique[level][..sizeofq[level]];
        j := j + 1;
      }
    }

    /** The priority boost of the timer interrupt. */
    method Boost()
      requires Rows() && Core(S())
      modifies this`sizeofq, this`proc, multique
      ensures Rows() && S() == Boosted(old(S()))
    {
      hide Core, BoostFrom;
      ghost var s0 := S();
      for level := 1 to 4
        invariant Rows() && Core(S())
        invariant level == 1 ==> S() == s0
        invariant level == 2 ==> S() == BoostFrom(s0, 1, 0)
        invariant level == 3 ==> S() == BoostFrom(BoostFrom(s0, 1, 0), 2, 0)
        invariant level == 4 ==> S() == Boosted(s0)
      {
        BoostLevel(level);
      }
    }

    /** yield, up to the switch to the scheduler. */
    method GiveUp()
      requires Rows() && |proc| == NPROC && cur < NPROC
      modifies this`proc, this`cur
      ensures Rows() && S() == Yielded(old(S())) && cur == NPROC && S().queue == old(S()).queue
      ensures proc == old(proc)[old(cur) := old(proc)[old(cur)].(state := RUNNABLE)]
    {
      proc := proc[cur := proc[cur].(state := RUNNABLE)];
      cur := NPROC;
    }

    /** The process has used up its time slice. */
    method Demote()
      requires Rows() && Full(S()) && cur < NPROC
      modifies this`sizeofq, this`proc, multique
      ensures Rows() && S() == Demoted(old(S())) && |proc| == NPROC && cur < NPROC
    {
      hide Full, Demoted, Dequeued, Enqueued;
      DemoteRound(S());
      var npriority := proc[cur].level + 1;
      Dequeue(cur, proc[cur].level);
      if npriority > 3 {
        npriority := npriority - 1;
      }
      Enqueue(cur, npriority);
    }

    /** The timer branch of usertrap, up to the point at which the process gives up the hart or
        returns to user space. */
    method TimerTick(boost: bool)
      requires Rows() && Inv(S()) && cur < NPROC
      modifies this`sizeofq, this`proc, this`cur, multique
      ensures Rows() && S() == TickStep(old(S()), boost) && Inv(S())
      ensures |proc| == |old(proc)| == NPROC && |old(S()).queue| == NQUEUE && old(proc)[old(cur)].level < NQUEUE
      ensures var x := old(proc)[old(cur)];
              !boost && x.ticks + 1 < TimeSlice(x.level) ==>
                && S().queue == old(S()).queue
                && (cur == NPROC <==> exists i :: 0 <= i < x.level && old(S()).queue[i] != [])
                && (cur != NPROC ==> cur == old(cur))
                && proc == old(proc)[old(cur) :=
                     x.(ticks := x.ticks + 1, state := if cur == NPROC then RUNNABLE else x.state)]
    {
      hide Core, Boosted, Demoted, Yielded, Dequeued, Enqueued;
      ghost var s0 := S();
      CoreShape(s0);
      TickYields(s0);
      TickKeeps(s0, boost);
      TickedKeeps(s0, boost);
      proc := proc[cur := proc[cur].(ticks := proc[cur].ticks + 1)];
      TickCore(s0, S());
      if boost {
        Boost();
      }
      ghost var s1 := S();
      TickedSame(s0, boost);
      CurQueued(s1);
      if proc[cur].ticks >= TimeSlice(proc[cur].level) {
        Demote();
        GiveUp();
        return;
      }
      var i := 0;
      while i < proc[cur].level
        invariant i <= proc[cur].level && forall k :: 0 <= k < i ==> s1.queue[k] == []
        invariant Rows() && S() == s1 && cur < NPROC
      {
        assert s1.queue[i] == multique[i][..sizeofq[i]];
        if sizeofq[i] > 0 {
          assert s1.queue[i] != [];
          GiveUp();
          return;
        }
        i := i + 1;
      }
    }

    /** A round of the scheduler that nothing interrupts. Its first loop queues every runnable
        process, which changes nothing because they are queued. */
    method Schedule()
      requires Rows() && Inv(S()) && cur == NPROC
      modifies this`sizeofq, this`proc, this`cur, multique
      ensures Rows() && S() == Do(old(S()), Action.Schedule) && Inv(S())
      ensures |proc| == |old(proc)| == NPROC && S().queue == old(S()).queue && nextpid == old(nextpid)
      ensures if exists q :: 0 <= q < NPROC && old(proc)[q].state.RUNNABLE? then
                && cur < NPROC && old(proc)[cur].state.RUNNABLE? && Best(old(S()), cur)
                && proc == old(proc)[cur := old(proc)[cur].(state := RUNNING)]
              else cur == NPROC && proc == old(proc)
    {
      hide Core, Enqueued, Better;
      ScheduleRuns(S());
      ghost var s0 := S();
      CoreShape(s0);
      StepKeeps(s0, Action.Schedule);
      for temp := 0 to NPROC
        invariant Rows() && S() == s0
      {
        if proc[temp].state.RUNNABLE? {
          AlreadyQueued(s0, temp);
          var oldTicks := proc[temp].ticks;
          Enqueue(temp, proc[temp].level);
          proc := proc[temp := proc[temp].(ticks := oldTicks)];
        }
      }
      var p := FindBest();
      if p < NPROC {
        proc := proc[p := proc[p].(state := RUNNING)];
        cur := p;
      }
    }

    /** The nested loops of the scheduler. */
    method FindBest() returns (p: nat)
      requires Rows() && Shape(S())
      ensures p == PickFrom(S(), 0)
    {
      ghost var s := S();
      for level := 0 to NQUEUE
        invariant PickFrom(s, 0) == PickFrom(s, level)
      {
        assert s.queue[level] == multique[level][..sizeofq[level]];
        for j := 0 to sizeofq[level]
          invariant forall k :: 0 <= k < j ==> !s.proc[s.queue[level][k]].state.RUNNABLE?
        {
          if proc[multique[level][j]].state.RUNNABLE? {
            RunnableFirst(s.proc, s.queue[level], j);
            return multique[level][j];
          }
        }
        RunnableFirst(s.proc, s.queue[level], sizeofq[level]);
      }
      return NPROC;
    }

    /** The body of wakeup's loop. */
    method WakeOne(p: nat)
      requires Rows() && Inv(S()) && p < NPROC && |proc| == NPROC && proc[p].state.SLEEPING?
      modifies this`sizeofq, this`proc, multique
      ensures Rows() && S() == Woken(old(S()), p, true) && |proc| == NPROC
    {
      hide Inv, Enqueued, Woken;
      WakeRound(S(), p);
      proc := proc[p := proc[p].(state := RUNNABLE)];
      var oldTicks := proc[p].ticks;
      Enqueue(p, proc[p].level);
      proc := proc[p := proc[p].(ticks := oldTicks)];
    }

    /** wakeup. The process on the hart is running, so it is not asleep. */
    method Wakeup(chan: nat)
      requires Rows() && Inv(S())
      modifies this`sizeofq, this`proc, multique
      ensures Rows() && S() == WokenTo(old(S()), chan, NPROC) && Inv(S())
    {
      hide Core, Enqueued, Woken, Full, TicksOk;
      ghost var s0 := S();
      InvShape(s0);
      for p := 0 to NPROC
        invariant Rows() && S() == WokenTo(s0, chan, p) && |proc| == NPROC
      {
        if proc[p].state.SLEEPING? && proc[p].chan == chan {
          WokenKeeps(S(), p, true);
          WakeOne(p);
        }
      }
    }
  }

  /** enqueue of a process that is queued changes nothing. */
  lemma AlreadyQueued(s: State, p: nat)
    requires Inv(s) && p < NPROC && s.proc[p].state.RUNNABLE?
    ensures s.proc[p].level < NQUEUE && Enqueued(s, p, s.proc[p].level) == s
    ensures Position(s.proc, s.queue[s.proc[p].level], s.proc[p].pid) < |s.queue[s.proc[p].level]|
  {
    var i := QueuedAt(s, p);
    PositionIs(s, s.proc[p].level, i);
  }

  lemma {:induction false} RunnableFirst(proc: seq<Proc>, q: seq<nat>, i: nat)
    requires RowOk(proc, q) && i <= |q| && (forall k :: 0 <= k < i ==> !proc[q[k]].state.RUNNABLE?)
             && (i < |q| ==> proc[q[i]].state.RUNNABLE?)
    ensures FirstRunnable(proc, q) == i
  {
  }

  /** The calls that wake a process up, and the room for it. */
  lemma WakeRound(s: State, p: nat)
    requires Inv(s) && p < NPROC && s.proc[p].state.SLEEPING?
    ensures var s1, l := SetState(s, p, RUNNABLE), s.proc[p].level;
            && |s.proc| == NPROC && l < NQUEUE && Shape(s1) && |s1.queue[l]| < NPROC
              && |Enqueued(s1, p, l).proc| == NPROC
            && Woken(s, p, true) == (var s2 := Enqueued(s1, p, l);
              s2.(proc := s2.proc[p := s2.proc[p].(ticks := s.proc[p].ticks)]))
  {
    assert ProcOk(s, p);
    var l := s.proc[p].level;
    forall i | 0 <= i < |s.queue[l]| ensures s.queue[l][i] != p { assert EntryOk(s, l, i); }
    Room(s, p, l);
  }

  lemma InvShape(s: State)
    requires Inv(s)
    ensures Shape(s)
  {
  }

  lemma CurQueued(s: State)
    requires Full(s) && s.cur < NPROC
    ensures |s.proc| == NPROC && |s.queue| == NQUEUE && s.proc[s.cur].level < NQUEUE
  {
    assert ProcOk(s, s.cur);
  }

  /** The two calls that demote a process, and the room for it. */
  lemma DemoteRound(s: State)
    requires Full(s) && s.cur < NPROC
    ensures var l := s.proc[s.cur].level;
            var l' := if l + 1 > 3 then l else l + 1;
            && Shape(s) && l < NQUEUE && Shape(Dequeued(s, s.cur, l)) && Dequeued(s, s.cur, l).proc == s.proc
            && Demoted(s) == Enqueued(Dequeued(s, s.cur, l), s.cur, l') && |Dequeued(s, s.cur, l).queue[l']| < NPROC
            && Demoted(s).cur == s.cur && |Demoted(s).proc| == NPROC
  {
    var p := s.cur;
    assert ProcOk(s, p);
    var l := s.proc[p].level;
    var i := QueuedAt(s, p);
    DequeueKeeps(s, l, i);
    Room(Dequeued(s, p, l), p, if l + 1 > 3 then l else l + 1);
  }

  /** dequeue followed by enqueue is a round of the boost, and there is room. */
  lemma BoostRound(s: State, l: nat, j: nat)
    requires Core(s) && 0 < l < NQUEUE && j < |s.queue[l]|
    ensures var p := s.queue[l][j];
            && Shape(s) && p < NPROC && s.proc[p].level == l && Shape(Dequeued(s, p, l))
              && Dequeued(s, p, l).proc == s.proc
            && BoostOne(s, l, j) == Enqueued(Dequeued(s, p, l), p, 0) && Core(BoostOne(s, l, j))
            && |Dequeued(s, p, l).queue[0]| < NPROC
            && |BoostOne(s, l, j).queue[l]| == |s.queue[l]| - 1
  {
    var p := s.queue[l][j];
    assert EntryOk(s, l, j);
    DequeueKeeps(s, l, j);
    var s1 := Dequeued(s, p, l);
    Room(s1, p, 0);
  }

  /** A queue always has room for a process that is not in it. */
  lemma Room(s: State, p: nat, l: nat)
    requires Core(s) && p < NPROC && l < NQUEUE && p !in s.queue[l]
    ensures |s.queue[l]| < NPROC
  {
    var q := s.queue[l] + [p];
    forall i: nat, k: nat | i < k < |q| ensures q[i] != q[k] { assert OnceOk(s, l, i, k); }
    DistinctBound(q, NPROC);
  }
}
