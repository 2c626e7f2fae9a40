/** The steps of the multi-level feedback queue scheduler and what every run of them keeps. */
module MlfqRun {
  import opened Basics
  import opened MlfqModel
  import opened MlfqSafety
  import opened MlfqBoost

  datatype Action =
    | Alloc(p: nat)
    | Start(p: nat)
    | Free(p: nat)
    | Schedule
    | Tick(boost: bool)
    | Yield
    | Sleep(chan: nat)
    | Wakeup(chan: nat)
    | Kill(pid: nat)
    | Exit

  ghost function SetState(s: State, p: nat, state: ProcState): State
    requires p < |s.proc|
  {
    s.(proc := s.proc[p := s.proc[p].(state := state)])
  }

  /** A sleeping process can run again: it goes to the end of the queue it was in. wakeup puts
      its ticks back, kill does not. */
  ghost function Woken(s: State, p: nat, keepTicks: bool): State
    requires Core(s) && p < NPROC && s.proc[p].state.SLEEPING?
  {
    assert ProcOk(s, p);
    var s1 := SetState(s, p, RUNNABLE);
    var s2 := Enqueued(s1, p, s.proc[p].level);
    if keepTicks then s2.(proc := s2.proc[p := s2.proc[p].(ticks := s.proc[p].ticks)]) else s2
  }

  /** The process on the hart goes to sleep on chan or exits, and leaves its queue. */
  ghost function Left(s: State, state: ProcState, chan: nat): State
    requires Core(s) && s.cur < NPROC
  {
    assert ProcOk(s, s.cur);
    var s1 := s.(proc := s.proc[s.cur := s.proc[s.cur].(state := state, chan := chan)]);
    Dequeued(s1, s.cur, s.proc[s.cur].level).(cur := NPROC)
  }

  lemma WokenKeeps(s: State, p: nat, keepTicks: bool)
    requires Inv(s) && p < NPROC && s.proc[p].state.SLEEPING?
    ensures var s' := Woken(s, p, keepTicks);
            && Inv(s') && s.proc[p].level < NQUEUE
              && s'.queue == s.queue[s.proc[p].level := s.queue[s.proc[p].level] + [p]]
            && s'.proc == s.proc[p := s.proc[p].(state := RUNNABLE, ticks := if keepTicks then s.proc[p].ticks else 0)]
            && s'.cur == s.cur && s'.nextpid == s.nextpid
  {
    var l := s.proc[p].level;
    var s1 := SetState(s, p, RUNNABLE);
    assert ProcOk(s, p);
    forall m, i | 0 <= m < NQUEUE && 0 <= i < |s.queue[m]| ensures s.queue[m][i] != p { assert EntryOk(s, m, i); }
    assert Core(s1) by {
      forall q ensures ProcOk(s1, q) { assert ProcOk(s, q); }
      forall q, r ensures PidOk(s1, q, r) { assert PidOk(s, q, r); }
      forall m, i ensures EntryOk(s1, m, i) { assert EntryOk(s, m, i); }
      forall m, i, j ensures OnceOk(s1, m, i, j) { assert OnceOk(s, m, i, j); }
    }
    EnqueueKeeps(s1, p, l);
    var s2, s' := Enqueued(s1, p, l), Woken(s, p, keepTicks);
    SameButTicks(s2, s', p);
    forall q ensures QueuedOk(s', q) { assert QueuedOk(s, q); }
    forall q ensures TicksOk(s', q) { assert TicksOk(s, q); }
  }

  lemma SameButTicks(s: State, s': State, p: nat)
    requires Core(s) && p < NPROC && s'.queue == s.queue && s'.cur == s.cur && s'.nextpid == s.nextpid
    requires exists t: nat :: s'.proc == s.proc[p := s.proc[p].(ticks := t)]
    ensures Core(s')
  {
    forall q ensures ProcOk(s', q) { assert ProcOk(s, q); }
    forall q, r ensures PidOk(s', q, r) { assert PidOk(s, q, r); }
    forall m, i ensures EntryOk(s', m, i) { assert EntryOk(s, m, i); }
    forall m, i, j ensures OnceOk(s', m, i, j) { assert OnceOk(s, m, i, j); }
  }

  lemma {:induction false} PositionSame(proc: seq<Proc>, proc': seq<Proc>, q: seq<nat>, pid: nat)
    requires |proc'| == |proc| && (forall k :: 0 <= k < |q| ==> q[k] < |proc|)
             && forall p :: 0 <= p < |proc| ==> proc'[p].pid == proc[p].pid
    ensures Position(proc', q, pid) == Position(proc, q, pid)
  {
    if q != [] {
      PositionSame(proc, proc', q[1..], pid);
    }
  }

  lemma QueuedAt(s: State, p: nat) returns (i: nat)
    requires Full(s) && p < NPROC && Queueable(s.proc[p].state)
    ensures s.proc[p].level < NQUEUE && i < |s.queue[s.proc[p].level]| && s.queue[s.proc[p].level][i] == p
  {
    assert QueuedOk(s, p);
    i :| 0 <= i < |s.queue[s.proc[p].level]| && s.queue[s.proc[p].level][i] == p;
  }

  /** A process that is in no queue changes to a state in which it cannot run. */
  lemma RetiredKeeps(s: State, s': State, p: nat, x: Proc)
    requires Core(s) && p < NPROC && !x.state.RUNNING? && !x.state.UNUSED? && !Queueable(x.state)
             && x.pid == s.proc[p].pid != 0 && x.level == s.proc[p].level
    requires s'.queue == s.queue && s'.nextpid == s.nextpid && s'.proc == s.proc[p := x]
             && s'.cur == (if s.cur == p then NPROC else s.cur)
    requires forall m :: 0 <= m < NQUEUE ==> p !in s.queue[m]
    ensures Core(s')
  {
    forall q ensures ProcOk(s', q) { assert ProcOk(s, q); }
    forall q, r ensures PidOk(s', q, r) { assert PidOk(s, q, r) && PidOk(s, r, q); }
    forall m, i ensures EntryOk(s', m, i) { assert EntryOk(s, m, i); }
    forall m, i, j ensures OnceOk(s', m, i, j) { assert OnceOk(s, m, i, j); }
  }

  ghost predicate TookOut(s: State, s': State, l: nat, p: nat) {
    l < |s.queue| && exists i ::
        0 <= i < |s.queue[l]| && s.queue[l][i] == p && s'.queue == s.queue[l := Without(s.queue[l], i)]
  }

  lemma LeftKeeps(s: State, state: ProcState, chan: nat)
    requires Inv(s) && s.cur < NPROC && (state.SLEEPING? || state.ZOMBIE?)
    ensures var s' := Left(s, state, chan);
            && Inv(s') && s'.proc == s.proc[s.cur := s.proc[s.cur].(state := state, chan := chan)] && s'.cur == NPROC
              && s'.nextpid == s.nextpid
            && TookOut(s, s', s.proc[s.cur].level, s.cur)
  {
    var p := s.cur;
    assert ProcOk(s, p);
    var l := s.proc[p].level;
    var i := QueuedAt(s, p);
    var s', s1 := Left(s, state, chan), Dequeued(s, p, l);
    DequeueKeeps(s, l, i);
    PositionSame(s.proc, s.proc[p := s.proc[p].(state := state, chan := chan)], s.queue[l], s.proc[p].pid);
    PositionIs(s, l, i);
    assert s'.queue == s1.queue;
    RetiredKeeps(s1, s', p, s.proc[p].(state := state, chan := chan));
    forall q: nat ensures QueuedOk(s', q) {
      assert QueuedOk(s, q);
      if q < NPROC && q != p && Queueable(s.proc[q].state) { WithoutKeeps(s.queue[l], i, q); }
    }
    forall q ensures TicksOk(s', q) { assert TicksOk(s, q); }
  }

  lemma WithoutKeeps(q: seq<nat>, i: nat, x: nat)
    requires i < |q| && q[i] != x
    ensures x in q ==> x in Without(q, i)
  {
    if x in q {
      var k :| 0 <= k < |q| && q[k] == x;
      assert Without(q, i)[if k < i then k else k - 1] == x;
    }
  }

  // ----- The scheduler's choice -----

  function FirstRunnable(proc: seq<Proc>, q: seq<nat>): (i: nat)
    requires forall k :: 0 <= k < |q| ==> q[k] < |proc|
    ensures i <= |q| && (i < |q| ==> proc[q[i]].state.RUNNABLE?)
            && forall k :: 0 <= k < i ==> !proc[q[k]].state.RUNNABLE?
  {
    if q == [] || proc[q[0]].state.RUNNABLE? then 0 else FirstRunnable(proc, q[1..]) + 1
  }

  /** The first runnable process of the first queue from l on that has one, or NPROC. */
  ghost function PickFrom(s: State, l: nat): nat
    requires Shape(s) && l <= NQUEUE
    decreases NQUEUE - l
  {
    if l == NQUEUE then NPROC
    else if FirstRunnable(s.proc, s.queue[l]) < |s.queue[l]| then s.queue[l][FirstRunnable(s.proc, s.queue[l])]
    else PickFrom(s, l + 1)
  }

  ghost predicate NoneRunnable(s: State, l: nat)
    requires Shape(s)
  {
    l < NQUEUE ==> forall i :: 0 <= i < |s.queue[l]| ==> !s.proc[s.queue[l][i]].state.RUNNABLE?
  }

  ghost predicate BestIn(s: State, l: nat, m: nat, p: nat)
    requires Shape(s)
  {
    l <= m < NQUEUE && p in s.queue[m] && forall k: nat :: l <= k < m ==> NoneRunnable(s, k)
  }

  lemma {:induction false} PickedFrom(s: State, l: nat)
    requires Shape(s) && l <= NQUEUE
    ensures var p := PickFrom(s, l);
            && (p < NPROC ==> s.proc[p].state.RUNNABLE? && exists m: nat :: BestIn(s, l, m, p))
            && (p >= NPROC ==> p == NPROC && forall k: nat :: l <= k < NQUEUE ==> NoneRunnable(s, k))
    decreases NQUEUE - l
  {
    if l < NQUEUE {
      var i := FirstRunnable(s.proc, s.queue[l]);
      if i < |s.queue[l]| {
        assert BestIn(s, l, l, s.queue[l][i]);
      } else {
        PickedFrom(s, l + 1);
        var p := PickFrom(s, l + 1);
        if p < NPROC {
          var m: nat :| BestIn(s, l + 1, m, p);
          assert NoneRunnable(s, l) && BestIn(s, l, m, p);
        }
      }
    }
  }

  /** The process chosen is runnable, no runnable process has a better level, and none of its
      level is ahead of it; nothing is chosen only when no process is runnable. */
  lemma PicksBest(s: State, q: nat)
    requires Inv(s) && q < NPROC && s.proc[q].state.RUNNABLE?
    ensures var p := PickFrom(s, 0);
            p < NPROC && s.proc[p].state.RUNNABLE? && s.proc[p].level <= s.proc[q].level < NQUEUE
    ensures var p := PickFrom(s, 0);
            s.proc[p].level == s.proc[q].level ==>
                Position(s.proc, s.queue[s.proc[p].level], s.proc[p].pid) <= Position(s.proc, s.queue[s.proc[p].level],
                    s.proc[q].pid)
  {
    var p := PickFrom(s, 0);
    PickedFrom(s, 0);
    var k := QueuedAt(s, q);
    var l := s.proc[q].level;
    assert s.queue[l][k] == q;
    assert !NoneRunnable(s, l);
    var m: nat :| BestIn(s, 0, m, p);
    var j :| 0 <= j < |s.queue[m]| && s.queue[m][j] == p;
    assert EntryOk(s, m, j);
    PositionIs(s, l, k);
    PositionIs(s, m, j);
    if m == l {
      PickedAt(s, 0, m);
    }
  }

  /** Process q can run and should rather be given the hart than p: it has a better level, or it
      stands before p in the same queue. */
  ghost predicate Better(s: State, q: nat, p: nat)
    requires Shape(s) && p < NPROC
  {
    && q < NPROC && s.proc[q].state.RUNNABLE?
    && (s.proc[q].level < s.proc[p].level
        || exists l, i, j :: 0 <= l < NQUEUE && 0 <= i < j < |s.queue[l]| && s.queue[l][i] == q && s.queue[l][j] == p)
  }

  ghost predicate Best(s: State, p: nat)
    requires Shape(s)
  {
    p < NPROC && s.proc[p].state.RUNNABLE? && forall q :: !Better(s, q, p)
  }

  lemma PickIsBest(s: State)
    requires Inv(s)
    ensures if exists q :: 0 <= q < NPROC && s.proc[q].state.RUNNABLE? then Best(s, PickFrom(s, 0))
            else PickFrom(s, 0) == NPROC
  {
    hide Core;
    CoreShape(s);
    PickedFrom(s, 0);
    var p := PickFrom(s, 0);
    forall q: nat | q < NPROC && s.proc[q].state.RUNNABLE? ensures p < NPROC && !Better(s, q, p) {
      PicksBest(s, q);
      forall l, i, j | 0 <= l < NQUEUE && 0 <= i < j < |s.queue[l]| && s.queue[l][j] == p ensures s.queue[l][i] != q {
        if s.queue[l][i] == q {
          OrderIs(s, l, i, j);
        }
      }
    }
  }

  lemma OrderIs(s: State, l: nat, i: nat, j: nat)
    requires Core(s) && l < NQUEUE && i < j < |s.queue[l]|
    ensures var q, p := s.queue[l][i], s.queue[l][j];
            && s.proc[p].level == l == s.proc[q].level
            && Position(s.proc, s.queue[l], s.proc[q].pid) < Position(s.proc, s.queue[l], s.proc[p].pid)
  {
    assert EntryOk(s, l, i) && EntryOk(s, l, j);
    PositionIs(s, l, i);
    PositionIs(s, l, j);
  }

  /** If a process can run, the best one is on the hart afterwards, and nothing else changed. */
  lemma ScheduleRuns(s: State)
    requires Inv(s) && s.cur == NPROC
    ensures var s' := Do(s, Schedule);
            && s'.queue == s.queue && s'.nextpid == s.nextpid
            && if exists q :: 0 <= q < NPROC && s.proc[q].state.RUNNABLE? then
                 Best(s, s'.cur) && s'.proc == s.proc[s'.cur := s.proc[s'.cur].(state := RUNNING)]
               else s' == s
  {
    PickIsBest(s);
  }

  lemma {:induction false} PickedAt(s: State, l: nat, m: nat)
    requires Shape(s) && l <= m < NQUEUE && FirstRunnable(s.proc, s.queue[m]) < |s.queue[m]|
    requires forall n: nat :: l <= n < m ==> NoneRunnable(s, n)
    ensures PickFrom(s, l) == s.queue[m][FirstRunnable(s.proc, s.queue[m])]
    decreases m - l
  {
    if l < m {
      assert NoneRunnable(s, l);
      PickedAt(s, l + 1, m);
    }
  }

  // ----- The timer branch of usertrap -----

  /** One more tick for the process on the hart, and the boost when it is due. */
  ghost function Ticked(s: State, boost: bool): (s': State)
    requires Full(s) && s.cur < NPROC
    ensures Core(s')
  {
    var s1 := s.(proc := s.proc[s.cur := s.proc[s.cur].(ticks := s.proc[s.cur].ticks + 1)]);
    TickCore(s, s1);
    if boost then Boosted(s1) else s1
  }

  lemma TickCore(s: State, s1: State)
    requires Core(s) && s.cur < NPROC
             && s1 == s.(proc := s.proc[s.cur := s.proc[s.cur].(ticks := s.proc[s.cur].ticks + 1)])
    ensures Core(s1)
  {
    SameButTicks(s, s1, s.cur);
  }

  ghost predicate Expired(s: State)
    requires |s.proc| == NPROC && s.cur < NPROC
  {
    s.proc[s.cur].ticks >= TimeSlice(s.proc[s.cur].level)
  }

  /** The process goes to the end of the next queue, or of its own when it is in the last. */
  ghost function Demoted(s: State): State
    requires Core(s) && s.cur < NPROC
  {
    assert ProcOk(s, s.cur);
    var l := s.proc[s.cur].level;
    var s1 := Dequeued(s, s.cur, l);
    DequeueShape(s, s.cur, l);
    Enqueued(s1, s.cur, if l + 1 > 3 then l else l + 1)
  }

  lemma DequeueShape(s: State, p: nat, l: nat)
    requires Shape(s) && p < NPROC && l < NQUEUE
    ensures Shape(Dequeued(s, p, l))
  {
  }

  ghost function Yielded(s: State): State
    requires s.cur < |s.proc|
  {
    SetState(s, s.cur, RUNNABLE).(cur := NPROC)
  }

  ghost function TickStep(s: State, boost: bool): State
    requires Full(s) && s.cur < NPROC
  {
    var s1 := Ticked(s, boost);
    TickedSame(s, boost);
    if Expired(s1) then
      DemotedSame(s1);
      Yielded(Demoted(s1))
    else if exists i :: 0 <= i < s1.proc[s1.cur].level && i < NQUEUE && s1.queue[i] != [] then Yielded(s1)
    else s1
  }

  lemma TickedSame(s: State, boost: bool)
    requires Full(s) && s.cur < NPROC
    ensures Ticked(s, boost).cur == s.cur && |Ticked(s, boost).proc| == NPROC
  {
    hide Core, Boosted, Evens, Odds;
    CoreShape(s);
    var s1 := s.(proc := s.proc[s.cur := s.proc[s.cur].(ticks := s.proc[s.cur].ticks + 1)]);
    TickCore(s, s1);
    BoostedIs(s1);
  }

  lemma DemotedSame(s: State)
    requires Core(s) && s.cur < NPROC
    ensures Demoted(s).cur == s.cur && |Demoted(s).proc| == NPROC
  {
  }

  lemma BoostKeeps(s: State)
    requires Full(s)
    ensures Full(Boosted(s)) && forall p :: TicksOk(s, p) ==> TicksOk(Boosted(s), p)
  {
    hide Core, Boosted;
    CoreShape(s);
    var s' := Boosted(s);
    CoreShape(s');
    BoostedIs(s);
    forall q: nat ensures QueuedOk(s', q) {
      if q < NPROC && Queueable(s.proc[q].state) {
        var i := QueuedAt(s, q);
        var l := s.proc[q].level;
        if l == 0 {
          BoostKeepsTop(s, i);
        } else {
          BoostMoves(s, l, i);
        }
      }
    }
  }

  lemma TickedKeeps(s: State, boost: bool)
    requires Inv(s) && s.cur < NPROC
    ensures var s' := Ticked(s, boost);
            Full(s') && s'.cur == s.cur && forall p :: p != s.cur ==> TicksOk(s', p)
  {
    hide Core, Boosted;
    CoreShape(s);
    var s1 := s.(proc := s.proc[s.cur := s.proc[s.cur].(ticks := s.proc[s.cur].ticks + 1)]);
    TickCore(s, s1);
    CoreShape(s1);
    forall q ensures QueuedOk(s1, q) { assert QueuedOk(s, q); }
    forall q | q != s.cur ensures TicksOk(s1, q) { assert TicksOk(s, q); }
    if boost {
      BoostKeeps(s1);
      BoostedIs(s1);
    }
  }

  lemma DemotedKeeps(s: State)
    requires Full(s) && s.cur < NPROC && forall p :: p != s.cur ==> TicksOk(s, p)
    ensures Inv(Demoted(s)) && Demoted(s).cur == s.cur
    ensures var l := s.proc[s.cur].level;
            var l' := if l + 1 > 3 then l else l + 1;
            Demoted(s).proc == s.proc[s.cur := s.proc[s.cur].(level := l', ticks := 0)]
  {
    var p := s.cur;
    assert ProcOk(s, p);
    var l := s.proc[p].level;
    var i := QueuedAt(s, p);
    DequeueKeeps(s, l, i);
    var s1, l' := Dequeued(s, p, l), if l + 1 > 3 then l else l + 1;
    EnqueueKeeps(s1, p, l');
    var s' := Demoted(s);
    forall q: nat ensures QueuedOk(s', q) {
      assert QueuedOk(s, q);
      if q < NPROC && q != p && Queueable(s.proc[q].state) { WithoutKeeps(s.queue[l], i, q); }
    }
    forall q ensures TicksOk(s', q) { assert q != p ==> TicksOk(s, q); }
  }

  lemma YieldedKeeps(s: State)
    requires Inv(s) && s.cur < NPROC
    ensures Inv(Yielded(s)) && Yielded(s).queue == s.queue && Yielded(s).cur == NPROC && Yielded(s).nextpid == s.nextpid
    ensures Yielded(s).proc == s.proc[s.cur := s.proc[s.cur].(state := RUNNABLE)]
  {
    assert ProcOk(s, s.cur);
    StateKeeps(s, Yielded(s), s.cur, RUNNABLE, NPROC);
  }

  /** A process moves between RUNNABLE and RUNNING. */
  lemma StateKeeps(s: State, s': State, p: nat, state: ProcState, cur: nat)
    requires Inv(s) && p < NPROC && s' == SetState(s, p, state).(cur := cur) && Queueable(s.proc[p].state)
    requires (state.RUNNABLE? && s.cur == p && cur == NPROC) || (state.RUNNING? && s.cur == NPROC && cur == p)
    ensures Inv(s')
  {
    forall q ensures ProcOk(s', q) { assert ProcOk(s, q) && ProcOk(s, p); }
    forall q, r ensures PidOk(s', q, r) { assert PidOk(s, q, r); }
    forall m, i ensures EntryOk(s', m, i) { assert EntryOk(s, m, i); }
    forall m, i, j ensures OnceOk(s', m, i, j) { assert OnceOk(s, m, i, j); }
    forall q ensures QueuedOk(s', q) { assert QueuedOk(s, q); }
    forall q ensures TicksOk(s', q) { assert TicksOk(s, q); }
  }

  lemma TickKeeps(s: State, boost: bool)
    requires Inv(s) && s.cur < NPROC
    ensures Inv(TickStep(s, boost))
  {
    hide Core, Ticked, Demoted, Yielded;
    TickedKeeps(s, boost);
    TickedSame(s, boost);
    var s1 := Ticked(s, boost);
    if Expired(s1) {
      DemotedKeeps(s1);
      YieldedKeeps(Demoted(s1));
    } else {
      assert Inv(s1) by {
        forall p ensures TicksOk(s1, p) { assert p != s1.cur ==> TicksOk(s1, p); }
      }
      YieldedKeeps(s1);
    }
  }

  /** Without the boost, a process whose time slice is not used up gives up the hart exactly when
      a better queue is not empty; one that has used it up does, and goes one level down. */
  lemma TickYields(s: State)
    requires Inv(s) && s.cur < NPROC
    ensures var s', p := TickStep(s, false), s.cur;
            var x := s.proc[p].(ticks := s.proc[p].ticks + 1);
            && s'.nextpid == s.nextpid && x.level < NQUEUE
            && (x.ticks < TimeSlice(x.level) ==>
                && s'.queue == s.queue
                && if exists i :: 0 <= i < x.level && s.queue[i] != [] then
                     s'.cur == NPROC && s'.proc == s.proc[p := x.(state := RUNNABLE)]
                   else s'.cur == p && s'.proc == s.proc[p := x])
            && (x.ticks >= TimeSlice(x.level) ==>
                var l := if x.level == 3 then 3 else x.level + 1;
                && s'.cur == NPROC && s'.proc == s.proc[p := x.(state := RUNNABLE, level := l, ticks := 0)]
                && Moved(s, s', p, x.level, l))
  {
    hide Core, Demoted;
    CoreShape(s);
    assert QueuedOk(s, s.cur);
    TickedKeeps(s, false);
    TickedSame(s, false);
    var s1 := Ticked(s, false);
    assert ProcOk(s, s.cur) by { CoreProc(s, s.cur); }
    if Expired(s1) {
      DemotedKeeps(s1);
      DemotedMoves(s1);
      YieldedKeeps(Demoted(s1));
    }
  }

  lemma CoreProc(s: State, p: nat)
    requires Core(s)
    ensures ProcOk(s, p)
  {
  }

  /** p left queue l and stands at the end of queue m, which may be the same. */
  ghost predicate Moved(s: State, s': State, p: nat, l: nat, m: nat) {
    && l < |s.queue| && m < |s.queue| && |s'.queue| == |s.queue|
    && exists i :: 0 <= i < |s.queue[l]| && s.queue[l][i] == p && s'.queue ==
        (var q := s.queue[l := Without(s.queue[l], i)]; q[m := q[m] + [p]])
  }

  lemma DemotedMoves(s: State)
    requires Full(s) && s.cur < NPROC
    ensures var l := s.proc[s.cur].level;
            && Moved(s, Demoted(s), s.cur, l, if l + 1 > 3 then l else l + 1) && Demoted(s).nextpid == s.nextpid
  {
    var p := s.cur;
    assert ProcOk(s, p);
    var l := s.proc[p].level;
    var i := QueuedAt(s, p);
    DequeueKeeps(s, l, i);
    PositionIs(s, l, i);
    EnqueueKeeps(Dequeued(s, p, l), p, if l + 1 > 3 then l else l + 1);
  }

  // ----- wakeup -----

  /** wakeup after looking at the first k processes. */
  ghost function WokenTo(s: State, chan: nat, k: nat): (s': State)
    requires Inv(s) && k <= NPROC
    ensures Inv(s')
  {
    if k == 0 then s else
      var s1, p := WokenTo(s, chan, k - 1), k - 1;
      if s1.proc[p].state.SLEEPING? && s1.proc[p].chan == chan then
        WokenKeeps(s1, p, true);
        Woken(s1, p, true)
      else s1
  }

  /** wakeup makes runnable exactly the processes asleep on chan, and they join their queues at
      the end. */
  lemma {:induction false} WokenToIs(s: State, chan: nat, k: nat)
    requires Inv(s) && k <= NPROC
    ensures var s' := WokenTo(s, chan, k);
            && s'.cur == s.cur && s'.nextpid == s.nextpid
            && (forall p :: 0 <= p < NPROC ==>
                s'.proc[p] == if p < k && s.proc[p].state.SLEEPING?
                  && s.proc[p].chan == chan then s.proc[p].(state := RUNNABLE) else s.proc[p])
            && (forall l :: 0 <= l < NQUEUE ==> s.queue[l] <= s'.queue[l])
  {
    hide Core, Woken;
    CoreShape(s);
    if k > 0 {
      WokenToIs(s, chan, k - 1);
      var s1 := WokenTo(s, chan, k - 1);
      CoreShape(s1);
      if s1.proc[k - 1].state.SLEEPING? && s1.proc[k - 1].chan == chan {
        WokenKeeps(s1, k - 1, true);
      }
    }
  }

  // ----- All steps -----

  ghost predicate Enabled(s: State, a: Action)
    requires Shape(s)
  {
    match a
    case Alloc(p) => p < NPROC && s.proc[p].state.UNUSED?
    case Start(p) => p < NPROC && s.proc[p].state.USED?
    case Free(p) => p < NPROC && (s.proc[p].state.USED? || s.proc[p].state.ZOMBIE?)
    case Schedule => s.cur == NPROC
    case Tick(_) => s.cur < NPROC
    case Yield => s.cur < NPROC
    case Sleep(_) => s.cur < NPROC
    case Wakeup(_) => true
    case Kill(pid) => pid > 0
    case Exit => s.cur < NPROC
  }

  ghost predicate HasPid(s: State, p: nat, pid: nat) {
    p < |s.proc| && s.proc[p].pid == pid
  }

  ghost function Do(s: State, a: Action): State
    requires Inv(s) && Enabled(s, a)
  {
    match a
    case Alloc(p) => s.(proc := s.proc[p := s.proc[p].(state := USED, pid := s.nextpid, ticks := 0)],
        nextpid := s.nextpid + 1)
    case Start(p) => Enqueued(SetState(s, p, RUNNABLE), p, 0)
    case Free(p) =>
      assert ProcOk(s, p);
      Dequeued(s.(proc := s.proc[p := s.proc[p].(state := UNUSED, pid := 0, chan := 0)]), p, s.proc[p].level)
    case Schedule =>
      var p := PickFrom(s, 0);
      if p < NPROC then SetState(s, p, RUNNING).(cur := p) else s
    case Tick(boost) => TickStep(s, boost)
    case Yield => Yielded(s)
    case Sleep(chan) => Left(s, SLEEPING, chan)
    case Wakeup(chan) => WokenTo(s, chan, NPROC)
    case Kill(pid) =>
      if exists p: nat :: HasPid(s, p, pid) && s.proc[p].state.SLEEPING? then
        var p: nat :| HasPid(s, p, pid) && s.proc[p].state.SLEEPING?;
        Woken(s, p, false)
      else s
    case Exit => Left(s, ZOMBIE, s.proc[s.cur].chan)
  }

  lemma AllocKeeps(s: State, p: nat)
    requires Inv(s) && Enabled(s, Alloc(p))
    ensures var s' := Do(s, Alloc(p));
            && Inv(s') && s'.queue == s.queue && s'.cur == s.cur
            && s'.proc == s.proc[p := s.proc[p].(state := USED, pid := s'.proc[p].pid, ticks := 0)]
            && forall q :: 0 <= q < NPROC ==> s.proc[q].pid < s'.proc[p].pid < s'.nextpid
  {
    var s' := Do(s, Alloc(p));
    forall q | 0 <= q < NPROC ensures s.proc[q].pid < s'.proc[p].pid { assert ProcOk(s, q); }
    forall m, i | 0 <= m < NQUEUE && 0 <= i < |s.queue[m]| ensures s.queue[m][i] != p { assert EntryOk(s, m, i); }
    forall q ensures ProcOk(s', q) { assert ProcOk(s, q); }
    forall q, r ensures PidOk(s', q, r) { assert PidOk(s, q, r) && ProcOk(s, q) && ProcOk(s, r); }
    forall m, i ensures EntryOk(s', m, i) { assert EntryOk(s, m, i); }
    forall m, i, j ensures OnceOk(s', m, i, j) { assert OnceOk(s, m, i, j); }
    forall q ensures QueuedOk(s', q) { assert QueuedOk(s, q); }
    forall q ensures TicksOk(s', q) { assert TicksOk(s, q); }
  }

  lemma StartKeeps(s: State, p: nat)
    requires Inv(s) && Enabled(s, Start(p))
    ensures Inv(Do(s, Start(p)))
    ensures Do(s, Start(p)).queue == s.queue[0 := s.queue[0] + [p]]
    ensures Do(s, Start(p)).cur == s.cur && Do(s, Start(p)).nextpid == s.nextpid
    ensures Do(s, Start(p)).proc == s.proc[p := s.proc[p].(state := RUNNABLE, level := 0, ticks := 0)]
  {
    var s1, s' := SetState(s, p, RUNNABLE), Do(s, Start(p));
    forall m, i | 0 <= m < NQUEUE && 0 <= i < |s.queue[m]| ensures s.queue[m][i] != p { assert EntryOk(s, m, i); }
    assert Core(s1) by {
      forall q ensures ProcOk(s1, q) { assert ProcOk(s, q); }
      forall q, r ensures PidOk(s1, q, r) { assert PidOk(s, q, r); }
      forall m, i ensures EntryOk(s1, m, i) { assert EntryOk(s, m, i); }
      forall m, i, j ensures OnceOk(s1, m, i, j) { assert OnceOk(s, m, i, j); }
    }
    EnqueueKeeps(s1, p, 0);
    forall q ensures QueuedOk(s', q) { assert QueuedOk(s, q); }
    forall q ensures TicksOk(s', q) { assert TicksOk(s, q); }
  }

  /** The dequeue in freeproc looks for pid 0, which is never queued. */
  lemma FreeKeeps(s: State, p: nat)
    requires Inv(s) && Enabled(s, Free(p))
    ensures var s' := Do(s, Free(p));
            && Inv(s') && s'.queue == s.queue && s'.cur == s.cur && s'.nextpid == s.nextpid
            && s'.proc == s.proc[p := s.proc[p].(state := UNUSED, pid := 0, chan := 0)]
  {
    var s1 := s.(proc := s.proc[p := s.proc[p].(state := UNUSED, pid := 0, chan := 0)]);
    var s', l := Do(s, Free(p)), s.proc[p].level;
    assert ProcOk(s, p);
    forall m, i | 0 <= m < NQUEUE && 0 <= i < |s.queue[m]| ensures s.queue[m][i] != p
      && s1.proc[s.queue[m][i]].pid != 0 {
      assert EntryOk(s, m, i) && ProcOk(s, s.queue[m][i]);
    }
    assert Position(s1.proc, s.queue[l], 0) == |s.queue[l]|;
    forall q ensures ProcOk(s', q) { assert ProcOk(s, q); }
    forall q, r ensures PidOk(s', q, r) { assert PidOk(s, q, r); }
    forall m, i ensures EntryOk(s', m, i) { assert EntryOk(s, m, i); }
    forall m, i, j ensures OnceOk(s', m, i, j) { assert OnceOk(s, m, i, j); }
    forall q ensures QueuedOk(s', q) { assert QueuedOk(s, q); }
    forall q ensures TicksOk(s', q) { assert TicksOk(s, q); }
  }

  /** kill of a sleeping process puts it at the end of its queue; any other kill changes nothing
      here. */
  lemma KillWakes(s: State, p: nat, pid: nat)
    requires Inv(s) && 0 < pid && p < NPROC && s.proc[p].pid == pid
    ensures var s', l := Do(s, Kill(pid)), s.proc[p].level;
            if s.proc[p].state.SLEEPING? then
              && l < NQUEUE && s'.queue == s.queue[l := s.queue[l] + [p]]
              && s'.proc == s.proc[p := s.proc[p].(state := RUNNABLE, ticks := 0)]
              && s'.cur == s.cur && s'.nextpid == s.nextpid
            else s' == s
  {
    hide Woken;
    if s.proc[p].state.SLEEPING? {
      WokenKeeps(s, p, false);
    }
    forall q: nat | HasPid(s, q, pid) && s.proc[q].state.SLEEPING? ensures q == p {
      assert PidOk(s, p, q);
    }
    assert s.proc[p].state.SLEEPING? ==> HasPid(s, p, pid);
  }

  /** No process has the pid. */
  lemma KillNobody(s: State, pid: nat)
    requires Inv(s) && 0 < pid && forall p :: 0 <= p < NPROC ==> s.proc[p].pid != pid
    ensures Do(s, Kill(pid)) == s
  {
  }

  lemma StepKeeps(s: State, a: Action)
    requires Inv(s) && Enabled(s, a)
    ensures Inv(Do(s, a))
  {
    match a
    case Alloc(p) => AllocKeeps(s, p);
    case Start(p) => StartKeeps(s, p);
    case Free(p) => FreeKeeps(s, p);
    case Schedule =>
      var p := PickFrom(s, 0);
      PickedFrom(s, 0);
      if p < NPROC { StateKeeps(s, Do(s, a), p, RUNNING, p); }
    case Tick(boost) => TickKeeps(s, boost);
    case Yield => YieldedKeeps(s);
    case Sleep(chan) => LeftKeeps(s, SLEEPING, chan);
    case Wakeup(chan) =>
    case Kill(pid) =>
      forall p: nat | HasPid(s, p, pid) && s.proc[p].state.SLEEPING? ensures Inv(Woken(s, p, false)) {
        WokenKeeps(s, p, false);
      }
    case Exit => LeftKeeps(s, ZOMBIE, s.proc[s.cur].chan);
  }

  /** What the steps of the process on the hart and wakeup do to processes, queues and the hart. */
  lemma StepDoes(s: State, a: Action)
    requires Inv(s) && Enabled(s, a)
    ensures var s' := Do(s, a);
            && (a.Yield? ==> s' == s.(proc := s.proc[s.cur := s.proc[s.cur].(state := RUNNABLE)], cur := NPROC))
            && (a.Sleep? || a.Exit? ==>
                var x := s.proc[s.cur];
                var y := if a.Sleep? then x.(state := SLEEPING, chan := a.chan) else x.(state := ZOMBIE);
                && s'.proc == s.proc[s.cur := y] && s'.cur == NPROC && s'.nextpid == s.nextpid
                && TookOut(s, s', x.level, s.cur))
            && (a.Wakeup? ==>
                && s'.cur == s.cur && s'.nextpid == s.nextpid
                && (forall p :: 0 <= p < NPROC ==>
                    s'.proc[p] == if s.proc[p].state.SLEEPING? && s.proc[p].chan == a.chan then
                      s.proc[p].(state := RUNNABLE) else s.proc[p])
                && forall l :: 0 <= l < NQUEUE ==> s.queue[l] <= s'.queue[l])
            && (a.Tick? ==> s' == TickStep(s, a.boost))
  {
    hide Left, WokenTo, TickStep;
    CoreShape(s);
    match a
    case Sleep(chan) => LeftKeeps(s, SLEEPING, chan);
    case Exit => LeftKeeps(s, ZOMBIE, s.proc[s.cur].chan);
    case Wakeup(chan) => WokenToIs(s, chan, NPROC);
    case _ =>
  }

  // ----- Every run -----

  /** After userinit: the first process is runnable and in queue 0. */
  ghost predicate Init(s: State) {
    && |s.proc| == NPROC && s.queue == [[0], [], [], []] && s.cur == NPROC && s.nextpid == 2
    && s.proc[0].state.RUNNABLE? && s.proc[0].pid == 1 && s.proc[0].level == 0 && s.proc[0].ticks == 0
    && forall p :: 0 < p < NPROC ==>
        s.proc[p].state.UNUSED? && s.proc[p].pid == 0 && s.proc[p].level == 0 && s.proc[p].ticks == 0
  }

  lemma InitInv(s: State)
    requires Init(s)
    ensures Inv(s)
  {
    assert Shape(s);
    forall p ensures QueuedOk(s, p) { assert 0 in s.queue[0]; }
  }

  ghost predicate CanRun(s: State, acts: seq<Action>)
    requires Inv(s)
    decreases |acts|
  {
    acts == [] || (Enabled(s, acts[0]) && (StepKeeps(s, acts[0]); CanRun(Do(s, acts[0]), acts[1..])))
  }

  /** Every run keeps the invariant. */
  ghost function Exec(s: State, acts: seq<Action>): (s': State)
    requires Inv(s) && CanRun(s, acts)
    ensures Inv(s')
    decreases |acts|
  {
    if acts == [] then s else
      StepKeeps(s, acts[0]);
      Exec(Do(s, acts[0]), acts[1..])
  }
}
