/** How long a process below the top queue can go without being boosted. */
module MlfqStarvation {
  import opened Basics
  import opened MlfqModel
  import opened MlfqSafety
  import opened MlfqBoost
  import opened MlfqRun

  ghost predicate At(s: State, x: nat, l: nat, i: nat) {
    l < |s.queue| && i < |s.queue[l]| && s.queue[l][i] == x
  }

  /** x is in queue l, no further back than position i. */
  ghost predicate Within(s: State, x: nat, l: nat, i: nat) {
    exists j: nat :: j <= i && At(s, x, l, j)
  }

  ghost predicate AtTop(s: State, x: nat) {
    |s.queue| > 0 && x in s.queue[0]
  }

  /** The step does not put x to sleep, end it, or demote it. */
  ghost predicate Spares(s: State, a: Action, x: nat)
    requires Inv(s) && Enabled(s, a)
  {
    match a
    case Sleep(_) => s.cur != x
    case Exit => s.cur != x
    case Tick(boost) => TickedSame(s, boost); !(s.cur == x && Expired(Ticked(s, boost)))
    case _ => true
  }

  lemma LeftSpares(s: State, state: ProcState, chan: nat, x: nat, l: nat, i: nat)
    requires Inv(s) && s.cur < NPROC && (state.SLEEPING? || state.ZOMBIE?) && At(s, x, l, i) && s.cur != x
    ensures Within(Left(s, state, chan), x, l, i)
  {
    hide Core, Left;
    CoreShape(s);
    LeftKeeps(s, state, chan);
    var m, s' := s.proc[s.cur].level, Left(s, state, chan);
    var k :| 0 <= k < |s.queue[m]| && s.queue[m][k] == s.cur && s'.queue == s.queue[m := Without(s.queue[m], k)];
    var j := if m == l && k < i then i - 1 else i;
    assert At(s', x, l, j);
  }

  lemma DemotedSpares(s: State, x: nat, l: nat, i: nat)
    requires Full(s) && s.cur < NPROC && s.cur != x && At(s, x, l, i) && forall p :: p != s.cur ==> TicksOk(s, p)
    ensures Within(Demoted(s), x, l, i)
  {
    var p := s.cur;
    assert ProcOk(s, p);
    var m := s.proc[p].level;
    var k := QueuedAt(s, p);
    DequeueKeeps(s, m, k);
    var s1, m' := Dequeued(s, p, m), if m + 1 > 3 then m else m + 1;
    EnqueueKeeps(s1, p, m');
    var j := if m == l && k < i then i - 1 else i;
    assert At(s1, x, l, j);
    assert At(Demoted(s), x, l, j);
  }

  /** A timer tick. */
  lemma TickSpares(s: State, boost: bool, x: nat, l: nat, i: nat)
    requires Inv(s) && s.cur < NPROC && At(s, x, l, i) && 0 < l < NQUEUE
    requires Ticked(s, boost).cur == s.cur && |Ticked(s, boost).proc| == NPROC
             && !(s.cur == x && Expired(Ticked(s, boost)))
    ensures var s' := TickStep(s, boost);
            AtTop(s', x) || Within(s', x, l, if boost then if i % 2 == 0 then 0 else (i - 1) / 2 else i)
    ensures boost && i % 2 == 0 ==> AtTop(TickStep(s, boost), x)
  {
    hide Core, Ticked, Demoted, Boosted;
    var s1 := Ticked(s, boost);
    TickedKeeps(s, boost);
    var m, j := TickedWhere(s, boost, x, l, i);
    if Expired(s1) {
      DemotedSpares(s1, x, m, j);
      DemotedKeeps(s1);
      var k: nat :| k <= j && At(Demoted(s1), x, m, k);
      assert At(TickStep(s, boost), x, m, k);
    } else {
      assert At(TickStep(s, boost), x, m, j);
    }
  }

  lemma TickedWhere(s: State, boost: bool, x: nat, l: nat, i: nat) returns (m: nat, j: nat)
    requires Inv(s) && s.cur < NPROC && At(s, x, l, i) && 0 < l < NQUEUE
    ensures At(Ticked(s, boost), x, m, j)
    ensures if boost && i % 2 == 0 then m == 0 else m == l && j == if boost then (i - 1) / 2 else i
  {
    hide Core, Boosted;
    CoreShape(s);
    var s1 := s.(proc := s.proc[s.cur := s.proc[s.cur].(ticks := s.proc[s.cur].ticks + 1)]);
    TickCore(s, s1);
    m, j := l, i;
    if boost {
      BoostMoves(s1, l, i);
      BoostedIs(s1);
      if i % 2 == 0 {
        m := 0;
        j :| 0 <= j < |Boosted(s1).queue[0]| && Boosted(s1).queue[0][j] == x;
      } else {
        j := (i - 1) / 2;
      }
    }
  }

  /** Every step that spares x leaves it at most as far back, and a boost halves its distance
      or takes it to the top. */
  lemma StepSpares(s: State, a: Action, x: nat, l: nat, i: nat)
    requires Inv(s) && Enabled(s, a) && Spares(s, a, x) && At(s, x, l, i) && 0 < l < NQUEUE
    ensures var s' := Do(s, a);
            AtTop(s', x) || Within(s', x, l, if a == Tick(true) then if i % 2 == 0 then 0 else (i - 1) / 2 else i)
    ensures a == Tick(true) && i % 2 == 0 ==> AtTop(Do(s, a), x)
  {
    hide Core, Boosted, Ticked;
    var s' := Do(s, a);
    match a
    case Sleep(chan) => LeftSpares(s, SLEEPING, chan, x, l, i);
    case Exit => CoreShape(s); LeftSpares(s, ZOMBIE, s.proc[s.cur].chan, x, l, i);
    case Tick(boost) => TickedSame(s, boost); TickSpares(s, boost, x, l, i);
    case Start(p) => StartKeeps(s, p); assert At(s', x, l, i);
    case Free(p) => FreeKeeps(s, p); assert At(s', x, l, i);
    case Wakeup(chan) => CoreShape(s); CoreShape(s'); WokenToIs(s, chan, NPROC); assert s.queue[l] <= s'.queue[l];
      assert At(s', x, l, i);
    case Kill(pid) => KillSpares(s, pid, x, l, i);
    case Alloc(_) => assert At(s', x, l, i);
    case Schedule => assert At(s', x, l, i);
    case Yield => assert At(s', x, l, i);
  }

  lemma KillSpares(s: State, pid: nat, x: nat, l: nat, i: nat)
    requires Inv(s) && Enabled(s, Kill(pid)) && At(s, x, l, i)
    ensures Within(Do(s, Kill(pid)), x, l, i)
  {
    forall p: nat | HasPid(s, p, pid) && s.proc[p].state.SLEEPING? ensures At(Woken(s, p, false), x, l, i) {
      WokenKeeps(s, p, false);
    }
    assert At(Do(s, Kill(pid)), x, l, i);
  }

  // ----- Runs -----

  function Boosts(acts: seq<Action>): nat {
    if acts == [] then 0 else (if acts[0] == Tick(true) then 1 else 0) + Boosts(acts[1..])
  }

  /** A run from s in which x is never put to sleep, ended or demoted. */
  ghost predicate SparedRun(s: State, acts: seq<Action>, x: nat)
    requires Inv(s)
    decreases |acts|
  {
    acts == [] || (Enabled(s, acts[0]) && Spares(s, acts[0], x)
      && (StepKeeps(s, acts[0]); SparedRun(Do(s, acts[0]), acts[1..], x)))
  }

  /** x is in the top queue at some point of the run. */
  ghost predicate GetsToTop(s: State, acts: seq<Action>, x: nat)
    requires Inv(s) && SparedRun(s, acts, x)
    decreases |acts|
  {
    AtTop(s, x) || (acts != [] && (StepKeeps(s, acts[0]); GetsToTop(Do(s, acts[0]), acts[1..], x)))
  }

  lemma {:induction false} BoostBound(s: State, acts: seq<Action>, x: nat, l: nat, i: nat, k: nat)
    requires Inv(s) && SparedRun(s, acts, x) && At(s, x, l, i) && 0 < l < NQUEUE && i < Pow2(k) && Boosts(acts) > k
    ensures GetsToTop(s, acts, x)
    decreases |acts|
  {
    hide Inv, Do, Enabled, Spares, AtTop;
    var a := acts[0];
    StepKeeps(s, a);
    StepSpares(s, a, x, l, i);
    var s' := Do(s, a);
    if !AtTop(s', x) {
      var j: nat :| j <= (if a == Tick(true) then if i % 2 == 0 then 0 else (i - 1) / 2 else i) && At(s', x, l, j);
      BoostBound(s', acts[1..], x, l, j, if a == Tick(true) then k - 1 else k);
    }
  }

  lemma {:induction false} DistinctBound(q: seq<nat>, n: nat)
    requires (forall i :: 0 <= i < |q| ==> q[i] < n) && forall i, j :: 0 <= i < j < |q| ==> q[i] != q[j]
    ensures |q| <= n
    decreases n
  {
    if |q| > 0 {
      assert q[0] < n;
      if n - 1 in q {
        var k :| 0 <= k < |q| && q[k] == n - 1;
        DistinctBound(Without(q, k), n - 1);
      } else {
        DistinctBound(q, n - 1);
      }
    }
  }

  /** No queue outgrows its array. */
  lemma QueueBound(s: State, l: nat)
    requires Inv(s) && l < NQUEUE
    ensures |s.queue[l]| <= NPROC
  {
    forall i: nat, j: nat | i < j < |s.queue[l]| ensures s.queue[l][i] != s.queue[l][j] { assert OnceOk(s, l, i, j); }
    DistinctBound(s.queue[l], NPROC);
  }

  /** A process below the top queue gets there within seven boosts unless it is put to sleep,
      ended or demoted meanwhile. */
  lemma SevenBoosts(s: State, acts: seq<Action>, x: nat)
    requires Inv(s) && x < NPROC && Queueable(s.proc[x].state) && SparedRun(s, acts, x) && Boosts(acts) >= 7
    ensures GetsToTop(s, acts, x)
  {
    hide Core, SparedRun, Boosts;
    CoreShape(s);
    var i := QueuedAt(s, x);
    var l := s.proc[x].level;
    if l == 0 {
      assert AtTop(s, x);
    } else {
      QueueBound(s, l);
      assert Pow2(6) == 64;
      BoostBound(s, acts, x, l, i, 6);
    }
  }
}
