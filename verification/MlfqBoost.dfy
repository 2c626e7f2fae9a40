/** The priority boost: which processes it moves, and how long any process can wait for it. */
module MlfqBoost {
  import opened Basics
  import opened MlfqModel
  import opened MlfqSafety

  /** One round of the boost loop: the process at position j goes to the end of queue 0. */
  ghost function BoostOne(s: State, l: nat, j: nat): (s': State)
    requires Core(s) && 0 < l < NQUEUE && j < |s.queue[l]|
    ensures Core(s')
    ensures s'.queue == s.queue[l := Without(s.queue[l], j)][0 := s.queue[0] + [s.queue[l][j]]]
    ensures s'.proc == s.proc[s.queue[l][j] := s.proc[s.queue[l][j]].(level := 0, ticks := 0)] && s'.cur == s.cur
            && s'.nextpid == s.nextpid
  {
    var p := s.queue[l][j];
    assert EntryOk(s, l, j);
    DequeueKeeps(s, l, j);
    EnqueueKeeps(Dequeued(s, p, l), p, 0);
    Enqueued(Dequeued(s, p, s.proc[p].level), p, 0)
  }

  /** The boost loop over queue l from position j on. */
  ghost function BoostFrom(s: State, l: nat, j: nat): (s': State)
    requires Core(s) && 0 < l < NQUEUE
    ensures Core(s')
    decreases |s.queue[l]| - j
  {
    if j < |s.queue[l]| then BoostFrom(BoostOne(s, l, j), l, j + 1) else s
  }

  ghost function Boosted(s: State): (s': State)
    requires Core(s)
    ensures Core(s')
  {
    BoostFrom(BoostFrom(BoostFrom(s, 1, 0), 2, 0), 3, 0)
  }

  // ----- What the loop does -----

  function Evens(q: seq<nat>): seq<nat> {
    if |q| == 0 then [] else if |q| == 1 then [q[0]] else [q[0]] + Evens(q[2..])
  }

  function Odds(q: seq<nat>): seq<nat> {
    if |q| < 2 then [] else [q[1]] + Odds(q[2..])
  }

  lemma {:induction false} EvensAt(q: seq<nat>, i: nat)
    ensures |Evens(q)| == (|q| + 1) / 2 && (2 * i < |q| ==> Evens(q)[i] == q[2 * i])
  {
    if |q| > 1 {
      EvensAt(q[2..], if i > 0 then i - 1 else 0);
    }
  }

  lemma {:induction false} OddsAt(q: seq<nat>, i: nat)
    ensures |Odds(q)| == |q| / 2 && (2 * i + 1 < |q| ==> Odds(q)[i] == q[2 * i + 1])
  {
    if |q| > 1 {
      OddsAt(q[2..], if i > 0 then i - 1 else 0);
    }
  }

  /** Only processes whose level changed to 0 are different. */
  ghost predicate Lifted(s: State, s': State, moved: seq<nat>) {
    |s'.proc| == |s.proc| && s'.cur == s.cur && s'.nextpid == s.nextpid &&
    forall p :: 0 <= p < |s.proc| ==> s'.proc[p] == if p in moved then s.proc[p].(level := 0, ticks := 0) else s.proc[p]
  }

  lemma HalvesUnfold(r: seq<nat>)
    ensures |r| > 1 ==> Odds(r) == [r[1]] + Odds(r[2..]) && Evens(r) == [r[0]] + Evens(r[2..])
    ensures |r| == 1 ==> Odds(r) == [] && Evens(r) == [r[0]]
  {
  }

  /** The queue without its entry j, seen from the next position of the loop. */
  lemma HalvesStep(q: seq<nat>, j: nat)
    requires j < |q|
    ensures j + 1 < |q| ==> Without(q, j)[..j + 1] + Odds(Without(q, j)[j + 1..]) == q[..j] + Odds(q[j..])
    ensures j + 1 < |q| ==> [q[j]] + Evens(Without(q, j)[j + 1..]) == Evens(q[j..])
    ensures j + 1 == |q| ==> Without(q, j) == q[..j] + Odds(q[j..]) && Evens(q[j..]) == [q[j]]
  {
    hide Odds, Evens;
    var q1 := Without(q, j);
    HalvesUnfold(q[j..]);
    if j + 1 < |q| {
      assert q1[..j + 1] == q[..j] + [q[j + 1]];
      assert q1[j + 1..] == q[j..][2..];
    }
  }

  lemma LiftedThen(s0: State, s1: State, s2: State, a: seq<nat>, b: seq<nat>)
    requires Lifted(s0, s1, a) && Lifted(s1, s2, b)
    ensures Lifted(s0, s2, a + b)
  {
  }

  lemma {:induction false} BoostFromIs(s: State, l: nat, j: nat)
    requires Core(s) && 0 < l < NQUEUE && j <= |s.queue[l]|
    ensures BoostFrom(s, l, j).queue ==
            s.queue[l := s.queue[l][..j] + Odds(s.queue[l][j..])][0 := s.queue[0] + Evens(s.queue[l][j..])]
    ensures Lifted(s, BoostFrom(s, l, j), Evens(s.queue[l][j..]))
    decreases |s.queue[l]| - j
  {
    hide Core, BoostOne, Without, Lifted, Evens, Odds;
    CoreShape(s);
    var q := s.queue[l];
    if j < |q| {
      var s1 := BoostOne(s, l, j);
      LiftedOne(s, s1, q[j]);
      HalvesStep(q, j);
      WithoutSize(q, j);
      if j + 1 < |q| {
        CoreShape(s1);
        BoostFromIs(s1, l, j + 1);
        LiftedThen(s, s1, BoostFrom(s, l, j), [q[j]], Evens(Without(q, j)[j + 1..]));
        assert s.queue[0] + [q[j]] + Evens(Without(q, j)[j + 1..]) == s.queue[0] + Evens(q[j..]);
      }
    } else {
      NoHalves(q, j);
      LiftedNone(s);
      assert s.queue[l := q] == s.queue && s.queue[0] + [] == s.queue[0] && s.queue[0 := s.queue[0]] == s.queue;
    }
  }

  lemma CoreShape(s: State)
    requires Core(s)
    ensures Shape(s)
  {
  }

  lemma WithoutSize(q: seq<nat>, j: nat)
    requires j < |q|
    ensures |Without(q, j)| == |q| - 1
  {
  }

  lemma NoHalves(q: seq<nat>, j: nat)
    requires j == |q|
    ensures q[..j] + Odds(q[j..]) == q && Evens(q[j..]) == []
  {
  }

  lemma LiftedNone(s: State)
    ensures Lifted(s, s, [])
  {
  }

  lemma LiftedOne(s: State, s': State, p: nat)
    requires p < |s.proc| && s'.proc == s.proc[p := s.proc[p].(level := 0, ticks := 0)] && s'.cur == s.cur
             && s'.nextpid == s.nextpid
    ensures Lifted(s, s', [p])
  {
  }

  // ----- The whole boost -----

  lemma BoostLevelIs(s: State, l: nat)
    requires Core(s) && 0 < l < NQUEUE
    ensures BoostFrom(s, l, 0).queue == s.queue[l := Odds(s.queue[l])][0 := s.queue[0] + Evens(s.queue[l])]
    ensures Lifted(s, BoostFrom(s, l, 0), Evens(s.queue[l]))
  {
    hide Core, Evens, Odds, Lifted;
    CoreShape(s);
    BoostFromIs(s, l, 0);
    var q := s.queue[l];
    assert q[0..] == q && q[..0] + Odds(q) == Odds(q);
  }

  lemma BoostedIs(s: State)
    requires Core(s)
    ensures var q := s.queue;
            && Boosted(s).queue == [q[0] + Evens(q[1]) + Evens(q[2]) + Evens(q[3]), Odds(q[1]), Odds(q[2]), Odds(q[3])]
            && Lifted(s, Boosted(s), Evens(q[1]) + Evens(q[2]) + Evens(q[3]))
  {
    hide Core, Evens, Odds, Lifted, BoostFrom;
    var q := s.queue;
    CoreShape(s);
    var s1 := BoostFrom(s, 1, 0);
    BoostLevelIs(s, 1);
    var s2 := BoostFrom(s1, 2, 0);
    BoostLevelIs(s1, 2);
    BoostLevelIs(s2, 3);
    LiftedThen(s, s1, s2, Evens(q[1]), Evens(q[2]));
    LiftedThen(s, s2, Boosted(s), Evens(q[1]) + Evens(q[2]), Evens(q[3]));
  }

  lemma NotInEvens(q: seq<nat>, p: nat)
    requires forall k :: 0 <= k < |q| && k % 2 == 0 ==> q[k] != p
    ensures p !in Evens(q)
  {
    hide Evens;
    forall i | 0 <= i < |Evens(q)| ensures Evens(q)[i] != p {
      EvensAt(q, i);
    }
  }

  /** The boost takes exactly the processes at even positions of queues 1 to 3 to queue 0, and
      brings one at an odd position i to position (i - 1) / 2 of its queue. */
  lemma BoostMoves(s: State, l: nat, i: nat)
    requires Core(s) && 0 < l < NQUEUE && i < |s.queue[l]|
    ensures var p, s' := s.queue[l][i], Boosted(s);
            if i % 2 == 0 then p in s'.queue[0] && s'.proc[p] == s.proc[p].(level := 0, ticks := 0)
            else && |s'.queue| == NQUEUE && (i - 1) / 2 < |s'.queue[l]| && s'.queue[l][(i - 1) / 2] == p
                 && s'.proc[p] == s.proc[p]
  {
    hide Core, Evens, Odds, Boosted;
    CoreShape(s);
    var p := s.queue[l][i];
    BoostedIs(s);
    if i % 2 == 0 {
      EvensAt(s.queue[l], i / 2);
      assert p == Evens(s.queue[l])[i / 2];
    } else {
      OddsAt(s.queue[l], (i - 1) / 2);
      OddNotEven(s, l, i, 1);
      OddNotEven(s, l, i, 2);
      OddNotEven(s, l, i, 3);
    }
  }

  lemma OddNotEven(s: State, l: nat, i: nat, m: nat)
    requires Core(s) && 0 < l < NQUEUE && i < |s.queue[l]| && i % 2 == 1 && 0 < m < NQUEUE
    ensures s.queue[l][i] !in Evens(s.queue[m])
  {
    hide Evens;
    assert EntryOk(s, l, i);
    forall k: nat | k < |s.queue[m]| && k % 2 == 0 ensures s.queue[m][k] != s.queue[l][i] {
      assert EntryOk(s, m, k) && OnceOk(s, l, i, k) && OnceOk(s, l, k, i);
    }
    NotInEvens(s.queue[m], s.queue[l][i]);
  }

  /** Queue 0 only grows at its end, and nothing else changes there. */
  lemma BoostKeepsTop(s: State, i: nat)
    requires Core(s) && i < |s.queue[0]|
    ensures i < |Boosted(s).queue[0]| && Boosted(s).queue[0][i] == s.queue[0][i]
    ensures Boosted(s).proc[s.queue[0][i]] == s.proc[s.queue[0][i]]
  {
    hide Evens, Odds;
    BoostedIs(s);
    var p := s.queue[0][i];
    forall m: nat | 0 < m < NQUEUE ensures p !in Evens(s.queue[m]) {
      assert EntryOk(s, 0, i);
      forall k: nat | k < |s.queue[m]| ensures s.queue[m][k] != p { assert EntryOk(s, m, k); }
      NotInEvens(s.queue[m], p);
    }
  }
}
