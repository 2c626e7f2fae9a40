/** What every step of the multi-level feedback queue keeps. */
module MlfqSafety {
  import opened Basics
  import opened MlfqModel

  /** A queued process is found where it is. */
  lemma PositionIs(s: State, l: nat, i: nat)
    requires Core(s) && l < NQUEUE && i < |s.queue[l]|
    ensures Position(s.proc, s.queue[l], s.proc[s.queue[l][i]].pid) == i
  {
    var k := Position(s.proc, s.queue[l], s.proc[s.queue[l][i]].pid);
    assert EntryOk(s, l, i) && ProcOk(s, s.queue[l][i]) && PidOk(s, s.queue[l][i], s.queue[l][k]);
    assert OnceOk(s, l, k, i);
  }

  lemma PositionNone(s: State, l: nat, p: nat)
    requires Core(s) && l < NQUEUE && p < NPROC && p !in s.queue[l] && s.proc[p].pid != 0
    ensures Position(s.proc, s.queue[l], s.proc[p].pid) == |s.queue[l]|
  {
    forall k | 0 <= k < |s.queue[l]| ensures s.proc[s.queue[l][k]].pid != s.proc[p].pid {
      assert PidOk(s, p, s.queue[l][k]);
    }
  }

  /** enqueue of a process that can run and is in no queue. */
  lemma EnqueueKeeps(s: State, p: nat, l: nat)
    requires Core(s) && p < NPROC && l < NQUEUE && Queueable(s.proc[p].state)
    requires forall m :: 0 <= m < NQUEUE ==> p !in s.queue[m]
    ensures Core(Enqueued(s, p, l)) && Enqueued(s, p, l).queue == s.queue[l := s.queue[l] + [p]]
    ensures Enqueued(s, p, l).proc == s.proc[p := s.proc[p].(level := l, ticks := 0)]
  {
    var s' := Enqueued(s, p, l);
    assert ProcOk(s, p);
    PositionNone(s, l, p);
    forall q ensures ProcOk(s', q) { assert ProcOk(s, q); }
    forall q, r ensures PidOk(s', q, r) { assert PidOk(s, q, r); }
    forall m, i ensures EntryOk(s', m, i) { assert EntryOk(s, m, i); }
    forall m, i, j ensures OnceOk(s', m, i, j) { assert OnceOk(s, m, i, j); }
  }

  /** dequeue of a queued process. */
  lemma DequeueKeeps(s: State, l: nat, i: nat)
    requires Core(s) && l < NQUEUE && i < |s.queue[l]|
    ensures var s' := Dequeued(s, s.queue[l][i], l);
            && Core(s') && s'.queue == s.queue[l := Without(s.queue[l], i)] && s'.proc == s.proc
            && forall m :: 0 <= m < NQUEUE ==> s.queue[l][i] !in s'.queue[m]
  {
    var p := s.queue[l][i];
    var s' := Dequeued(s, p, l);
    PositionIs(s, l, i);
    assert EntryOk(s, l, i);
    forall q ensures ProcOk(s', q) { assert ProcOk(s, q); }
    forall q, r ensures PidOk(s', q, r) { assert PidOk(s, q, r); }
    forall m: nat, k: nat ensures EntryOk(s', m, k) { assert EntryOk(s, m, k) && EntryOk(s, m, k + 1); }
    forall m: nat, k: nat, j: nat ensures OnceOk(s', m, k, j) {
      assert OnceOk(s, m, k, j) && OnceOk(s, m, k, j + 1) && OnceOk(s, m, k + 1, j + 1);
    }
    forall m: nat, k: nat | m < NQUEUE && k < |s'.queue[m]| ensures s'.queue[m][k] != p {
      assert EntryOk(s, m, k) && EntryOk(s, m, k + 1) && OnceOk(s, l, i, k + 1) && OnceOk(s, l, k, i);
    }
  }
}
