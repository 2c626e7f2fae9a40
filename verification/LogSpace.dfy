/** Log space: begin_op's reservation of MAXOPBLOCKS blocks for each operation, and when it
    keeps log_write from panicking. */
module LogSpace {
  import opened Basics
  import opened LogMachine
  import opened Params

  ghost function Left(op: Op): nat {
    if op.used < MAXOPBLOCKS then MAXOPBLOCKS - op.used else 0
  }

  ghost function Reserved(ops: seq<Op>): nat {
    if ops == [] then 0 else Left(ops[0]) + Reserved(ops[1..])
  }

  /** An operation that adds an entry to the log still has part of its reservation. */
  ghost predicate WithinReservation(s: State, a: Action) {
    a.LogWrite? && a.i < |s.ops| && a.bno !in s.lh ==> s.ops[a.i].used < MAXOPBLOCKS
  }

  ghost predicate WellBehaved(lay: Layout, s: State, acts: seq<Action>)
    requires CanRun(lay, s, acts)
    decreases |acts|
  {
    acts != [] ==> WithinReservation(s, acts[0]) && WellBehaved(lay, Do(lay, s, acts[0]), acts[1..])
  }

  ghost predicate SpaceInv(s: State) {
    |s.lh| + Reserved(s.ops) <= LOGSIZE && (s.pc.Running? || s.ops == [])
  }

  lemma {:induction false} ReservedSplit(a: seq<Op>, b: seq<Op>)
    ensures Reserved(a + b) == Reserved(a) + Reserved(b)
  {
    if a == [] {
      assert a + b == b;
    } else {
      assert (a + b)[0] == a[0] && (a + b)[1..] == a[1..] + b;
      ReservedSplit(a[1..], b);
    }
  }

  lemma ReservedAt(ops: seq<Op>, i: nat)
    requires i < |ops|
    ensures Reserved(ops) == Reserved(ops[..i]) + Left(ops[i]) + Reserved(ops[i + 1..])
  {
    assert ops == ops[..i] + ([ops[i]] + ops[i + 1..]);
    ReservedSplit(ops[..i], [ops[i]] + ops[i + 1..]);
    ReservedSplit([ops[i]], ops[i + 1..]);
    assert [ops[i]][1..] == [];
  }

  lemma {:induction false} ReservedBound(ops: seq<Op>)
    ensures Reserved(ops) <= |ops| * MAXOPBLOCKS
  {
    if ops != [] { ReservedBound(ops[1..]); }
  }

  lemma StepKeepsSpace(lay: Layout, s: State, a: Action)
    requires SpaceInv(s) && Enabled(lay, s, a) && WithinReservation(s, a)
    ensures SpaceInv(Do(lay, s, a))
  {
    match a
    case BeginOp =>
      ReservedBound(s.ops + [Op(s.nextOp, 0)]);
    case LogWrite(i, b, data) =>
      if b !in s.lh {
        var op := s.ops[i].(used := s.ops[i].used + 1);
        var ops' := s.ops[i := op];
        ReservedAt(s.ops, i);
        ReservedAt(ops', i);
        assert ops'[..i] == s.ops[..i] && ops'[i + 1..] == s.ops[i + 1..];
      }
    case EndOp(i) =>
      ReservedAt(s.ops, i);
      ReservedSplit(s.ops[..i], s.ops[i + 1..]);
    case _ =>
  }

  /** In every run within the reservations, the logged blocks and all the reservations not
      yet used fit in the log together. */
  lemma {:induction false} ReservationHolds(lay: Layout, s: State, acts: seq<Action>)
    requires SpaceInv(s) && CanRun(lay, s, acts) && WellBehaved(lay, s, acts)
    ensures SpaceInv(Exec(lay, s, acts))
    decreases |acts|
  {
    if acts != [] {
      StepKeepsSpace(lay, s, acts[0]);
      ReservationHolds(lay, Do(lay, s, acts[0]), acts[1..]);
    }
  }

  /** log_write by an operation with reservation left does not panic. */
  ghost predicate NeverFull(lay: Layout, s: State) {
    s.pc.Running? ==> forall i :: 0 <= i < |s.ops| && s.ops[i].used < MAXOPBLOCKS ==> !LogFull(lay, s.lh)
  }

  lemma NoPanic(lay: Layout, s0: State, acts: seq<Action>)
    requires Init(lay, s0) && CanRun(lay, s0, acts) && WellBehaved(lay, s0, acts)
    requires lay.size > LOGSIZE
    ensures NeverFull(lay, Exec(lay, s0, acts))
  {
    ReservationHolds(lay, s0, acts);
    var s := Exec(lay, s0, acts);
    forall i | 0 <= i < |s.ops| && s.ops[i].used < MAXOPBLOCKS ensures !LogFull(lay, s.lh) {
      ReservedAt(s.ops, i);
    }
  }

  // ----- A run that fills the log -----

  const Zero: Block := seq(BLOCK_WORDS, _ => 0)

  /** Entries of operation j once m blocks were logged, ten by each operation in turn. */
  ghost function UsedBy(j: nat, m: nat): nat {
    if m <= j * MAXOPBLOCKS then 0 else if m < (j + 1) * MAXOPBLOCKS then m - j * MAXOPBLOCKS else MAXOPBLOCKS
  }

  ghost predicate Filled(lay: Layout, s: State, m: nat) {
    && s.pc.Running? && |s.ops| == 3 && |s.lh| == m
    && (forall j :: 0 <= j < 3 ==> s.ops[j].used == UsedBy(j, m))
    && (forall k :: 0 <= k < m ==> s.lh[k] == lay.start + lay.size + k)
  }

  ghost predicate HasRoom(lay: Layout) {
    lay.Valid() && lay.start + lay.size + LOGSIZE <= lay.blocks
  }

  /** Three operations start, then m blocks are logged. */
  lemma {:induction false} FillRun(lay: Layout, s0: State, m: nat) returns (acts: seq<Action>)
    requires Init(lay, s0) && HasRoom(lay) && m <= LOGSIZE && m <= lay.size - 1
    ensures CanRun(lay, s0, acts) && WellBehaved(lay, s0, acts) && Filled(lay, Exec(lay, s0, acts), m)
  {
    if m == 0 {
      acts := [BeginOp, BeginOp, BeginOp];
      var s1 := Do(lay, s0, BeginOp);
      var s2 := Do(lay, s1, BeginOp);
      var s3 := Do(lay, s2, BeginOp);
      assert acts[1..] == [BeginOp, BeginOp] && [BeginOp, BeginOp][1..] == [BeginOp] && [BeginOp][1..] == [];
      assert CanRun(lay, s2, [BeginOp]) && Exec(lay, s2, [BeginOp]) == s3;
      assert CanRun(lay, s1, [BeginOp, BeginOp]) && Exec(lay, s1, [BeginOp, BeginOp]) == s3;
    } else {
      var prior := FillRun(lay, s0, m - 1);
      var s := Exec(lay, s0, prior);
      var a := LogWrite((m - 1) / MAXOPBLOCKS, lay.start + lay.size + m - 1, Zero);
      assert a.bno !in s.lh && lay.Home(a.bno);
      acts := prior + [a];
      RunSnocWithin(lay, s0, prior, a);
    }
  }

  lemma {:induction false} RunSnocWithin(lay: Layout, s: State, acts: seq<Action>, a: Action)
    requires CanRun(lay, s, acts) && WellBehaved(lay, s, acts)
    requires Enabled(lay, Exec(lay, s, acts), a) && WithinReservation(Exec(lay, s, acts), a)
    ensures CanRun(lay, s, acts + [a]) && WellBehaved(lay, s, acts + [a])
    ensures Exec(lay, s, acts + [a]) == Do(lay, Exec(lay, s, acts), a)
    decreases |acts|
  {
    if acts == [] {
      assert acts + [a] == [a] && [a][1..] == [];
    } else {
      assert (acts + [a])[0] == acts[0] && (acts + [a])[1..] == acts[1..] + [a];
      RunSnocWithin(lay, Do(lay, s, acts[0]), acts[1..], a);
    }
  }

  ghost predicate NeverPanics(lay: Layout, s0: State) {
    forall acts :: CanRun(lay, s0, acts) && WellBehaved(lay, s0, acts) ==> NeverFull(lay, Exec(lay, s0, acts))
  }

  /** A log no larger than LOGSIZE, which is what mkfs makes, can panic. */
  lemma SmallLogPanics(lay: Layout, s0: State)
    requires Init(lay, s0) && HasRoom(lay) && lay.size <= LOGSIZE
    ensures !NeverPanics(lay, s0)
  {
    var m := lay.size - 1;
    var acts := FillRun(lay, s0, m);
    var s := Exec(lay, s0, acts);
    assert s.ops[m / MAXOPBLOCKS].used < MAXOPBLOCKS;
    assert !NeverFull(lay, s);
  }

  /** The reservation suffices exactly when the log has more blocks than LOGSIZE. */
  lemma PanicFreeIffLargeLog(lay: Layout, s0: State)
    requires Init(lay, s0) && HasRoom(lay)
    ensures NeverPanics(lay, s0) <==> lay.size > LOGSIZE
  {
    if lay.size > LOGSIZE {
      forall acts | CanRun(lay, s0, acts) && WellBehaved(lay, s0, acts)
        ensures NeverFull(lay, Exec(lay, s0, acts))
      {
        NoPanic(lay, s0, acts);
      }
    } else {
      SmallLogPanics(lay, s0);
    }
  }

  ghost predicate NoneOver(s: State) {
    forall i :: 0 <= i < |s.ops| ==> s.ops[i].used <= MAXOPBLOCKS
  }

  /** No operation of a well-behaved run uses more than its reservation. */
  lemma {:induction false} UsedBound(lay: Layout, s: State, acts: seq<Action>)
    requires CanRun(lay, s, acts) && WellBehaved(lay, s, acts) && NoneOver(s)
    ensures NoneOver(Exec(lay, s, acts))
    decreases |acts|
  {
    if acts != [] {
      assert NoneOver(Do(lay, s, acts[0]));
      UsedBound(lay, Do(lay, s, acts[0]), acts[1..]);
    }
  }

  /** After a well-behaved run, log_write by operation i, which has added k entries, of a block
      that is already logged panics. */
  ghost predicate PanicsOnLogged(lay: Layout, s0: State, acts: seq<Action>, i: nat, bno: nat, k: nat) {
    && CanRun(lay, s0, acts) && WellBehaved(lay, s0, acts)
    && var s := Exec(lay, s0, acts);
       s.pc.Running? && i < |s.ops| && s.ops[i].used == k && bno in s.lh && LogFull(lay, s.lh)
  }

  /** The size check comes before the search for an old entry, so even in a large log a write
      that would add no entry can panic, and this threatens exactly the operations that have
      used up their reservations. */
  lemma AbsorbedPanicsIff(lay: Layout, s0: State, k: nat)
    requires Init(lay, s0) && HasRoom(lay) && lay.size > LOGSIZE
    ensures (exists acts, i: nat, bno: nat :: PanicsOnLogged(lay, s0, acts, i, bno, k)) <==> k == MAXOPBLOCKS
  {
    if k == MAXOPBLOCKS {
      var acts := FillRun(lay, s0, LOGSIZE);
      assert Exec(lay, s0, acts).lh[0] == lay.start + lay.size;
      assert PanicsOnLogged(lay, s0, acts, 0, lay.start + lay.size, k);
    } else {
      forall acts, i: nat, bno: nat ensures !PanicsOnLogged(lay, s0, acts, i, bno, k) {
        if PanicsOnLogged(lay, s0, acts, i, bno, k) {
          UsedBound(lay, s0, acts);
          NoPanic(lay, s0, acts);
        }
      }
    }
  }

  // ----- What keeps an operation within its reservation -----

  /** The blocks that an operation has logged since the last commit. */
  ghost function BlocksOf(es: seq<Event>, op: nat): set<nat> {
    set i | 0 <= i < |es| && es[i].Write? && es[i].op == op :: es[i].bno
  }

  /** An operation has added at most one entry for each block that it has logged, and what was
      logged since the last commit is in the header. */
  ghost predicate EntriesOk(s: State) {
    && (forall i :: 0 <= i < |s.ops| ==> s.ops[i].used <= |BlocksOf(s.group, s.ops[i].id)| && s.ops[i].id < s.nextOp)
    && (forall i, j :: 0 <= i < j < |s.ops| ==> s.ops[i].id != s.ops[j].id)
    && (s.pc.Running? ==> forall k :: 0 <= k < |s.group| && s.group[k].Write? ==> s.group[k].bno in s.lh)
    && (s.pc.Running? || s.ops == []) && (s.pc.Running? || s.pc.WritingLog? || s.group == [])
  }

  lemma BlocksSnoc(es: seq<Event>, e: Event, op: nat)
    ensures BlocksOf(es + [e], op) == BlocksOf(es, op) + if e.Write? && e.op == op then {e.bno} else {}
  {
    var es' := es + [e];
    forall b ensures b in BlocksOf(es', op) <==> b in BlocksOf(es, op) || (e.Write? && e.op == op && b == e.bno) {
      if b in BlocksOf(es, op) {
        var i :| 0 <= i < |es| && es[i].Write? && es[i].op == op && es[i].bno == b;
        assert es'[i] == es[i];
      }
      assert es'[|es|] == e;
    }
  }

  /** A step that adds an event which logs nothing, and leaves no more operations open than
      there were. */
  lemma EventKeepsEntries(s: State, e: Event, ops: seq<Op>)
    requires EntriesOk(s) && s.pc.Running? && !e.Write?
    requires forall i :: 0 <= i < |ops| ==> ops[i] in s.ops || ops[i] == Op(s.nextOp, 0)
    requires forall i, j :: 0 <= i < j < |ops| ==> ops[i].id != ops[j].id
    ensures EntriesOk(s.(ops := ops, group := s.group + [e], nextOp := s.nextOp + 1))
    ensures (forall i :: 0 <= i < |ops| ==> ops[i] in s.ops) ==> EntriesOk(s.(ops := ops, group := s.group + [e]))
  {
    hide BlocksOf;
    forall i | 0 <= i < |ops| ensures ops[i].used <= |BlocksOf(s.group + [e], ops[i].id)| {
      BlocksSnoc(s.group, e, ops[i].id);
    }
  }

  lemma WriteKeepsEntries(lay: Layout, s: State, i: nat, b: nat, data: Block)
    requires EntriesOk(s) && Enabled(lay, s, LogWrite(i, b, data))
    ensures EntriesOk(Do(lay, s, LogWrite(i, b, data)))
  {
    hide BlocksOf;
    var s', e := Do(lay, s, LogWrite(i, b, data)), Write(s.ops[i].id, b, data);
    forall j | 0 <= j < |s'.ops| ensures s'.ops[j].used <= |BlocksOf(s'.group, s'.ops[j].id)| {
      BlocksSnoc(s.group, e, s.ops[j].id);
      if b !in s.lh { NotYetLogged(s, b, s.ops[i].id); }
    }
  }

  lemma StepKeepsEntries(lay: Layout, s: State, a: Action)
    requires EntriesOk(s) && Enabled(lay, s, a)
    ensures EntriesOk(Do(lay, s, a))
  {
    hide BlocksOf, LogFull, CanInstall;
    match a
    case BeginOp => EventKeepsEntries(s, Begin(s.nextOp), s.ops + [Op(s.nextOp, 0)]);
    case LogWrite(i, b, data) => WriteKeepsEntries(lay, s, i, b, data);
    case EndOp(i) =>
      var ops := Without(s.ops, i);
      assert forall j :: 0 <= j < |ops| ==> ops[j] == s.ops[if j < i then j else j + 1];
      EventKeepsEntries(s, End(s.ops[i].id), ops);
    case _ =>
  }

  lemma {:induction false} RunKeepsEntries(lay: Layout, s: State, acts: seq<Action>)
    requires EntriesOk(s) && CanRun(lay, s, acts)
    ensures EntriesOk(Exec(lay, s, acts))
    decreases |acts|
  {
    if acts != [] {
      StepKeepsEntries(lay, s, acts[0]);
      RunKeepsEntries(lay, Do(lay, s, acts[0]), acts[1..]);
    }
  }

  lemma NotYetLogged(s: State, b: nat, op: nat)
    requires EntriesOk(s) && s.pc.Running? && b !in s.lh
    ensures b !in BlocksOf(s.group, op)
  {
  }

  /** Every operation of the run logs at most MAXOPBLOCKS different blocks. */
  ghost predicate FewBlocks(lay: Layout, s: State, acts: seq<Action>)
    requires CanRun(lay, s, acts)
    decreases |acts|
  {
    acts != [] ==>
      && (acts[0].LogWrite? ==> var op := s.ops[acts[0].i].id; |BlocksOf(Do(lay, s, acts[0]).group, op)| <= MAXOPBLOCKS)
      && FewBlocks(lay, Do(lay, s, acts[0]), acts[1..])
  }

  /** Operations that log few enough blocks, as the chunks of filewrite() do, keep within their
      reservations, however often they log them and whoever logged them before. */
  lemma {:induction false} FewBlocksSuffice(lay: Layout, s: State, acts: seq<Action>)
    requires EntriesOk(s) && CanRun(lay, s, acts) && FewBlocks(lay, s, acts)
    ensures WellBehaved(lay, s, acts)
    decreases |acts|
  {
    if acts != [] {
      var a := acts[0];
      if a.LogWrite? && a.bno !in s.lh {
        NotYetLogged(s, a.bno, s.ops[a.i].id);
        BlocksSnoc(s.group, Write(s.ops[a.i].id, a.bno, a.data), s.ops[a.i].id);
      }
      StepKeepsEntries(lay, s, a);
      FewBlocksSuffice(lay, Do(lay, s, a), acts[1..]);
    }
  }

  /** So in a log larger than LOGSIZE none of them panics when it logs a block that is new to
      the log. */
  lemma FewBlocksNoPanic(lay: Layout, s0: State, acts: seq<Action>, i: nat, bno: nat)
    requires Init(lay, s0) && CanRun(lay, s0, acts) && FewBlocks(lay, s0, acts) && lay.size > LOGSIZE
    requires var s := Exec(lay, s0, acts);
             s.pc.Running? && i < |s.ops| && bno !in s.lh && |BlocksOf(s.group, s.ops[i].id) + {bno}| <= MAXOPBLOCKS
    ensures !LogFull(lay, Exec(lay, s0, acts).lh)
  {
    FewBlocksSuffice(lay, s0, acts);
    NoPanic(lay, s0, acts);
    RunKeepsEntries(lay, s0, acts);
    NotYetLogged(Exec(lay, s0, acts), bno, Exec(lay, s0, acts).ops[i].id);
  }
}
