/** Crash safety of the log: whatever the interleaving of operations, and wherever the
    machine crashes, including during recovery, a completed recovery leaves exactly the
    whole groups committed before. */
module LogCrashSafety {
  import opened Basics
  import opened LogMachine

  ghost predicate Distinct(h: seq<nat>) {
    forall i, j :: 0 <= i < j < |h| ==> h[i] != h[j]
  }

  /** A header in use: home blocks, no repeats, each with a slot inside the log. */
  ghost predicate GoodList(lay: Layout, h: seq<nat>) {
    |h| <= LOGSIZE && |h| < lay.size && Distinct(h) && forall i :: 0 <= i < |h| ==> lay.Home(h[i])
  }

  ghost predicate GoodDisk(lay: Layout, d: Disk) {
    |d| == lay.blocks && lay.Valid() && HeaderOk(lay, d[lay.start]) && GoodList(lay, Header(lay, d[lay.start]))
  }

  /** Slot by slot, the log holds the contents `e` gives to the blocks named in `h`. */
  ghost predicate Logged(lay: Layout, d: Disk, h: seq<nat>, upto: nat, e: Disk)
    requires |d| == |e| == lay.blocks && lay.Valid() && GoodList(lay, h) && upto <= |h|
  {
    forall i :: 0 <= i < upto ==> d[lay.Slot(i)] == e[h[i]]
  }

  /** Home blocks agree with `e` except those the header names, whose contents are in the log:
      this is what recovery needs of a disk image in order to produce `e`. */
  ghost predicate Replays(lay: Layout, d: Disk, e: Disk) {
    GoodDisk(lay, d) && |e| == lay.blocks &&
    var h := Header(lay, d[lay.start]);
    Logged(lay, d, h, |h|, e) &&
    forall b :: lay.Home(b) && b !in h ==> d[b] == e[b]
  }

  ghost function Ids(ops: seq<Op>): seq<nat> {
    seq(|ops|, i requires 0 <= i < |ops| => ops[i].id)
  }

  /** The committed contents of the disk, and the contents a reader of the cache sees. */
  ghost function Committed(base: Disk, s: State): Disk {
    AfterAll(base, s.groups)
  }

  ghost function Current(base: Disk, s: State): Disk {
    After(Committed(base, s), s.group)
  }

  ghost predicate History(s: State) {
    && (forall g :: g in s.groups ==> Whole(g))
    && Bracketed(s.group) && OpenOps(s.group) == Ids(s.ops) && Distinct(Ids(s.ops))
    && (forall i :: 0 <= i < |s.ops| ==> s.ops[i].id < s.nextOp)
  }

  ghost predicate EmptyHeader(lay: Layout, d: Disk) {
    GoodDisk(lay, d) && Header(lay, d[lay.start]) == []
  }

  /** What holds of the volatile state at each point of the program. */
  ghost predicate PcInv(lay: Layout, base: Disk, s: State)
    requires GoodDisk(lay, s.disk) && GoodList(lay, s.lh) && |base| == lay.blocks
  {
    match s.pc
    case Running => EmptyHeader(lay, s.disk) && Buffered(s)
    case WritingLog(t) =>
      && EmptyHeader(lay, s.disk) && s.ops == [] && t <= |s.lh| && Buffered(s)
      && Logged(lay, s.disk, s.lh, t, Current(base, s))
    case Installing(t, _) =>
      && s.ops == [] && s.group == [] && t <= |s.lh| && Header(lay, s.disk[lay.start]) == s.lh
      && (forall b :: b in s.pinned ==> b in s.lh[t..])
      && (forall i :: 0 <= i < t ==> s.disk[s.lh[i]] == Committed(base, s)[s.lh[i]])
    case Finishing => EmptyHeader(lay, s.disk) && s.lh == [] && s.pinned == map[] && s.ops == [] && s.group == []
    case Down => s.lh == [] && s.pinned == map[] && s.ops == [] && s.group == []
  }

  /** Exactly the logged blocks are pinned. */
  ghost predicate Buffered(s: State) {
    forall b :: b in s.pinned <==> b in s.lh
  }

  /** The pinned copies are newer than the disk and hold what the events say. */
  ghost predicate CacheInv(lay: Layout, base: Disk, s: State)
    requires |s.disk| == |base| == lay.blocks
  {
    s.pc.Running? || s.pc.WritingLog? ==>
      forall b :: lay.Home(b) ==>
        Current(base, s)[b] == if b in s.pinned then s.pinned[b] else Committed(base, s)[b]
  }

  ghost predicate Inv(lay: Layout, base: Disk, s: State) {
    && |base| == lay.blocks
    && Replays(lay, s.disk, Committed(base, s))
    && GoodList(lay, s.lh)
    && PcInv(lay, base, s)
    && CacheInv(lay, base, s)
    && History(s)
  }

  // ----- Histories -----

  lemma {:induction false} AfterSnoc(d: Disk, es: seq<Event>, e: Event)
    ensures After(d, es + [e]) ==
            if e.Write? && e.bno < |d| then After(d, es)[e.bno := e.data] else After(d, es)
  {
    assert (es + [e])[..|es|] == es;
  }

  lemma {:induction false} AfterAllSnoc(d: Disk, groups: seq<seq<Event>>, g: seq<Event>)
    ensures AfterAll(d, groups + [g]) == After(AfterAll(d, groups), g)
  {
    assert (groups + [g])[..|groups|] == groups;
  }

  lemma {:induction false} OpenSnoc(es: seq<Event>, e: Event)
    ensures OpenOps(es + [e]) ==
            match e
            case Begin(op) => OpenOps(es) + [op]
            case Write(_, _, _) => OpenOps(es)
            case End(op) => Dropped(OpenOps(es), op)
  {
    assert (es + [e])[..|es|] == es;
  }

  lemma {:induction false} BracketedSnoc(es: seq<Event>, e: Event)
    requires Bracketed(es)
    requires if e.Begin? then e.op !in OpenOps(es) else e.op in OpenOps(es)
    ensures Bracketed(es + [e])
  {
    var es' := es + [e];
    forall i | 0 <= i < |es'|
      ensures match es'[i]
              case Begin(op) => op !in OpenOps(es'[..i])
              case Write(op, _, _) => op in OpenOps(es'[..i])
              case End(op) => op in OpenOps(es'[..i])
    {
      assert es'[..i] == es[..i];
      if i == |es| { assert es[..i] == es; }
    }
  }

  lemma AfterNothing(d: Disk)
    ensures After(d, []) == d
  {
  }

  lemma EmptyHistory()
    ensures Bracketed([]) && OpenOps([]) == [] && Ids([]) == []
  {
  }

  lemma {:induction false} DroppedAt(s: seq<nat>, i: nat)
    requires i < |s| && Distinct(s)
    ensures Dropped(s, s[i]) == Without(s, i)
  {
    if i > 0 {
      assert s[0] != s[i];
      DroppedAt(s[1..], i - 1);
      assert [s[0]] + Without(s[1..], i - 1) == Without(s, i);
    }
  }

  // ----- Steps of running operations -----

  lemma BeginKeeps(lay: Layout, base: Disk, s: State)
    requires Inv(lay, base, s) && Enabled(lay, s, BeginOp)
    ensures Inv(lay, base, Do(lay, s, BeginOp))
  {
    hide After, AfterAll, OpenOps, Bracketed, Whole, HeaderOk;
    var e := Begin(s.nextOp);
    AfterSnoc(Committed(base, s), s.group, e);
    OpenSnoc(s.group, e);
    assert s.nextOp !in Ids(s.ops);
    BracketedSnoc(s.group, e);
    var s' := Do(lay, s, BeginOp);
    assert Ids(s'.ops) == Ids(s.ops) + [s.nextOp];
  }

  lemma LogWriteHistory(lay: Layout, s: State, i: nat, b: nat, data: Block)
    requires History(s) && Enabled(lay, s, LogWrite(i, b, data))
    ensures History(Do(lay, s, LogWrite(i, b, data)))
  {
    hide Bracketed, OpenOps, Whole, After;
    var e := Write(s.ops[i].id, b, data);
    var s' := Do(lay, s, LogWrite(i, b, data));
    OpenSnoc(s.group, e);
    assert Ids(s.ops)[i] == e.op;
    BracketedSnoc(s.group, e);
    assert Ids(s'.ops) == Ids(s.ops);
  }

  lemma LogWriteCache(lay: Layout, base: Disk, s: State, i: nat, b: nat, data: Block)
    requires |s.disk| == |base| == lay.blocks && CacheInv(lay, base, s)
    requires Enabled(lay, s, LogWrite(i, b, data))
    ensures CacheInv(lay, base, Do(lay, s, LogWrite(i, b, data)))
  {
    hide After, AfterAll;
    AfterSnoc(Committed(base, s), s.group, Write(s.ops[i].id, b, data));
  }

  lemma LogWriteKeeps(lay: Layout, base: Disk, s: State, i: nat, b: nat, data: Block)
    requires Inv(lay, base, s) && Enabled(lay, s, LogWrite(i, b, data))
    ensures Inv(lay, base, Do(lay, s, LogWrite(i, b, data)))
  {
    hide History, CacheInv, After, AfterAll, Replays, HeaderOk, Header;
    LogWriteHistory(lay, s, i, b, data);
    LogWriteCache(lay, base, s, i, b, data);
    var s' := Do(lay, s, LogWrite(i, b, data));
    assert GoodList(lay, s'.lh) && Buffered(s');
    assert s'.disk == s.disk && s'.groups == s.groups;
  }

  lemma WithoutId(ops: seq<Op>, i: nat)
    requires i < |ops| && Distinct(Ids(ops))
    ensures Ids(Without(ops, i)) == Without(Ids(ops), i) && Distinct(Ids(Without(ops, i)))
    ensures forall x :: x in Without(ops, i) ==> x in ops
  {
    var w := Without(ops, i);
    forall j, k | 0 <= j < k < |w| ensures Ids(w)[j] != Ids(w)[k] {
      var j', k' := if j < i then j else j + 1, if k < i then k else k + 1;
      assert w[j] == ops[j'] && w[k] == ops[k'] && Ids(ops)[j'] != Ids(ops)[k'];
    }
  }

  lemma EndHistory(s: State, i: nat)
    requires History(s) && i < |s.ops|
    ensures History(s.(ops := Without(s.ops, i), group := s.group + [End(s.ops[i].id)]))
  {
    hide OpenOps, Bracketed, Whole, Dropped;
    var e := End(s.ops[i].id);
    OpenSnoc(s.group, e);
    assert Ids(s.ops)[i] == e.op;
    BracketedSnoc(s.group, e);
    DroppedAt(Ids(s.ops), i);
    WithoutId(s.ops, i);
  }

  lemma EndKeeps(lay: Layout, base: Disk, s: State, i: nat)
    requires Inv(lay, base, s) && Enabled(lay, s, EndOp(i))
    ensures Inv(lay, base, Do(lay, s, EndOp(i)))
  {
    hide After, AfterAll, History, HeaderOk, Header;
    var e := End(s.ops[i].id);
    AfterSnoc(Committed(base, s), s.group, e);
    EndHistory(s, i);
    EmptyCommitKeeps(lay, base, s.(ops := Without(s.ops, i), group := s.group + [e]));
  }

  lemma EmptyCommitKeeps(lay: Layout, base: Disk, s: State)
    requires Inv(lay, base, s) && s.pc.Running?
    ensures Inv(lay, base, EndStep(s))
  {
    hide After, AfterAll, OpenOps, Bracketed, HeaderOk;
    if s.ops == [] && s.lh == [] {
      EmptyHistory();
      AfterAllSnoc(base, s.groups, s.group);
      var s' := EndStep(s);
      var c := Committed(base, s');
      assert c == Current(base, s);
      forall b | lay.Home(b) ensures c[b] == s.disk[b] {
        assert b !in s.pinned;
      }
      assert Ids(s'.ops) == [];
    }
  }

  // ----- Steps of commit and recovery -----

  lemma WriteSlotKeeps(lay: Layout, base: Disk, s: State)
    requires Inv(lay, base, s) && s.pc.WritingLog? && s.pc.tail < |s.lh|
    ensures Enabled(lay, s, CommitStep) && Inv(lay, base, Do(lay, s, CommitStep))
  {
    var t := s.pc.tail;
    assert s.lh[t] in s.lh;
    var s' := Do(lay, s, CommitStep);
    assert s'.disk[lay.start] == s.disk[lay.start];
    assert Current(base, s') == Current(base, s);
    assert Logged(lay, s'.disk, s.lh, t + 1, Current(base, s));
  }

  lemma HeaderRoundTrip(lay: Layout, b: Block, h: seq<nat>)
    requires GoodList(lay, h)
    ensures HeaderOk(lay, PutHeader(b, h)) && Header(lay, PutHeader(b, h)) == h
  {
    var r := PutHeader(b, h);
    forall i | 1 <= i <= |h| ensures r[i] == h[i - 1] {
      assert r[i] == r[1..1 + |h|][i - 1];
    }
  }

  lemma CommitReplays(lay: Layout, d: Disk, e: Disk, h: seq<nat>)
    requires GoodDisk(lay, d) && |e| == lay.blocks && GoodList(lay, h) && Logged(lay, d, h, |h|, e)
    requires forall b :: lay.Home(b) && b !in h ==> d[b] == e[b]
    ensures var d' := d[lay.start := PutHeader(d[lay.start], h)];
            Replays(lay, d', e) && Header(lay, d'[lay.start]) == h
  {
    hide HeaderOk, Header, PutHeader;
    HeaderRoundTrip(lay, d[lay.start], h);
    assert Logged(lay, d[lay.start := PutHeader(d[lay.start], h)], h, |h|, e);
  }

  /** Writing the header moves the whole group from the cache into the committed state. */
  lemma CommitPointKeeps(lay: Layout, base: Disk, s: State)
    requires Inv(lay, base, s) && s.pc.WritingLog? && s.pc.tail == |s.lh|
    ensures Enabled(lay, s, CommitStep) && Inv(lay, base, Do(lay, s, CommitStep))
  {
    hide After, AfterAll, OpenOps, Bracketed, HeaderOk, Header, PutHeader, Distinct;
    var s' := Do(lay, s, CommitStep);
    EmptyHistory();
    AfterAllSnoc(base, s.groups, s.group);
    assert Committed(base, s') == Current(base, s);
    assert Whole(s.group);
    CommitReplays(lay, s.disk, Current(base, s), s.lh);
  }

  /** Installing a block from its slot changes neither the header nor the log. */
  lemma InstallBlockReplays(lay: Layout, d: Disk, e: Disk, t: nat)
    requires Replays(lay, d, e) && t < |Header(lay, d[lay.start])|
    ensures var h := Header(lay, d[lay.start]);
            var d' := d[h[t] := d[lay.Slot(t)]];
            Replays(lay, d', e) && Header(lay, d'[lay.start]) == h && d'[h[t]] == e[h[t]]
  {
    var h := Header(lay, d[lay.start]);
    var d' := d[h[t] := d[lay.Slot(t)]];
    assert d'[lay.start] == d[lay.start];
    assert Logged(lay, d', h, |h|, e);
  }

  lemma ClearReplays(lay: Layout, d: Disk, e: Disk)
    requires Replays(lay, d, e)
    requires var h := Header(lay, d[lay.start]); forall i :: 0 <= i < |h| ==> d[h[i]] == e[h[i]]
    ensures var d' := d[lay.start := PutHeader(d[lay.start], [])];
            Replays(lay, d', e) && EmptyHeader(lay, d')
  {
    HeaderRoundTrip(lay, d[lay.start], []);
  }

  lemma InstallOneKeeps(lay: Layout, base: Disk, s: State, done: Pc)
    requires Inv(lay, base, s) && s.pc.Installing? && s.pc.tail < |s.lh|
    ensures CanInstall(lay, s, s.pc.tail) && Inv(lay, base, InstallStep(lay, s, s.pc.tail, done))
  {
    hide After, AfterAll, OpenOps, Bracketed, Whole, HeaderOk, Header, PutHeader, Logged;
    InstallBlockReplays(lay, s.disk, Committed(base, s), s.pc.tail);
  }

  lemma ClearKeeps(lay: Layout, base: Disk, s: State, done: Pc)
    requires Inv(lay, base, s) && s.pc.Installing? && s.pc.tail == |s.lh| && (done == Finishing || done == Running)
    ensures CanInstall(lay, s, s.pc.tail) && Inv(lay, base, InstallStep(lay, s, s.pc.tail, done))
  {
    hide After, AfterAll, OpenOps, Bracketed, Whole, HeaderOk, Header, PutHeader, Logged;
    assert s.pinned == map[];
    AfterNothing(Committed(base, s));
    ClearReplays(lay, s.disk, Committed(base, s));
  }

  lemma InstallKeeps(lay: Layout, base: Disk, s: State, done: Pc)
    requires Inv(lay, base, s) && s.pc.Installing? && (done == Finishing || done == Running)
    ensures CanInstall(lay, s, s.pc.tail) && Inv(lay, base, InstallStep(lay, s, s.pc.tail, done))
  {
    hide Replays, CacheInv, History;
    if s.pc.tail < |s.lh| {
      InstallOneKeeps(lay, base, s, done);
    } else {
      ClearKeeps(lay, base, s, done);
    }
  }

  lemma CrashKeeps(lay: Layout, base: Disk, s: State)
    requires Inv(lay, base, s)
    ensures Inv(lay, base, Do(lay, s, Crash))
  {
    hide After, AfterAll, OpenOps, Bracketed, HeaderOk;
    EmptyHistory();
  }

  lemma ReadHeadKeeps(lay: Layout, base: Disk, s: State)
    requires Inv(lay, base, s) && s.pc.Down?
    ensures Enabled(lay, s, RecoverStep) && Inv(lay, base, Do(lay, s, RecoverStep))
  {
  }

  lemma StepKeeps(lay: Layout, base: Disk, s: State, a: Action)
    requires Inv(lay, base, s) && Enabled(lay, s, a)
    ensures Inv(lay, base, Do(lay, s, a))
  {
    match a
    case BeginOp => BeginKeeps(lay, base, s);
    case LogWrite(i, b, data) => LogWriteKeeps(lay, base, s, i, b, data);
    case EndOp(i) => EndKeeps(lay, base, s, i);
    case CommitStep =>
      match s.pc {
        case WritingLog(t) =>
          if t < |s.lh| { WriteSlotKeeps(lay, base, s); } else { CommitPointKeeps(lay, base, s); }
        case Installing(t, _) => InstallKeeps(lay, base, s, Finishing);
        case _ =>
      }
    case Crash => CrashKeeps(lay, base, s);
    case RecoverStep =>
      match s.pc {
        case Down => ReadHeadKeeps(lay, base, s);
        case _ => InstallKeeps(lay, base, s, Running);
      }
  }

  lemma {:induction false} RunKeeps(lay: Layout, base: Disk, s: State, acts: seq<Action>)
    requires Inv(lay, base, s) && CanRun(lay, s, acts)
    ensures Inv(lay, base, Exec(lay, s, acts))
    decreases |acts|
  {
    if acts != [] {
      StepKeeps(lay, base, s, acts[0]);
      RunKeeps(lay, base, Do(lay, s, acts[0]), acts[1..]);
    }
  }

  lemma InitInv(lay: Layout, s: State)
    requires Init(lay, s)
    ensures Inv(lay, s.disk, s)
  {
  }

  // ----- Main results -----

  ghost predicate OnlyRecovers(acts: seq<Action>) {
    forall a :: a in acts ==> a.Crash? || a.RecoverStep?
  }

  lemma {:induction false} RecoveryKeepsGroups(lay: Layout, s: State, acts: seq<Action>)
    requires CanRun(lay, s, acts) && OnlyRecovers(acts)
    ensures Exec(lay, s, acts).groups == s.groups
    decreases |acts|
  {
    if acts != [] {
      assert acts[0] in acts;
      RecoveryKeepsGroups(lay, Do(lay, s, acts[0]), acts[1..]);
    }
  }

  /** Run any operations, crash anywhere, crash again any number of times while recovering:
      once a recovery completes, the home blocks are those of the committed groups, each of
      which is made of whole operations, and the log is empty. */
  lemma CrashAtomic(lay: Layout, s0: State, acts: seq<Action>, recovery: seq<Action>)
    requires Init(lay, s0) && CanRun(lay, s0, acts)
    requires var s := Exec(lay, s0, acts);
             CanRun(lay, Do(lay, s, Crash), recovery) && OnlyRecovers(recovery) &&
             Exec(lay, Do(lay, s, Crash), recovery).pc.Running?
    ensures var s := Exec(lay, s0, acts);
            var r := Exec(lay, Do(lay, s, Crash), recovery);
            && SameHome(lay, r.disk, AfterAll(s0.disk, s.groups))
            && (forall g :: g in s.groups ==> Whole(g))
            && r.groups == s.groups && EmptyHeader(lay, r.disk)
  {
    var s := Exec(lay, s0, acts);
    InitInv(lay, s0);
    RunKeeps(lay, s0.disk, s0, acts);
    StepKeeps(lay, s0.disk, s, Crash);
    RunKeeps(lay, s0.disk, Do(lay, s, Crash), recovery);
    RecoveryKeepsGroups(lay, Do(lay, s, Crash), recovery);
  }

  lemma {:induction false} GroupsGrow(lay: Layout, s: State, acts: seq<Action>)
    requires CanRun(lay, s, acts)
    ensures s.groups <= Exec(lay, s, acts).groups
    decreases |acts|
  {
    if acts == [] {
      assert Exec(lay, s, acts) == s;
    } else {
      var s' := Do(lay, s, acts[0]);
      assert s.groups <= s'.groups;
      GroupsGrow(lay, s', acts[1..]);
      assert Exec(lay, s, acts) == Exec(lay, s', acts[1..]);
    }
  }

  /** Once commit has returned, no event is left uncommitted, and nothing that follows,
      crashes included, takes a committed group away. */
  lemma Durable(lay: Layout, s0: State, acts: seq<Action>, more: seq<Action>)
    requires Init(lay, s0) && CanRun(lay, s0, acts)
    requires var s := Exec(lay, s0, acts); s.pc.Finishing? && CanRun(lay, s, more)
    ensures var s := Exec(lay, s0, acts);
            s.group == [] && s.groups <= Exec(lay, s, more).groups
  {
    InitInv(lay, s0);
    RunKeeps(lay, s0.disk, s0, acts);
    GroupsGrow(lay, Exec(lay, s0, acts), more);
  }

  /** While operations run, every home block reads as the newest write to it. */
  lemma ReadsNewest(lay: Layout, s0: State, acts: seq<Action>, b: nat)
    requires Init(lay, s0) && CanRun(lay, s0, acts) && lay.Home(b)
    requires Exec(lay, s0, acts).pc.Running?
    ensures var s := Exec(lay, s0, acts);
            |s.disk| == |s0.disk| == lay.blocks &&
            After(AfterAll(s0.disk, s.groups), s.group)[b] == if b in s.pinned then s.pinned[b] else s.disk[b]
  {
    InitInv(lay, s0);
    RunKeeps(lay, s0.disk, s0, acts);
  }

  /** A recovery that is not interrupted completes: one step to read the header, one for
      each block it names, and one to clear it. */
  lemma {:induction false} RecoveryCompletes(lay: Layout, base: Disk, s: State)
    requires Inv(lay, base, s) && s.pc.Down?
    ensures var n := |Header(lay, s.disk[lay.start])| + 2;
            var steps := seq(n, _ => RecoverStep);
            CanRun(lay, s, steps) && Exec(lay, s, steps).pc.Running?
  {
    var n := |Header(lay, s.disk[lay.start])| + 2;
    var steps: seq<Action> := seq(n, _ => RecoverStep);
    var rest: seq<Action> := seq(n - 1, _ => RecoverStep);
    assert steps[1..] == rest;
    ReadHeadKeeps(lay, base, s);
    InstallCompletes(lay, base, Do(lay, s, RecoverStep));
  }

  lemma {:induction false} InstallCompletes(lay: Layout, base: Disk, s: State)
    requires Inv(lay, base, s) && s.pc.Installing? && s.pc.recovering
    ensures var steps := seq(|s.lh| - s.pc.tail + 1, _ => RecoverStep);
            CanRun(lay, s, steps) && Exec(lay, s, steps).pc.Running?
    decreases |s.lh| - s.pc.tail
  {
    hide Replays, History, CacheInv, GoodList, GoodDisk, HeaderOk, PutHeader, Logged;
    var steps: seq<Action> := seq(|s.lh| - s.pc.tail + 1, _ => RecoverStep);
    InstallKeeps(lay, base, s, Running);
    var s' := Do(lay, s, RecoverStep);
    if s.pc.tail < |s.lh| {
      var rest: seq<Action> := seq(|s.lh| - s.pc.tail, _ => RecoverStep);
      assert steps[1..] == rest;
      InstallCompletes(lay, base, s');
    } else {
      assert steps[1..] == [];
    }
  }
}
