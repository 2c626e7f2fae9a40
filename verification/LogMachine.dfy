/** The write-ahead log of kernel/log.c as a machine whose steps are single-block disk
    writes, the log calls of file-system operations, and crashes.

    A disk image is a sequence of blocks and a block is a sequence of 32-bit words: the
    log header keeps its count in word 0 and the logged block numbers in the words after. */
module LogMachine {
  import opened Basics
  import opened Params

  const LOGSIZE: nat := MAXOPBLOCKS * 3
  const BLOCK_WORDS: nat := 256

  type Block = b: seq<int> | |b| == BLOCK_WORDS witness seq(BLOCK_WORDS, _ => 0)
  type Disk = seq<Block>

  /** Where the log lives: its header is block `start`, its slots are the next `size - 1`. */
  datatype Layout = Layout(start: nat, size: nat, blocks: nat) {
    predicate Valid() {
      1 <= size && start + size <= blocks
    }

    predicate Home(b: int) {
      0 <= b < blocks && !(start <= b < start + size)
    }

    function Slot(tail: nat): nat {
      start + tail + 1
    }
  }

  /** What an operation does to the log, in the order it does it. */
  datatype Event = Begin(op: nat) | Write(op: nat, bno: nat, data: Block) | End(op: nat)

  /** An operation between begin_op and end_op, and how many log entries it has added. */
  datatype Op = Op(id: nat, used: nat)

  datatype Pc =
    | Running
    | WritingLog(tail: nat)
    | Installing(tail: nat, recovering: bool)
    | Finishing
    | Down

  /** `lh` is log.lh.block[..log.lh.n]; `pinned` holds the cached contents of those blocks;
      outstanding is |ops|; committing is "pc is neither Running nor Down".
      `groups` and `group` record the events committed so far and those since. */
  datatype State = State(
    disk: Disk, pinned: map<nat, Block>, lh: seq<nat>, ops: seq<Op>, pc: Pc,
    nextOp: nat, groups: seq<seq<Event>>, group: seq<Event>)

  datatype Action =
    | BeginOp
    | LogWrite(i: nat, bno: nat, data: Block)
    | EndOp(i: nat)
    | CommitStep
    | Crash
    | RecoverStep

  // ----- The header block -----

  predicate HeaderOk(lay: Layout, b: Block) {
    0 <= b[0] <= LOGSIZE && b[0] < lay.size &&
    forall i :: 1 <= i <= b[0] ==> lay.Home(b[i])
  }

  /** read_head: the first n block numbers. */
  function Header(lay: Layout, b: Block): (h: seq<nat>)
    requires HeaderOk(lay, b)
    ensures |h| == b[0]
    ensures forall i :: 0 <= i < |h| ==> h[i] == b[i + 1] && lay.Home(h[i])
  {
    seq(b[0], i requires 0 <= i < b[0] => b[i + 1])
  }

  /** write_head: sets the count and the first n entries, and leaves the other words alone. */
  function PutHeader(b: Block, lh: seq<nat>): (r: Block)
    requires |lh| <= LOGSIZE
    ensures r[0] == |lh| && r[1..1 + |lh|] == lh && r[1 + |lh|..] == b[1 + |lh|..]
  {
    var r: seq<int> := [|lh|] + seq(|lh|, i requires 0 <= i < |lh| => lh[i]) + b[1 + |lh|..];
    r
  }

  // ----- Steps -----

  predicate LogFull(lay: Layout, lh: seq<nat>) {
    |lh| >= LOGSIZE || |lh| >= lay.size - 1
  }

  ghost predicate Enabled(lay: Layout, s: State, a: Action) {
    match a
    case BeginOp => s.pc.Running? && |s.lh| + (|s.ops| + 1) * MAXOPBLOCKS <= LOGSIZE
    case LogWrite(i, b, _) => s.pc.Running? && i < |s.ops| && lay.Home(b) && !LogFull(lay, s.lh)
    case EndOp(i) => s.pc.Running? && i < |s.ops|
    case CommitStep =>
      (match s.pc
       case WritingLog(t) =>
         if t < |s.lh| then lay.Slot(t) < |s.disk| && s.lh[t] in s.pinned
         else lay.start < |s.disk| && |s.lh| <= LOGSIZE
       case Installing(t, recovering) => !recovering && CanInstall(lay, s, t)
       case Finishing => true
       case _ => false)
    case Crash => true
    case RecoverStep =>
      match s.pc
      case Down => lay.start < |s.disk| && HeaderOk(lay, s.disk[lay.start])
      case Installing(t, recovering) => recovering && CanInstall(lay, s, t)
      case _ => false
  }

  ghost predicate CanInstall(lay: Layout, s: State, t: nat) {
    lay.start < |s.disk| && (t < |s.lh| ==> lay.Slot(t) < |s.disk| && s.lh[t] < |s.disk|)
  }

  ghost function Do(lay: Layout, s: State, a: Action): State
    requires Enabled(lay, s, a)
  {
    match a
    case BeginOp =>
      s.(ops := s.ops + [Op(s.nextOp, 0)], nextOp := s.nextOp + 1, group := s.group + [Begin(s.nextOp)])
    case LogWrite(i, b, data) =>
      var op := s.ops[i];
      var s1 := s.(pinned := s.pinned[b := data], group := s.group + [Write(op.id, b, data)]);
      if b in s.lh then s1 else s1.(lh := s.lh + [b], ops := s.ops[i := op.(used := op.used + 1)])
    case EndOp(i) => EndStep(s.(ops := Without(s.ops, i), group := s.group + [End(s.ops[i].id)]))
    case CommitStep =>
      (match s.pc
       case WritingLog(t) =>
         if t < |s.lh| then
           s.(disk := s.disk[lay.Slot(t) := s.pinned[s.lh[t]]], pc := WritingLog(t + 1))
         else
           s.(disk := s.disk[lay.start := PutHeader(s.disk[lay.start], s.lh)],
              groups := s.groups + [s.group], group := [], pc := Installing(0, false))
       case Installing(t, _) => InstallStep(lay, s, t, Finishing)
       case Finishing => s.(pc := Running)
       case _ => s)
    case Crash => s.(pinned := map[], lh := [], ops := [], group := [], pc := Down)
    case RecoverStep =>
      match s.pc
      case Down => s.(lh := Header(lay, s.disk[lay.start]), pc := Installing(0, true))
      case Installing(t, _) => InstallStep(lay, s, t, Running)
      case _ => s
  }

  /** The last end_op starts a commit; an empty transaction has nothing to write. */
  ghost function EndStep(s: State): State {
    if s.ops != [] then s
    else if s.lh == [] then s.(groups := s.groups + [s.group], group := [], pc := Finishing)
    else s.(pc := WritingLog(0))
  }

  /** One turn of install_trans, or, after the last, the write_head that clears the log. */
  ghost function InstallStep(lay: Layout, s: State, t: nat, done: Pc): State
    requires s.pc.Installing? && CanInstall(lay, s, t)
  {
    if t < |s.lh| then
      s.(disk := s.disk[s.lh[t] := s.disk[lay.Slot(t)]], pinned := s.pinned - {s.lh[t]},
         pc := Installing(t + 1, s.pc.recovering))
    else
      s.(disk := s.disk[lay.start := PutHeader(s.disk[lay.start], [])], lh := [], pc := done)
  }

  ghost predicate CanRun(lay: Layout, s: State, acts: seq<Action>)
    decreases |acts|
  {
    acts == [] || (Enabled(lay, s, acts[0]) && CanRun(lay, Do(lay, s, acts[0]), acts[1..]))
  }

  ghost function Exec(lay: Layout, s: State, acts: seq<Action>): State
    requires CanRun(lay, s, acts)
    decreases |acts|
  {
    if acts == [] then s else Exec(lay, Do(lay, s, acts[0]), acts[1..])
  }

  // ----- What a history means -----

  /** The disk after the writes of `es`, later writes winning. */
  ghost function After(d: Disk, es: seq<Event>): (r: Disk)
    ensures |r| == |d|
  {
    if es == [] then d else
      var before := After(d, es[..|es| - 1]);
      match es[|es| - 1]
      case Write(_, b, data) => if b < |d| then before[b := data] else before
      case _ => before
  }

  ghost function AfterAll(d: Disk, groups: seq<seq<Event>>): (r: Disk)
    ensures |r| == |d|
  {
    if groups == [] then d else After(AfterAll(d, groups[..|groups| - 1]), groups[|groups| - 1])
  }

  ghost predicate SameHome(lay: Layout, d: Disk, e: Disk) {
    |d| == |e| == lay.blocks && forall b :: lay.Home(b) ==> d[b] == e[b]
  }

  /** The operations begun and not ended in `es`, in order of their starts. */
  ghost function OpenOps(es: seq<Event>): seq<nat> {
    if es == [] then [] else
      var before := OpenOps(es[..|es| - 1]);
      match es[|es| - 1]
      case Begin(op) => before + [op]
      case Write(_, _, _) => before
      case End(op) => Dropped(before, op)
  }

  ghost function Dropped(s: seq<nat>, x: nat): seq<nat> {
    if s == [] then [] else if s[0] == x then s[1..] else [s[0]] + Dropped(s[1..], x)
  }

  /** Every operation with an event in `es` begins and ends in `es`. */
  ghost predicate Bracketed(es: seq<Event>) {
    forall i :: 0 <= i < |es| ==>
      match es[i]
      case Begin(op) => op !in OpenOps(es[..i])
      case Write(op, _, _) => op in OpenOps(es[..i])
      case End(op) => op in OpenOps(es[..i])
  }

  ghost predicate Whole(es: seq<Event>) {
    Bracketed(es) && OpenOps(es) == []
  }

  ghost predicate Init(lay: Layout, s: State) {
    lay.Valid() && |s.disk| == lay.blocks &&
    HeaderOk(lay, s.disk[lay.start]) && s.disk[lay.start][0] == 0 &&
    s == State(s.disk, map[], [], [], Running, 0, [], [])
  }
}
