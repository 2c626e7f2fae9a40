/** The log on top of the buffer cache. Here the log has no memory of its own for the blocks it
    has logged: they are in pinned buffers, and commit and recovery read and write log slots,
    home blocks and the header through bread and bwrite like everyone else, while processes go
    on using the cache. Every step is a step of LogMachine or of no effect there, so what
    LogCrashSafety proves of the machine holds of log.c and bio.c together. */
module LogCache {
  import L = LogMachine
  import S = LogCrashSafety
  import C = BcacheModel
  import CS = BcacheSafety
  import opened Basics
  import opened Params

  const DEV: nat := 1

  function At(n: nat): C.Key { C.Key(DEV, n) }

  /** `author` has, for a reference whose change is not yet logged, the operation that made it. */
  datatype State = State(c: C.State, lh: seq<nat>, ops: seq<L.Op>, pc: L.Pc, nextOp: nat, author: map<nat, nat>)

  /** p and q are references. What the log does with its buffers happens while it holds their
      locks, so a memmove and the bwrite after it are one step. */
  datatype Action =
    | Cache(a: C.Action)                      // bget, locking, reading and brelse, by anyone
    | Change(p: nat, i: nat, data: L.Block)   // operation i changes the block of p
    | LogWrite(p: nat, i: nat)
    | BeginOp
    | EndOp(i: nat)
    | CopyToLog(p: nat, q: nat)               // one turn of write_log
    | Commit(p: nat)                          // the header write that commits
    | Install(p: nat, q: nat)                 // one turn of install_trans
    | Clear(p: nat)                           // the header write that empties the log
    | Finish
    | Crash(c: C.State)                       // with the cache as binit leaves it
    | ReadHead(p: nat)

  /** Reference p holds block n, with its contents. */
  ghost predicate Holds(c: C.State, p: nat, n: nat) {
    C.Has(c, p) && C.HasLock(c.use[p]) && C.Of(c, p).valid && C.Of(c, p).key == At(n)
      && |C.Of(c, p).data| == L.BLOCK_WORDS
  }

  ghost predicate Plain(a: C.Action) {
    a.Get? || a.Lock? || a.Read? || a.Unlock? || a.Release?
  }

  ghost predicate Enabled(lay: L.Layout, k: State, a: Action) {
    && C.Shape(k.c)
    && match a
       case Cache(a) => Plain(a) && C.Enabled(k.c, a)
       case Change(p, i, _) =>
         k.pc.Running? && i < |k.ops| && C.Has(k.c, p) && Holds(k.c, p, C.Of(k.c, p).key.blockno)
           && lay.Home(C.Of(k.c, p).key.blockno)
       case LogWrite(p, i) =>
         && k.pc.Running? && i < |k.ops| && C.Has(k.c, p) && Holds(k.c, p, C.Of(k.c, p).key.blockno)
         && lay.Home(C.Of(k.c, p).key.blockno) && !L.LogFull(lay, k.lh)
       case BeginOp => k.pc.Running? && |k.lh| + (|k.ops| + 1) * MAXOPBLOCKS <= L.LOGSIZE
       case EndOp(i) => k.pc.Running? && i < |k.ops| && forall p :: p in k.author ==> k.author[p] != k.ops[i].id
       case CopyToLog(p, q) =>
         k.pc.WritingLog? && k.pc.tail < |k.lh| && Holds(k.c, p, lay.Slot(k.pc.tail)) && Holds(k.c, q, k.lh[k.pc.tail])
       case Commit(p) => k.pc.WritingLog? && k.pc.tail == |k.lh| <= L.LOGSIZE && Holds(k.c, p, lay.start)
       case Install(p, q) =>
         k.pc.Installing? && k.pc.tail < |k.lh| && Holds(k.c, p, lay.Slot(k.pc.tail)) && Holds(k.c, q, k.lh[k.pc.tail])
       case Clear(p) => k.pc.Installing? && k.pc.tail == |k.lh| && Holds(k.c, p, lay.start)
       case Finish => k.pc.Finishing?
       case Crash(c) => C.Init(c) && c.disk == k.c.disk
       case ReadHead(p) => k.pc.Down? && Holds(k.c, p, lay.start) && L.HeaderOk(lay, C.Of(k.c, p).data)
  }

  /** memmove into the buffer of p, and bwrite. */
  ghost function Put(c: C.State, p: nat, n: nat, data: L.Block): C.State
    requires C.Shape(c) && Holds(c, p, n)
  {
    C.Do(C.Do(c, C.Modify(p, At(n), data)), C.Write(p))
  }

  /** bunpin of a block that has just been written home. */
  ghost function Unpinned(c: C.State, n: nat): C.State
    requires C.Shape(c)
  {
    if C.Enabled(c, C.Install(At(n))) then C.Do(c, C.Install(At(n))) else c
  }

  ghost function Do(lay: L.Layout, k: State, a: Action): State
    requires Enabled(lay, k, a)
  {
    match a
    case Cache(a) => k.(c := C.Do(k.c, a))
    case Change(p, i, data) =>
      k.(c := C.Do(k.c, C.Modify(p, C.Of(k.c, p).key, data)), author := k.author[p := k.ops[i].id])
    case LogWrite(p, i) =>
      var n, op := C.Of(k.c, p).key.blockno, k.ops[i];
      var k1 := k.(c := C.Do(k.c, C.LogWrite(p)), author := k.author - {p});
      if n in k.lh then k1 else k1.(lh := k.lh + [n], ops := k.ops[i := op.(used := op.used + 1)])
    case BeginOp => k.(ops := k.ops + [L.Op(k.nextOp, 0)], nextOp := k.nextOp + 1)
    case EndOp(i) =>
      var ops := Without(k.ops, i);
      k.(ops := ops, pc := if ops != [] then k.pc else if k.lh == [] then L.Finishing else L.WritingLog(0))
    case CopyToLog(p, q) =>
      k.(c := Put(k.c, p, lay.Slot(k.pc.tail), C.Of(k.c, q).data), pc := L.WritingLog(k.pc.tail + 1))
    case Commit(p) =>
      k.(c := Put(k.c, p, lay.start, L.PutHeader(C.Of(k.c, p).data, k.lh)), pc := L.Installing(0, false))
    case Install(p, q) =>
      var n := k.lh[k.pc.tail];
      var c := Put(k.c, q, n, C.Of(k.c, p).data);
      k.(c := if k.pc.recovering then c else Unpinned(c, n), pc := L.Installing(k.pc.tail + 1, k.pc.recovering))
    case Clear(p) =>
      k.(c := Put(k.c, p, lay.start, L.PutHeader(C.Of(k.c, p).data, [])), lh := [],
         pc := if k.pc.recovering then L.Running else L.Finishing)
    case Finish => k.(pc := L.Running)
    case Crash(c) => State(c, [], [], L.Down, k.nextOp, map[])
    case ReadHead(p) => k.(lh := L.Header(lay, C.Of(k.c, p).data), pc := L.Installing(0, true))
  }

  /** The step of LogMachine that a step is, if any. */
  ghost function Abstract(lay: L.Layout, k: State, a: Action): seq<L.Action>
    requires Enabled(lay, k, a)
  {
    match a
    case Cache(_) => []
    case Change(_, _, _) => []
    case LogWrite(p, i) => [L.LogWrite(i, C.Of(k.c, p).key.blockno, C.Of(k.c, p).data)]
    case BeginOp => [L.BeginOp]
    case EndOp(i) => [L.EndOp(i)]
    case CopyToLog(_, _) => [L.CommitStep]
    case Commit(_) => [L.CommitStep]
    case Install(_, _) => [if k.pc.recovering then L.RecoverStep else L.CommitStep]
    case Clear(_) => [if k.pc.recovering then L.RecoverStep else L.CommitStep]
    case Finish => [L.CommitStep]
    case Crash(_) => [L.Crash]
    case ReadHead(_) => [L.RecoverStep]
  }

  // ----- How the two agree -----

  ghost predicate DiskOk(lay: L.Layout, c: C.State, l: L.State, n: nat) {
    n < lay.blocks == |l.disk| ==> At(n) in c.disk && c.disk[At(n)] == l.disk[n]
  }

  ghost predicate KeyOk(lay: L.Layout, c: C.State, key: C.Key) {
    key in c.disk ==> key.dev == DEV && key.blockno < lay.blocks
  }

  ghost predicate WideOk(c: C.State, b: nat) {
    b < |c.buf| && c.buf[b].valid && c.buf[b].key.dev > 0 ==> |c.buf[b].data| == L.BLOCK_WORDS
  }

  /** Exactly the blocks that the machine has pinned are in the log, as far as the cache knows. */
  ghost predicate LoggedOk(c: C.State, l: L.State, key: C.Key) {
    key in c.logged <==> key.dev == DEV && key.blockno in l.pinned
  }

  /** The buffer of a pinned block has the machine's contents, unless a change is under way. */
  ghost predicate PinOk(c: C.State, l: L.State, n: nat, b: nat) {
    n in l.pinned && C.Caches(c, b, At(n)) && !C.ChangedBySome(c, b) ==> c.buf[b].data == l.pinned[n]
  }

  ghost predicate Open(k: State, id: nat) {
    exists i :: 0 <= i < |k.ops| && k.ops[i].id == id
  }

  /** A change that is not logged yet is one of an open operation to a home block. */
  ghost predicate ByOk(lay: L.Layout, k: State, p: nat) {
    p in k.c.use && k.c.use[p].Changed? ==>
      p in k.author && Open(k, k.author[p]) && k.c.use[p].b < |k.c.buf| && lay.Home(k.c.buf[k.c.use[p].b].key.blockno)
  }

  ghost predicate CacheAgrees(lay: L.Layout, c: C.State, l: L.State) {
    && C.Inv(c) && |l.disk| == lay.blocks && lay.Valid()
    && (forall n :: DiskOk(lay, c, l, n)) && (forall key :: KeyOk(lay, c, key)) && (forall b :: WideOk(c, b))
    && (forall key :: LoggedOk(c, l, key)) && (forall n, b :: PinOk(c, l, n, b))
  }

  ghost predicate PcOk(l: L.State) {
    l.pc.Installing? ==>
      if l.pc.recovering then l.pinned == map[] else forall i :: l.pc.tail <= i < |l.lh| ==> l.lh[i] in l.pinned
  }

  ghost predicate Agrees(lay: L.Layout, k: State, l: L.State) {
    && k.lh == l.lh && k.ops == l.ops && k.pc == l.pc && k.nextOp == l.nextOp
    && CacheAgrees(lay, k.c, l) && PcOk(l) && (forall p :: ByOk(lay, k, p))
  }

  // ----- The cache alone -----

  /** Steps that only fetch and let go of buffers. */
  lemma PlainAgrees(lay: L.Layout, c: C.State, l: L.State, a: C.Action)
    requires CacheAgrees(lay, c, l) && Plain(a) && C.Enabled(c, a)
    ensures CacheAgrees(lay, C.Do(c, a), l)
    ensures forall b :: C.ChangedBySome(c, b) <==> C.ChangedBySome(C.Do(c, a), b)
  {
    var c' := C.Do(c, a);
    PlainInv(c, a);
    hide C.Inv;
    PlainChanges(c, a);
    forall n ensures DiskOk(lay, c', l, n) { assert DiskOk(lay, c, l, n); }
    forall key ensures KeyOk(lay, c', key) { assert KeyOk(lay, c, key); }
    forall key ensures LoggedOk(c', l, key) { assert LoggedOk(c, l, key); }
    forall b ensures WideOk(c', b) {
      assert WideOk(c, b);
      PlainBuffer(lay, c, l, a, b);
    }
    forall n, b ensures PinOk(c', l, n, b) {
      assert PinOk(c, l, n, b) && LoggedOk(c, l, At(n));
      PlainBuffer(lay, c, l, a, b);
    }
  }

  lemma PlainInv(c: C.State, a: C.Action)
    requires C.Inv(c) && Plain(a) && C.Enabled(c, a)
    ensures C.Inv(C.Do(c, a)) && C.Do(c, a).disk == c.disk && C.Do(c, a).logged == c.logged
  {
    CS.StepKeeps(c, a);
  }

  lemma PlainChanges(c: C.State, a: C.Action)
    requires C.Shape(c) && Plain(a) && C.Enabled(c, a)
    ensures forall p, b :: p in c.use && c.use[p] == C.Changed(b) <==>
              p in C.Do(c, a).use && C.Do(c, a).use[p] == C.Changed(b)
  {
  }

  /** A buffer that holds a block after such a step held it before, or has just been read. */
  lemma PlainBuffer(lay: L.Layout, c: C.State, l: L.State, a: C.Action, b: nat)
    requires CacheAgrees(lay, c, l) && Plain(a) && C.Enabled(c, a)
    ensures var c' := C.Do(c, a);
            b < |c'.buf| && c'.buf[b].valid && c'.buf[b].key.dev > 0 ==>
              || (b < |c.buf| && c.buf[b].valid && c.buf[b].key == c'.buf[b].key && c.buf[b].data == c'.buf[b].data)
              || (c'.buf[b].key !in c.logged && |c'.buf[b].data| == L.BLOCK_WORDS)
  {
    if a.Read? && c.use[a.p].b == b && !c.buf[b].valid {
      var key := c.buf[b].key;
      assert KeyOk(lay, c, key) && DiskOk(lay, c, l, key.blockno);
      assert C.UseOk(c, a.p);
      forall x ensures !C.Caches(c, x, key) { assert C.KeyOk(c, b, x); }
      assert C.LogOk(c, key);
    }
  }

  /** No change is under way, as when no operation is open. */
  ghost predicate Quiet(c: C.State) {
    forall p :: p in c.use ==> !c.use[p].Changed?
  }

  lemma NoOpsQuiet(lay: L.Layout, k: State)
    requires (forall p :: ByOk(lay, k, p)) && k.ops == []
    ensures Quiet(k.c) && forall b :: !C.ChangedBySome(k.c, b)
  {
    forall p | p in k.c.use ensures !k.c.use[p].Changed? { assert ByOk(lay, k, p); }
  }

  lemma PutIs(c: C.State, p: nat, n: nat, data: L.Block)
    requires C.Inv(c) && Holds(c, p, n)
    ensures var b, c' := c.use[p].b, Put(c, p, n, data);
            && C.Inv(c') && c' == c.(buf := c.buf[b := c.buf[b].(data := data)], disk := c.disk[At(n) := data],
                                     use := c.use[p := C.Holds(b)])
  {
    CS.StepKeeps(c, C.Modify(p, At(n), data));
    CS.StepKeeps(C.Do(c, C.Modify(p, At(n), data)), C.Write(p));
  }

  ghost function WithDisk(l: L.State, n: nat, data: L.Block): L.State
    requires n < |l.disk|
  {
    l.(disk := l.disk[n := data], pinned := if n in l.pinned then l.pinned[n := data] else l.pinned)
  }

  /** Writing a block through its buffer. */
  lemma PutAgrees(lay: L.Layout, c: C.State, l: L.State, p: nat, n: nat, data: L.Block)
    requires CacheAgrees(lay, c, l) && Quiet(c) && Holds(c, p, n)
    ensures n < lay.blocks && CacheAgrees(lay, Put(c, p, n, data), WithDisk(l, n, data)) && Quiet(Put(c, p, n, data))
    ensures var c', b := Put(c, p, n, data), c.use[p].b;
            C.Caches(c', b, At(n)) && c'.buf[b].data == data && At(n) in c'.disk && c'.disk[At(n)] == data
  {
    var c', b := Put(c, p, n, data), c.use[p].b;
    PutIs(c, p, n, data);
    assert C.BufOk(c, b) && KeyOk(lay, c, At(n));
    UniqueBuffer(c, b, At(n));
    hide C.Inv;
    var l' := WithDisk(l, n, data);
    forall m ensures DiskOk(lay, c', l', m) { assert DiskOk(lay, c, l, m); }
    forall key ensures KeyOk(lay, c', key) { assert KeyOk(lay, c, key); }
    forall key ensures LoggedOk(c', l', key) { assert LoggedOk(c, l, key); }
    forall x ensures WideOk(c', x) { assert WideOk(c, x); }
    forall m, x ensures PinOk(c', l', m, x) { assert PinOk(c, l, m, x); }
  }

  lemma UniqueBuffer(c: C.State, b: nat, key: C.Key)
    requires C.Inv(c) && b < |c.buf| && c.buf[b].key == key && key.dev > 0
    ensures forall x: nat :: x < |c.buf| && c.buf[x].key == key ==> x == b
  {
    forall x: nat | x < |c.buf| && c.buf[x].key == key ensures x == b { assert C.KeyOk(c, b, x); }
  }

  /** Unpinning a block whose buffer is as on disk. */
  lemma UnpinAgrees(lay: L.Layout, c: C.State, l: L.State, n: nat, b: nat)
    requires CacheAgrees(lay, c, l) && Quiet(c) && n in l.pinned && C.Caches(c, b, At(n))
             && c.buf[b].data == l.pinned[n]
    requires n < lay.blocks && l.disk[n] == l.pinned[n]
    ensures CacheAgrees(lay, Unpinned(c, n), l.(pinned := l.pinned - {n})) && Unpinned(c, n).use == c.use
  {
    var key := At(n);
    assert LoggedOk(c, l, key) && C.BufOk(c, b) && DiskOk(lay, c, l, n);
    CS.FindIs(c, key, b);
    CS.StepKeeps(c, C.Install(key));
    var c', l' := Unpinned(c, n), l.(pinned := l.pinned - {n});
    assert c'.disk == c.disk;
    UniqueBuffer(c, b, key);
    hide C.Inv;
    forall m ensures DiskOk(lay, c', l', m) { assert DiskOk(lay, c, l, m); }
    forall k ensures KeyOk(lay, c', k) { assert KeyOk(lay, c, k); }
    forall k ensures LoggedOk(c', l', k) { assert LoggedOk(c, l, k); }
    forall x ensures WideOk(c', x) { assert WideOk(c, x); }
    forall m, x ensures PinOk(c', l', m, x) { assert PinOk(c, l, m, x); }
  }

  /** A buffer that the log does not pin is as on disk. */
  lemma ReadsDisk(lay: L.Layout, c: C.State, l: L.State, p: nat, n: nat)
    requires CacheAgrees(lay, c, l) && Quiet(c) && Holds(c, p, n) && n !in l.pinned
    ensures n < lay.blocks && C.Of(c, p).data == l.disk[n]
  {
    var b := c.use[p].b;
    assert C.UseOk(c, p) && C.BufOk(c, b) && LoggedOk(c, l, At(n)) && KeyOk(lay, c, At(n)) && DiskOk(lay, c, l, n);
  }

  /** The buffer of a pinned block has what was logged last. */
  lemma ReadsPinned(lay: L.Layout, c: C.State, l: L.State, p: nat, n: nat)
    requires CacheAgrees(lay, c, l) && Quiet(c) && Holds(c, p, n) && n in l.pinned
    ensures C.Of(c, p).data == l.pinned[n]
  {
    assert PinOk(c, l, n, c.use[p].b);
  }

  // ----- Steps of operations -----

  lemma CacheRefines(lay: L.Layout, k: State, l: L.State, a: C.Action)
    requires Agrees(lay, k, l) && Enabled(lay, k, Cache(a))
    ensures Agrees(lay, Do(lay, k, Cache(a)), l)
  {
    hide CacheAgrees, C.Inv;
    var k' := Do(lay, k, Cache(a));
    PlainAgrees(lay, k.c, l, a);
    PlainChanges(k.c, a);
    forall p ensures ByOk(lay, k', p) {
      assert ByOk(lay, k, p);
      if p in k'.c.use && k'.c.use[p].Changed? { UserKeeps(lay, k.c, l, a, p); }
      assert forall id :: Open(k', id) <==> Open(k, id);
    }
  }

  lemma UserKeeps(lay: L.Layout, c: C.State, l: L.State, a: C.Action, p: nat)
    requires CacheAgrees(lay, c, l) && C.Shape(c) && C.Enabled(c, a) && p in c.use && p in C.Do(c, a).use
    ensures var b := c.use[p].b;
            b < |C.Do(c, a).buf| && b < |c.buf| && C.Do(c, a).use[p].b == b && C.Do(c, a).buf[b].key == c.buf[b].key
  {
    CS.UsedStays(c, a, p);
  }

  lemma ChangeRefines(lay: L.Layout, k: State, l: L.State, p: nat, i: nat, data: L.Block)
    requires Agrees(lay, k, l) && Enabled(lay, k, Change(p, i, data))
    ensures Agrees(lay, Do(lay, k, Change(p, i, data)), l)
  {
    var c, k' := k.c, Do(lay, k, Change(p, i, data));
    var c', b, n := k'.c, c.use[p].b, C.Of(c, p).key.blockno;
    CS.StepKeeps(c, C.Modify(p, At(n), data));
    UniqueBuffer(c, b, At(n));
    assert c'.use[p] == C.Changed(b) && C.ChangedBySome(c', b);
    hide C.Inv;
    forall m ensures DiskOk(lay, c', l, m) { assert DiskOk(lay, c, l, m); }
    forall key ensures KeyOk(lay, c', key) { assert KeyOk(lay, c, key); }
    forall key ensures LoggedOk(c', l, key) { assert LoggedOk(c, l, key); }
    forall x ensures WideOk(c', x) { assert WideOk(c, x); }
    forall m, x ensures PinOk(c', l, m, x) {
      assert PinOk(c, l, m, x);
      if x != b { CS.OtherChangeStays(c, c', p, x); }
    }
    assert Open(k, k.ops[i].id);
    forall q ensures ByOk(lay, k', q) {
      assert ByOk(lay, k, q);
      assert forall id :: Open(k', id) <==> Open(k, id);
    }
  }

  lemma LogWriteAgrees(lay: L.Layout, c: C.State, l: L.State, l': L.State, p: nat, n: nat)
    requires CacheAgrees(lay, c, l) && Holds(c, p, n)
    requires l'.disk == l.disk && l'.pinned == l.pinned[n := C.Of(c, p).data]
    ensures CacheAgrees(lay, C.Do(c, C.LogWrite(p)), l')
  {
    var c', b := C.Do(c, C.LogWrite(p)), c.use[p].b;
    CS.StepKeeps(c, C.LogWrite(p));
    UniqueBuffer(c, b, At(n));
    hide C.Inv;
    forall m ensures DiskOk(lay, c', l', m) { assert DiskOk(lay, c, l, m); }
    forall key ensures KeyOk(lay, c', key) { assert KeyOk(lay, c, key); }
    forall key ensures LoggedOk(c', l', key) { assert LoggedOk(c, l, key) && LoggedOk(c, l, At(n)); }
    forall x ensures WideOk(c', x) { assert WideOk(c, x); }
    forall m, x ensures PinOk(c', l', m, x) {
      assert PinOk(c, l, m, x);
      if x != b { CS.OtherChangeStays(c, c', p, x); }
    }
  }

  lemma LogWriteRefines(lay: L.Layout, k: State, l: L.State, p: nat, i: nat)
    requires Agrees(lay, k, l) && Enabled(lay, k, LogWrite(p, i))
    ensures var a := Abstract(lay, k, LogWrite(p, i))[0];
            L.Enabled(lay, l, a) && Agrees(lay, Do(lay, k, LogWrite(p, i)), L.Do(lay, l, a))
  {
    var k', n := Do(lay, k, LogWrite(p, i)), C.Of(k.c, p).key.blockno;
    var l' := L.Do(lay, l, L.LogWrite(i, n, C.Of(k.c, p).data));
    LogWriteAgrees(lay, k.c, l, l', p, n);
    hide CacheAgrees;
    OpenStays(k, k', i);
    forall q ensures ByOk(lay, k', q) { assert ByOk(lay, k, q); }
  }

  /** An operation that adds an entry stays open. */
  lemma OpenStays(k: State, k': State, i: nat)
    requires i < |k.ops| && (k'.ops == k.ops || k'.ops == k.ops[i := k.ops[i].(used := k.ops[i].used + 1)])
    ensures forall id :: Open(k, id) ==> Open(k', id)
  {
    forall id | Open(k, id) ensures Open(k', id) {
      var j :| 0 <= j < |k.ops| && k.ops[j].id == id;
      assert k'.ops[j].id == id;
    }
  }

  lemma BeginRefines(lay: L.Layout, k: State, l: L.State)
    requires Agrees(lay, k, l) && Enabled(lay, k, BeginOp)
    ensures L.Enabled(lay, l, L.BeginOp) && Agrees(lay, Do(lay, k, BeginOp), L.Do(lay, l, L.BeginOp))
  {
    var k' := Do(lay, k, BeginOp);
    SameCache(lay, k.c, l, L.Do(lay, l, L.BeginOp));
    hide CacheAgrees;
    forall p ensures ByOk(lay, k', p) {
      assert ByOk(lay, k, p);
      if p in k.c.use && k.c.use[p].Changed? {
        var j :| 0 <= j < |k.ops| && k.ops[j].id == k.author[p];
        assert k'.ops[j] == k.ops[j];
      }
    }
  }

  lemma SameCache(lay: L.Layout, c: C.State, l: L.State, l': L.State)
    requires CacheAgrees(lay, c, l) && l'.disk == l.disk && l'.pinned == l.pinned
    ensures CacheAgrees(lay, c, l')
  {
    hide C.Inv;
    forall n ensures DiskOk(lay, c, l', n) { assert DiskOk(lay, c, l, n); }
    forall key ensures LoggedOk(c, l', key) { assert LoggedOk(c, l, key); }
    forall n, b ensures PinOk(c, l', n, b) { assert PinOk(c, l, n, b); }
  }

  lemma EndRefines(lay: L.Layout, k: State, l: L.State, i: nat)
    requires Agrees(lay, k, l) && Enabled(lay, k, EndOp(i))
    ensures L.Enabled(lay, l, L.EndOp(i)) && Agrees(lay, Do(lay, k, EndOp(i)), L.Do(lay, l, L.EndOp(i)))
  {
    var k' := Do(lay, k, EndOp(i));
    SameCache(lay, k.c, l, L.Do(lay, l, L.EndOp(i)));
    hide CacheAgrees;
    forall p ensures ByOk(lay, k', p) {
      assert ByOk(lay, k, p);
      if p in k.c.use && k.c.use[p].Changed? {
        var j :| 0 <= j < |k.ops| && k.ops[j].id == k.author[p];
        assert k'.ops[if j < i then j else j - 1] == k.ops[j];
      }
    }
  }

  // ----- Steps of commit and recovery -----

  /** While the log commits or recovers, no operation is open, and its own blocks are not pinned. */
  lemma LogOwns(lay: L.Layout, base: L.Disk, l: L.State)
    requires S.Inv(lay, base, l)
    ensures !l.pc.Running? ==> l.ops == []
    ensures |l.disk| == lay.blocks && lay.Valid() && forall n :: n in l.pinned ==> lay.Home(n)
    ensures l.pc.WritingLog? ==> forall n :: n in l.lh ==> n in l.pinned
    ensures |l.lh| <= L.LOGSIZE && |l.lh| < lay.size && forall i :: 0 <= i < |l.lh| ==> lay.Home(l.lh[i])
    ensures l.pc.Installing? || l.pc.WritingLog? ==> l.pc.tail <= |l.lh|
    ensures l.pc.Down? ==> l.pinned == map[] && L.HeaderOk(lay, l.disk[lay.start])
  {
    hide S.CacheInv, S.History;
    if l.pc.Installing? {
      assert forall n :: n in l.pinned ==> n in l.lh[l.pc.tail..];
    }
  }

  lemma QuietBy(lay: L.Layout, k: State, k': State)
    requires Quiet(k'.c)
    ensures forall p :: ByOk(lay, k', p)
  {
  }

  lemma CopyRefines(lay: L.Layout, base: L.Disk, k: State, l: L.State, p: nat, q: nat)
    requires Agrees(lay, k, l) && S.Inv(lay, base, l) && Enabled(lay, k, CopyToLog(p, q))
    ensures L.Enabled(lay, l, L.CommitStep)
    ensures Agrees(lay, Do(lay, k, CopyToLog(p, q)), L.Do(lay, l, L.CommitStep))
  {
    hide S.Inv, CacheAgrees;
    LogOwns(lay, base, l);
    NoOpsQuiet(lay, k);
    var n := lay.Slot(k.pc.tail);
    ReadsPinned(lay, k.c, l, q, k.lh[k.pc.tail]);
    PutAgrees(lay, k.c, l, p, n, C.Of(k.c, q).data);
    var k', l' := Do(lay, k, CopyToLog(p, q)), L.Do(lay, l, L.CommitStep);
    SameCache(lay, k'.c, WithDisk(l, n, C.Of(k.c, q).data), l');
    QuietBy(lay, k, k');
  }

  lemma CommitRefines(lay: L.Layout, base: L.Disk, k: State, l: L.State, p: nat)
    requires Agrees(lay, k, l) && S.Inv(lay, base, l) && Enabled(lay, k, Commit(p))
    ensures L.Enabled(lay, l, L.CommitStep) && Agrees(lay, Do(lay, k, Commit(p)), L.Do(lay, l, L.CommitStep))
  {
    hide S.Inv, CacheAgrees, L.PutHeader;
    LogOwns(lay, base, l);
    NoOpsQuiet(lay, k);
    ReadsDisk(lay, k.c, l, p, lay.start);
    var data := L.PutHeader(C.Of(k.c, p).data, k.lh);
    PutAgrees(lay, k.c, l, p, lay.start, data);
    var k', l' := Do(lay, k, Commit(p)), L.Do(lay, l, L.CommitStep);
    SameCache(lay, k'.c, WithDisk(l, lay.start, data), l');
    QuietBy(lay, k, k');
  }

  lemma InstallRefines(lay: L.Layout, base: L.Disk, k: State, l: L.State, p: nat, q: nat)
    requires Agrees(lay, k, l) && S.Inv(lay, base, l) && Enabled(lay, k, Install(p, q))
    ensures var a := Abstract(lay, k, Install(p, q))[0];
            L.Enabled(lay, l, a) && Agrees(lay, Do(lay, k, Install(p, q)), L.Do(lay, l, a))
  {
    hide S.Inv, CacheAgrees, Unpinned;
    LogOwns(lay, base, l);
    NoOpsQuiet(lay, k);
    var t := k.pc.tail;
    var n := k.lh[t];
    ReadsDisk(lay, k.c, l, p, lay.Slot(t));
    var data := C.Of(k.c, p).data;
    PutAgrees(lay, k.c, l, q, n, data);
    var c, l1 := Put(k.c, q, n, data), WithDisk(l, n, data);
    var a := Abstract(lay, k, Install(p, q))[0];
    var k', l' := Do(lay, k, Install(p, q)), L.Do(lay, l, a);
    if k.pc.recovering {
      SameCache(lay, c, l1, l');
    } else {
      UnpinAgrees(lay, c, l1, n, k.c.use[q].b);
      assert l1.pinned - {n} == l'.pinned;
      SameCache(lay, k'.c, l1.(pinned := l1.pinned - {n}), l');
      InstalledRest(lay, base, l);
    }
    QuietBy(lay, k, k');
  }

  lemma InstalledRest(lay: L.Layout, base: L.Disk, l: L.State)
    requires S.Inv(lay, base, l) && PcOk(l) && l.pc.Installing? && !l.pc.recovering && l.pc.tail < |l.lh|
    ensures forall i :: l.pc.tail < i < |l.lh| ==> l.lh[i] in l.pinned - {l.lh[l.pc.tail]}
  {
    hide S.CacheInv, S.History, S.PcInv, S.Replays;
  }

  lemma ClearRefines(lay: L.Layout, base: L.Disk, k: State, l: L.State, p: nat)
    requires Agrees(lay, k, l) && S.Inv(lay, base, l) && Enabled(lay, k, Clear(p))
    ensures var a := Abstract(lay, k, Clear(p))[0];
            L.Enabled(lay, l, a) && Agrees(lay, Do(lay, k, Clear(p)), L.Do(lay, l, a))
  {
    hide S.Inv, CacheAgrees, L.PutHeader;
    LogOwns(lay, base, l);
    NoOpsQuiet(lay, k);
    ReadsDisk(lay, k.c, l, p, lay.start);
    var data := L.PutHeader(C.Of(k.c, p).data, []);
    PutAgrees(lay, k.c, l, p, lay.start, data);
    var k', l' := Do(lay, k, Clear(p)), L.Do(lay, l, Abstract(lay, k, Clear(p))[0]);
    SameCache(lay, k'.c, WithDisk(l, lay.start, data), l');
    QuietBy(lay, k, k');
  }

  lemma ReadHeadRefines(lay: L.Layout, base: L.Disk, k: State, l: L.State, p: nat)
    requires Agrees(lay, k, l) && S.Inv(lay, base, l) && Enabled(lay, k, ReadHead(p))
    ensures L.Enabled(lay, l, L.RecoverStep) && Agrees(lay, Do(lay, k, ReadHead(p)), L.Do(lay, l, L.RecoverStep))
  {
    hide S.Inv, CacheAgrees, L.Header, L.HeaderOk;
    LogOwns(lay, base, l);
    NoOpsQuiet(lay, k);
    ReadsDisk(lay, k.c, l, p, lay.start);
    var k', l' := Do(lay, k, ReadHead(p)), L.Do(lay, l, L.RecoverStep);
    SameCache(lay, k.c, l, l');
    QuietBy(lay, k, k');
  }

  lemma CrashRefines(lay: L.Layout, k: State, l: L.State, c: C.State)
    requires Agrees(lay, k, l) && Enabled(lay, k, Crash(c))
    ensures Agrees(lay, Do(lay, k, Crash(c)), L.Do(lay, l, L.Crash))
  {
    var l' := L.Do(lay, l, L.Crash);
    CS.InitInv(c);
    hide C.Inv;
    forall n ensures DiskOk(lay, c, l', n) { assert DiskOk(lay, k.c, l, n); }
    forall key ensures KeyOk(lay, c, key) { assert KeyOk(lay, k.c, key); }
  }

  // ----- Every run -----

  /** Every step is a step of the machine, or leaves it where it was. */
  lemma StepRefines(lay: L.Layout, base: L.Disk, k: State, l: L.State, a: Action)
    requires Agrees(lay, k, l) && S.Inv(lay, base, l) && Enabled(lay, k, a)
    ensures var steps := Abstract(lay, k, a);
            |steps| <= 1 && L.CanRun(lay, l, steps) && Agrees(lay, Do(lay, k, a), L.Exec(lay, l, steps))
  {
    hide Agrees, S.Inv, Enabled, Do, L.Enabled, L.Do;
    var steps := Abstract(lay, k, a);
    assert |steps| == 1 ==> steps[1..] == [];
    match a
    case Cache(b) => CacheRefines(lay, k, l, b);
    case Change(p, i, data) => ChangeRefines(lay, k, l, p, i, data);
    case LogWrite(p, i) => LogWriteRefines(lay, k, l, p, i);
    case BeginOp => BeginRefines(lay, k, l);
    case EndOp(i) => EndRefines(lay, k, l, i);
    case CopyToLog(p, q) => CopyRefines(lay, base, k, l, p, q);
    case Commit(p) => CommitRefines(lay, base, k, l, p);
    case Install(p, q) => InstallRefines(lay, base, k, l, p, q);
    case Clear(p) => ClearRefines(lay, base, k, l, p);
    case Finish => FinishRefines(lay, k, l);
    case Crash(c) => CrashRefines(lay, k, l, c); CanCrash(lay, l);
    case ReadHead(p) => ReadHeadRefines(lay, base, k, l, p);
  }

  lemma FinishRefines(lay: L.Layout, k: State, l: L.State)
    requires Agrees(lay, k, l) && Enabled(lay, k, Finish)
    ensures L.Enabled(lay, l, L.CommitStep) && Agrees(lay, Do(lay, k, Finish), L.Do(lay, l, L.CommitStep))
  {
    var k' := Do(lay, k, Finish);
    SameCache(lay, k.c, l, L.Do(lay, l, L.CommitStep));
    hide CacheAgrees;
    forall p ensures ByOk(lay, k', p) {
      assert ByOk(lay, k, p);
      assert forall id :: Open(k', id) <==> Open(k, id);
    }
  }

  lemma CanCrash(lay: L.Layout, l: L.State)
    ensures L.Enabled(lay, l, L.Crash)
  {
  }

  ghost predicate CanRun(lay: L.Layout, k: State, acts: seq<Action>)
    decreases |acts|
  {
    acts == [] || (Enabled(lay, k, acts[0]) && CanRun(lay, Do(lay, k, acts[0]), acts[1..]))
  }

  ghost function Exec(lay: L.Layout, k: State, acts: seq<Action>): State
    requires CanRun(lay, k, acts)
    decreases |acts|
  {
    if acts == [] then k else Exec(lay, Do(lay, k, acts[0]), acts[1..])
  }

  /** What the machine did during a run. */
  ghost function Steps(lay: L.Layout, k: State, acts: seq<Action>): seq<L.Action>
    requires CanRun(lay, k, acts)
    decreases |acts|
  {
    if acts == [] then [] else Abstract(lay, k, acts[0]) + Steps(lay, Do(lay, k, acts[0]), acts[1..])
  }

  lemma {:induction false} RunRefines(lay: L.Layout, base: L.Disk, k: State, l: L.State, acts: seq<Action>)
    requires Agrees(lay, k, l) && S.Inv(lay, base, l) && CanRun(lay, k, acts)
    ensures var steps := Steps(lay, k, acts);
            && L.CanRun(lay, l, steps) && Agrees(lay, Exec(lay, k, acts), L.Exec(lay, l, steps))
            && S.Inv(lay, base, L.Exec(lay, l, steps))
    decreases |acts|
  {
    hide Agrees, S.Inv, Enabled, Do, Abstract, L.Enabled, L.Do;
    if acts != [] {
      var one := Abstract(lay, k, acts[0]);
      StepRefines(lay, base, k, l, acts[0]);
      S.RunKeeps(lay, base, l, one);
      RunRefines(lay, base, Do(lay, k, acts[0]), L.Exec(lay, l, one), acts[1..]);
      RunThen(lay, l, one, Steps(lay, Do(lay, k, acts[0]), acts[1..]));
    }
  }

  lemma {:induction false} RunThen(lay: L.Layout, l: L.State, a: seq<L.Action>, b: seq<L.Action>)
    requires L.CanRun(lay, l, a) && L.CanRun(lay, L.Exec(lay, l, a), b)
    ensures L.CanRun(lay, l, a + b) && L.Exec(lay, l, a + b) == L.Exec(lay, L.Exec(lay, l, a), b)
    decreases |a|
  {
    if a == [] {
      assert a + b == b;
    } else {
      assert (a + b)[0] == a[0] && (a + b)[1..] == a[1..] + b;
      RunThen(lay, L.Do(lay, l, a[0]), a[1..], b);
    }
  }

  /** A disk with an empty log, before anything is cached. */
  ghost predicate Init(lay: L.Layout, k: State) {
    && lay.Valid() && C.Init(k.c) && k == State(k.c, [], [], L.Running, 0, map[])
    && (forall n :: 0 <= n < lay.blocks ==> At(n) in k.c.disk && |k.c.disk[At(n)]| == L.BLOCK_WORDS)
    && (forall key :: KeyOk(lay, k.c, key))
    && L.HeaderOk(lay, k.c.disk[At(lay.start)]) && k.c.disk[At(lay.start)][0] == 0
  }

  ghost function Image(lay: L.Layout, k: State): L.Disk
    requires Init(lay, k)
  {
    seq(lay.blocks, n requires 0 <= n < lay.blocks => k.c.disk[At(n)])
  }

  /** The machine that starts from the same disk. */
  ghost function Machine(lay: L.Layout, k: State): L.State
    requires Init(lay, k)
  {
    L.State(Image(lay, k), map[], [], [], L.Running, 0, [], [])
  }

  lemma InitAgrees(lay: L.Layout, k: State)
    requires Init(lay, k)
    ensures L.Init(lay, Machine(lay, k)) && Agrees(lay, k, Machine(lay, k))
            && S.Inv(lay, Image(lay, k), Machine(lay, k))
  {
    CS.InitInv(k.c);
    S.InitInv(lay, Machine(lay, k));
  }

  /** Where the machine is after a run of log and cache. */
  ghost function After(lay: L.Layout, k: State, acts: seq<Action>): (l: L.State)
    requires Init(lay, k) && CanRun(lay, k, acts)
    ensures L.CanRun(lay, Machine(lay, k), Steps(lay, k, acts))
            && l == L.Exec(lay, Machine(lay, k), Steps(lay, k, acts))
    ensures Agrees(lay, Exec(lay, k, acts), l) && S.Inv(lay, Image(lay, k), l)
  {
    InitAgrees(lay, k);
    RunRefines(lay, Image(lay, k), k, Machine(lay, k), acts);
    L.Exec(lay, Machine(lay, k), Steps(lay, k, acts))
  }

  /** In every run of processes, commits, crashes and recoveries on one cache, whenever the log
      is in service the home blocks on disk are those that the committed groups of whole
      operations leave, and no part of any other. */
  lemma DiskIsCommitted(lay: L.Layout, k: State, acts: seq<Action>, n: nat)
    requires Init(lay, k) && CanRun(lay, k, acts) && lay.Home(n) && Exec(lay, k, acts).pc.Running?
    ensures var groups := After(lay, k, acts).groups;
            && (forall g :: g in groups ==> L.Whole(g))
            && At(n) in Exec(lay, k, acts).c.disk
            && Exec(lay, k, acts).c.disk[At(n)] == L.AfterAll(Image(lay, k), groups)[n]
  {
    hide Init, Image, C.Inv, L.AfterAll, L.Whole;
    var l := After(lay, k, acts);
    assert DiskOk(lay, Exec(lay, k, acts).c, l, n);
  }

  /** And whoever holds a block, with no change to it under way, has what the committed groups
      and the operations since leave in it. */
  lemma ReadsNewest(lay: L.Layout, k: State, acts: seq<Action>, p: nat, n: nat)
    requires Init(lay, k) && CanRun(lay, k, acts) && lay.Home(n) && Exec(lay, k, acts).pc.Running?
    requires var c := Exec(lay, k, acts).c; Holds(c, p, n) && !C.ChangedBySome(c, c.use[p].b)
    ensures var l := After(lay, k, acts);
            C.Of(Exec(lay, k, acts).c, p).data == L.After(L.AfterAll(Image(lay, k), l.groups), l.group)[n]
  {
    hide Init, L.AfterAll, L.After;
    var c, l := Exec(lay, k, acts).c, After(lay, k, acts);
    InitAgrees(lay, k);
    S.ReadsNewest(lay, Machine(lay, k), Steps(lay, k, acts), n);
    var b := c.use[p].b;
    assert DiskOk(lay, c, l, n) && LoggedOk(c, l, At(n)) && PinOk(c, l, n, b) && C.BufOk(c, b);
  }

  /** Nothing that was committed is lost, through crashes as well. */
  lemma CommittedStays(lay: L.Layout, k: State, acts: seq<Action>, more: seq<Action>)
    requires Init(lay, k) && CanRun(lay, k, acts) && CanRun(lay, Exec(lay, k, acts), more)
    ensures CanRun(lay, k, acts + more) && After(lay, k, acts).groups <= After(lay, k, acts + more).groups
  {
    hide Init, Agrees, S.Inv;
    var k1, l1 := Exec(lay, k, acts), After(lay, k, acts);
    StepsThen(lay, k, acts, more);
    RunRefines(lay, Image(lay, k), k1, l1, more);
    RunThen(lay, Machine(lay, k), Steps(lay, k, acts), Steps(lay, k1, more));
    S.GroupsGrow(lay, l1, Steps(lay, k1, more));
  }

  lemma {:induction false} StepsThen(lay: L.Layout, k: State, a: seq<Action>, b: seq<Action>)
    requires CanRun(lay, k, a) && CanRun(lay, Exec(lay, k, a), b)
    ensures CanRun(lay, k, a + b) && Steps(lay, k, a + b) == Steps(lay, k, a) + Steps(lay, Exec(lay, k, a), b)
    decreases |a|
  {
    hide Do, Enabled, Abstract;
    if a == [] {
      assert a + b == b;
    } else {
      assert (a + b)[0] == a[0] && (a + b)[1..] == a[1..] + b;
      StepsThen(lay, Do(lay, k, a[0]), a[1..], b);
    }
  }
}
