/** The buffer cache of kernel/bio.c as a state machine over the steps of any number of
    processes. The steps that bcache.lock covers are atomic; a buffer's contents are used under
    its sleeplock.

    A process may use several buffers at once, so what the machine follows are references: a
    reference p is made by bget and lasts until brelse. Callers keep to bread, modify, log_write
    or bwrite, brelse. The log pins the buffers of the
    blocks in its header and unpins them when they have been installed. */
module BcacheModel {
  const NBUF: nat := 30

  type Data = seq<int>

  datatype Key = Key(dev: nat, blockno: nat)

  datatype Buf = Buf(valid: bool, key: Key, refcnt: nat, data: Data)

  /** The state of a reference to buffer b: waiting for its lock, holding it with contents that
      are as on disk or pinned by the log, holding it with a change that is neither, or done
      with it but still counted. */
  datatype Use = Waits(b: nat) | Holds(b: nat) | Changed(b: nat) | Leaves(b: nat)

  predicate HasLock(u: Use) { u.Holds? || u.Changed? }

  /** `order` is the list from head.next on; `stamp` has the time of each buffer's last release. */
  datatype State = State(
    buf: seq<Buf>, order: seq<nat>, stamp: seq<nat>, clock: nat,
    disk: map<Key, Data>, logged: set<Key>, use: map<nat, Use>)

  datatype Action =
    | Get(p: nat, key: Key)
    | Lock(p: nat)
    | Read(p: nat)
    | Modify(p: nat, key: Key, data: Data)
    | LogWrite(p: nat)
    | Write(p: nat)
    | Unlock(p: nat)      // releasesleep in brelse
    | Release(p: nat)     // the rest of brelse
    | Install(key: Key)

  // ----- The two scans of bget -----

  /** The first buffer for the block in list order, or |buf|. */
  function Find(buf: seq<Buf>, order: seq<nat>, key: Key): (b: nat)
    requires forall i :: 0 <= i < |order| ==> order[i] < |buf|
    ensures b <= |buf|
    ensures b < |buf| ==> b in order && buf[b].key == key
    ensures b == |buf| ==> forall i :: 0 <= i < |order| ==> buf[order[i]].key != key
  {
    if order == [] then |buf|
    else if buf[order[0]].key == key then order[0]
    else Find(buf, order[1..], key)
  }

  /** The last buffer in list order that nobody refers to, or |buf|. */
  function Victim(buf: seq<Buf>, order: seq<nat>): (b: nat)
    requires forall i :: 0 <= i < |order| ==> order[i] < |buf|
    ensures b <= |buf|
    ensures b < |buf| ==> exists i :: 0 <= i < |order| && order[i] == b && buf[b].refcnt == 0 && forall j ::
              i < j < |order| ==> buf[order[j]].refcnt != 0
    ensures b == |buf| ==> forall i :: 0 <= i < |order| ==> buf[order[i]].refcnt != 0
  {
    if order == [] then |buf|
    else
      var n := |order| - 1;
      if buf[order[n]].refcnt == 0 then assert order[n] == order[n]; order[n] else
        var r := Victim(buf, order[..n]);
        assert forall i :: 0 <= i < n ==> order[..n][i] == order[i];
        r
  }

  /** The buffer that bget returns. */
  function Got(buf: seq<Buf>, order: seq<nat>, key: Key): nat
    requires forall i :: 0 <= i < |order| ==> order[i] < |buf|
  {
    if Find(buf, order, key) < |buf| then Find(buf, order, key) else Victim(buf, order)
  }

  /** The buffers after bget: one more reference to the block's buffer, or a buffer that is
      given to the block. */
  function GotBufs(buf: seq<Buf>, order: seq<nat>, key: Key): seq<Buf>
    requires (forall i :: 0 <= i < |order| ==> order[i] < |buf|) && Got(buf, order, key) < |buf|
  {
    var b := Got(buf, order, key);
    if Find(buf, order, key) < |buf| then buf[b := buf[b].(refcnt := buf[b].refcnt + 1)]
    else buf[b := buf[b].(valid := false, key := key, refcnt := 1)]
  }

  /** The buffers after brelse. */
  function Dropped(buf: seq<Buf>, b: nat): seq<Buf>
    requires b < |buf| && buf[b].refcnt > 0
  {
    buf[b := buf[b].(refcnt := buf[b].refcnt - 1)]
  }

  function IndexOf(order: seq<nat>, b: nat): (k: nat)
    requires b in order
    ensures k < |order| && order[k] == b
  {
    if order[0] == b then 0 else IndexOf(order[1..], b) + 1
  }

  function MovedToFront(order: seq<nat>, b: nat): seq<nat>
    requires b in order
  {
    var k := IndexOf(order, b);
    [b] + order[..k] + order[k + 1..]
  }

  // ----- Steps -----

  ghost predicate Shape(s: State) {
    && |s.buf| == NBUF && |s.order| == NBUF && |s.stamp| == NBUF
    && (forall i :: 0 <= i < NBUF ==> s.order[i] < NBUF)
    && (forall i, j :: 0 <= i < j < NBUF ==> s.order[i] != s.order[j])
    && (forall b :: 0 <= b < NBUF ==> b in s.order)
  }

  predicate Has(s: State, p: nat) {
    p in s.use && s.use[p].b < |s.buf|
  }

  function Of(s: State, p: nat): Buf
    requires Has(s, p)
  {
    s.buf[s.use[p].b]
  }

  ghost predicate Held(s: State, b: nat) {
    exists q :: q in s.use && s.use[q].b == b && HasLock(s.use[q])
  }

  ghost predicate Enabled(s: State, a: Action)
    requires Shape(s)
  {
    match a
    case Get(p, key) =>
      p !in s.use && key.dev > 0 && key in s.disk && (Find(s.buf, s.order, key) < NBUF || Victim(s.buf, s.order) < NBUF)
    case Lock(p) => Has(s, p) && s.use[p].Waits? && !Held(s, s.use[p].b)
    case Read(p) => Has(s, p) && s.use[p].Holds? && Of(s, p).key in s.disk
    case Modify(p, key, _) => Has(s, p) && HasLock(s.use[p]) && Of(s, p).valid && Of(s, p).key == key
    case LogWrite(p) => Has(s, p) && HasLock(s.use[p]) && Of(s, p).valid
    case Write(p) => Has(s, p) && HasLock(s.use[p]) && Of(s, p).valid
    case Unlock(p) => Has(s, p) && s.use[p].Holds?
    case Release(p) => Has(s, p) && s.use[p].Leaves? && Of(s, p).refcnt > 0
    case Install(key) =>
      var b := Find(s.buf, s.order, key);
      key in s.logged && b < NBUF && s.buf[b].refcnt > 0 && forall p :: p in s.use ==> s.use[p] != Changed(b)
  }

  ghost function Do(s: State, a: Action): State
    requires Shape(s) && Enabled(s, a)
  {
    match a
    case Get(p, key) =>
      s.(buf := GotBufs(s.buf, s.order, key), use := s.use[p := Waits(Got(s.buf, s.order, key))])
    case Lock(p) => s.(use := s.use[p := Holds(s.use[p].b)])
    case Read(p) =>
      var b := s.use[p].b;
      if s.buf[b].valid then s else s.(buf := s.buf[b := s.buf[b].(valid := true, data := s.disk[s.buf[b].key])])
    case Modify(p, _, data) =>
      var b := s.use[p].b;
      s.(buf := s.buf[b := s.buf[b].(data := data)], use := s.use[p := Changed(b)])
    case LogWrite(p) =>
      var b := s.use[p].b;
      var s1 := s.(use := s.use[p := Holds(b)]);
      if s.buf[b].key in s.logged then s1 else
        s1.(buf := s.buf[b := s.buf[b].(refcnt := s.buf[b].refcnt + 1)], logged := s.logged + {s.buf[b].key})
    case Write(p) =>
      var b := s.use[p].b;
      s.(disk := s.disk[s.buf[b].key := s.buf[b].data], use := s.use[p := Holds(b)])
    case Unlock(p) => s.(use := s.use[p := Leaves(s.use[p].b)])
    case Release(p) =>
      var b := s.use[p].b;
      var s1 := s.(buf := Dropped(s.buf, b), use := s.use - {p});
      if s1.buf[b].refcnt > 0 then s1 else
        s1.(stamp := s.stamp[b := s.clock + 1], order := MovedToFront(s.order, b), clock := s.clock + 1)
    case Install(key) =>
      var b := Find(s.buf, s.order, key);
      s.(buf := s.buf[b := s.buf[b].(refcnt := s.buf[b].refcnt - 1)], disk := s.disk[key := s.buf[b].data],
          logged := s.logged - {key})
  }

  // ----- Invariant -----

  ghost function Users(use: map<nat, Use>, b: nat): set<nat> {
    set p | p in use && use[p].b == b
  }

  ghost predicate ChangedBySome(s: State, b: nat) {
    exists p :: p in s.use && s.use[p] == Changed(b)
  }

  /** The reference count is the number of references to the buffer, plus one while its
      block is in the log; contents differ from the disk only when the block is in the log or a
      change is under way. */
  ghost predicate BufOk(s: State, b: nat) {
    b < |s.buf| ==>
      var x := s.buf[b];
      && x.refcnt == |Users(s.use, b)| + (if x.key in s.logged then 1 else 0)
      && (x.key.dev > 0 ==> x.key in s.disk)
      && (x.key.dev == 0 ==> x.refcnt == 0)
      && (x.valid && x.key.dev > 0 && x.key !in s.logged && !ChangedBySome(s, b) ==> x.data == s.disk[x.key])
  }

  ghost predicate UseOk(s: State, p: nat) {
    p in s.use ==>
      && s.use[p].b < |s.buf| && s.buf[s.use[p].b].key.dev > 0
      && (s.use[p].Changed? ==> s.buf[s.use[p].b].valid)
  }

  /** One reference at a time holds the lock of a buffer. */
  ghost predicate HoldOk(s: State, p: nat, q: nat) {
    p in s.use && q in s.use && p != q && HasLock(s.use[p]) && HasLock(s.use[q]) ==> s.use[p].b != s.use[q].b
  }

  /** A block is in one buffer at a time. */
  ghost predicate KeyOk(s: State, b: nat, c: nat) {
    b < |s.buf| && c < |s.buf| && b != c && s.buf[b].key.dev > 0 ==> s.buf[b].key != s.buf[c].key
  }

  ghost predicate Caches(s: State, b: nat, key: Key) {
    b < |s.buf| && s.buf[b].key == key && s.buf[b].valid
  }

  /** A block in the log is in the cache. */
  ghost predicate LogOk(s: State, key: Key) {
    key in s.logged ==> key.dev > 0 && key in s.disk && exists b :: Caches(s, b, key)
  }

  /** The list is in the order of the last release. */
  ghost predicate Sorted(s: State)
    requires Shape(s)
  {
    && (forall i, j :: 0 <= i < j < NBUF ==> s.stamp[s.order[i]] >= s.stamp[s.order[j]])
    && (forall b :: 0 <= b < NBUF ==> s.stamp[b] <= s.clock)
  }

  ghost predicate Inv(s: State) {
    && Shape(s) && Sorted(s)
    && (forall b :: BufOk(s, b)) && (forall p :: UseOk(s, p)) && (forall p, q :: HoldOk(s, p, q))
    && (forall b, c :: KeyOk(s, b, c)) && (forall key :: LogOk(s, key))
  }

  /** What the cache and the disk together hold of a block. */
  ghost function Now(s: State, key: Key): Data
    requires Shape(s) && key in s.disk
  {
    var b := Find(s.buf, s.order, key);
    if b < NBUF && s.buf[b].valid then s.buf[b].data else s.disk[key]
  }

  // ----- Runs -----

  /** After binit: no buffer holds a block. */
  ghost predicate Init(s: State) {
    && Shape(s) && s.logged == {} && s.use == map[] && s.clock == 0
    && forall b :: 0 <= b < NBUF ==> !s.buf[b].valid && s.buf[b].key.dev == 0 && s.buf[b].refcnt == 0 && s.stamp[b] == 0
  }

  ghost predicate CanRun(s: State, acts: seq<Action>)
    decreases |acts|, 0
  {
    acts == [] || (var n := |acts| - 1;
      CanRun(s, acts[..n]) && Shape(Exec(s, acts[..n])) && Enabled(Exec(s, acts[..n]), acts[n]))
  }

  ghost function Exec(s: State, acts: seq<Action>): State
    requires CanRun(s, acts)
    decreases |acts|, 1
  {
    if acts == [] then s else Do(Exec(s, acts[..|acts| - 1]), acts[|acts| - 1])
  }

  /** The contents of a block after the changes of a run to a disk. */
  function After(disk: map<Key, Data>, acts: seq<Action>, key: Key): Data
    requires key in disk
  {
    if acts == [] then disk[key] else
      var a := acts[|acts| - 1];
      if a.Modify? && a.key == key then a.data else After(disk, acts[..|acts| - 1], key)
  }
}
