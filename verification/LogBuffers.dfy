/** Whether a commit finds a buffer. The log pins a buffer for every block it has logged and needs
    one more for its own blocks, but NBUF, the number of buffers, is LOGSIZE, the number of blocks
    that may be logged (kernel/param.h). */
module LogBuffers {
  import opened Basics
  import opened Params
  import L = LogMachine
  import S = LogCrashSafety
  import P = LogSpace
  import C = BcacheModel
  import CS = BcacheSafety
  import K = LogCache

  // ----- Counting buffers -----

  ghost function Referenced(c: C.State): set<nat> {
    set b | 0 <= b < |c.buf| && c.buf[b].refcnt > 0
  }

  lemma SomeFree(c: C.State)
    requires |c.buf| == C.NBUF
    ensures (exists b :: 0 <= b < C.NBUF && c.buf[b].refcnt == 0) <==> |Referenced(c)| < C.NBUF
  {
    hide Upto;
    if b :| 0 <= b < C.NBUF && c.buf[b].refcnt == 0 {
      SubsetSize(Referenced(c), Upto(C.NBUF) - {b});
    } else {
      assert Referenced(c) == Upto(C.NBUF);
    }
  }

  /** bget finds a buffer unless the block is not cached and all are referred to. */
  lemma BufferIff(c: C.State, p: nat, key: C.Key)
    requires C.Inv(c) && p !in c.use && key.dev > 0 && key in c.disk
    ensures C.Enabled(c, C.Get(p, key)) <==>
            (exists b :: 0 <= b < C.NBUF && c.buf[b].key == key) || |Referenced(c)| < C.NBUF
  {
    hide C.Inv, C.Enabled, Referenced;
    CS.InvShape(c);
    CS.NoBuffers(c, p, key);
    SomeFree(c);
  }

  ghost function UserBufs(use: map<nat, C.Use>): set<nat> {
    set p | p in use :: use[p].b
  }

  lemma {:induction false} UserBufsSize(use: map<nat, C.Use>)
    ensures |UserBufs(use)| <= |use|
    decreases |use|
  {
    if use != map[] {
      var p :| p in use;
      var rest := use - {p};
      UserBufsSize(rest);
      forall b | b in UserBufs(use) ensures b in UserBufs(rest) + {use[p].b} {
        var q :| q in use && use[q].b == b;
        if q != p { assert q in rest && rest[q].b == b; }
      }
      SubsetSize(UserBufs(use), UserBufs(rest) + {use[p].b});
    }
  }

  /** The buffers of the first j blocks in the log: one each, all referred to. */
  lemma {:induction false} LoggedBufs(lay: L.Layout, c: C.State, l: L.State, j: nat) returns (s: set<nat>)
    requires K.CacheAgrees(lay, c, l) && S.Distinct(l.lh) && j <= |l.lh|
    requires forall i :: 0 <= i < |l.lh| ==> l.lh[i] in l.pinned
    ensures |s| == j && s <= Referenced(c)
    ensures forall b :: b in s <==> exists i :: 0 <= i < j && C.Caches(c, b, K.At(l.lh[i]))
  {
    if j == 0 {
      s := {};
    } else {
      var r := LoggedBufs(lay, c, l, j - 1);
      var key := K.At(l.lh[j - 1]);
      assert K.LoggedOk(c, l, key) && C.LogOk(c, key);
      var b :| C.Caches(c, b, key);
      assert C.BufOk(c, b);
      K.UniqueBuffer(c, b, key);
      s := r + {b};
    }
  }

  /** The log and the users refer to as many buffers as they have blocks, or fewer when they
      share. */
  lemma ReferencedBounds(lay: L.Layout, base: L.Disk, c: C.State, l: L.State)
    requires K.CacheAgrees(lay, c, l) && S.Inv(lay, base, l) && (l.pc.Running? || l.pc.WritingLog?)
    ensures |l.lh| <= |Referenced(c)| <= |l.lh| + |c.use|
  {
    AllPinned(lay, base, l);
    var s := LoggedBufs(lay, c, l, |l.lh|);
    SubsetSize(s, Referenced(c));
    var u := UserBufs(c.use);
    UserBufsSize(c.use);
    forall b | b in Referenced(c) ensures b in s + u {
      assert C.BufOk(c, b);
      if b !in u {
        assert C.Users(c.use, b) == {};
        LoggedIn(lay, c, l, b);
      }
    }
    SubsetSize(Referenced(c), s + u);
  }

  lemma AllPinned(lay: L.Layout, base: L.Disk, l: L.State)
    requires S.Inv(lay, base, l) && (l.pc.Running? || l.pc.WritingLog?)
    ensures S.Distinct(l.lh) && |l.lh| < lay.size && forall n :: n in l.pinned <==> n in l.lh
    ensures forall i :: 0 <= i < |l.lh| ==> l.lh[i] in l.pinned && lay.Home(l.lh[i])
  {
    hide S.CacheInv, S.History, S.Replays;
  }

  /** The buffer of a block in the log. */
  lemma LoggedIn(lay: L.Layout, c: C.State, l: L.State, b: nat)
    requires K.CacheAgrees(lay, c, l) && b < |c.buf| && c.buf[b].key in c.logged
    requires forall n :: n in l.pinned <==> n in l.lh
    ensures exists i :: 0 <= i < |l.lh| && C.Caches(c, b, K.At(l.lh[i]))
  {
    var key := c.buf[b].key;
    assert K.LoggedOk(c, l, key) && C.LogOk(c, key);
    var x :| C.Caches(c, x, key);
    K.UniqueBuffer(c, b, key);
    var i :| 0 <= i < |l.lh| && l.lh[i] == key.blockno;
    assert C.Caches(c, b, K.At(l.lh[i]));
  }

  // ----- A buffer for the log -----

  /** While the log is written, bget of a block of the log itself finds a buffer if the pinned ones
      and those in use leave one, and never when all are pinned. */
  lemma LogBuffer(lay: L.Layout, base: L.Disk, k: K.State, l: L.State, p: nat, n: nat)
    requires K.Agrees(lay, k, l) && S.Inv(lay, base, l) && k.pc.WritingLog?
    requires p !in k.c.use && lay.start <= n < lay.start + lay.size
    ensures |k.lh| + |k.c.use| < C.NBUF ==> C.Enabled(k.c, C.Get(p, K.At(n)))
    ensures |k.lh| >= C.NBUF ==> !C.Enabled(k.c, C.Get(p, K.At(n)))
  {
    AllPinned(lay, base, l);
    ReferencedBounds(lay, base, k.c, l);
    assert K.DiskOk(lay, k.c, l, n);
    BufferIff(k.c, p, K.At(n));
    if |k.lh| >= C.NBUF {
      var s := LoggedBufs(lay, k.c, l, |l.lh|);
      FullSet(s, C.NBUF);
      forall b | 0 <= b < C.NBUF ensures k.c.buf[b].key != K.At(n) { assert b in s; }
      SubsetSize(s, Referenced(k.c));
    }
  }

  lemma FullSet(s: set<nat>, n: nat)
    requires |s| >= n && forall x :: x in s ==> x < n
    ensures forall x: nat :: x < n ==> x in s
  {
    hide Upto;
    forall x: nat | x < n ensures x in s {
      if x !in s { SubsetSize(s, Upto(n) - {x}); }
    }
  }

  /** The commit has to copy a block to its slot, nobody else uses a buffer, and bget panics. */
  ghost predicate Stuck(lay: L.Layout, k: K.State) {
    && C.Shape(k.c) && k.pc.WritingLog? && k.pc.tail < |k.lh| && k.c.use == map[]
    && forall p: nat :: !C.Enabled(k.c, C.Get(p, K.At(lay.Slot(k.pc.tail))))
  }

  lemma StuckIff(lay: L.Layout, base: L.Disk, k: K.State, l: L.State)
    requires K.Agrees(lay, k, l) && S.Inv(lay, base, l)
    requires k.pc.WritingLog? && k.pc.tail < |k.lh| && k.c.use == map[]
    ensures Stuck(lay, k) <==> |k.lh| >= C.NBUF
  {
    AllPinned(lay, base, l);
    forall p: nat ensures C.Enabled(k.c, C.Get(p, K.At(lay.Slot(k.pc.tail)))) <==> |k.lh| < C.NBUF {
      LogBuffer(lay, base, k, l, p, lay.Slot(k.pc.tail));
    }
    assert C.Enabled(k.c, C.Get(0, K.At(lay.Slot(k.pc.tail)))) <==> |k.lh| < C.NBUF;
  }

  // ----- A run that pins every buffer -----

  lemma {:induction false} ExecThen(lay: L.Layout, k: K.State, a: seq<K.Action>, b: seq<K.Action>)
    requires K.CanRun(lay, k, a) && K.CanRun(lay, K.Exec(lay, k, a), b)
    ensures K.CanRun(lay, k, a + b) && K.Exec(lay, k, a + b) == K.Exec(lay, K.Exec(lay, k, a), b)
    decreases |a|
  {
    hide K.Do, K.Enabled;
    if a == [] {
      assert a + b == b;
    } else {
      assert (a + b)[0] == a[0] && (a + b)[1..] == a[1..] + b;
      ExecThen(lay, K.Do(lay, k, a[0]), a[1..], b);
    }
  }

  /** A run from k to k', which the machine takes from l to l' with these steps. */
  ghost predicate Runs(lay: L.Layout, base: L.Disk, k: K.State, l: L.State, acts: seq<K.Action>, steps: seq<L.Action>,
                       k': K.State, l': L.State)
  {
    && K.CanRun(lay, k, acts) && K.Exec(lay, k, acts) == k' && K.Steps(lay, k, acts) == steps
    && L.CanRun(lay, l, steps) && L.Exec(lay, l, steps) == l' && K.Agrees(lay, k', l') && S.Inv(lay, base, l')
  }

  lemma RunsOne(lay: L.Layout, base: L.Disk, k: K.State, l: L.State, a: K.Action)
    requires K.Agrees(lay, k, l) && S.Inv(lay, base, l) && K.Enabled(lay, k, a)
    ensures var steps := K.Abstract(lay, k, a);
            && L.CanRun(lay, l, steps)
            && Runs(lay, base, k, l, [a], steps, K.Do(lay, k, a), L.Exec(lay, l, steps))
  {
    hide K.Agrees, S.Inv, K.Enabled, K.Do, K.Abstract;
    K.StepRefines(lay, base, k, l, a);
    S.RunKeeps(lay, base, l, K.Abstract(lay, k, a));
    assert [a][1..] == [] && K.CanRun(lay, K.Do(lay, k, a), []);
    assert K.Exec(lay, k, [a]) == K.Exec(lay, K.Do(lay, k, a), []) == K.Do(lay, k, a);
    assert K.Steps(lay, K.Do(lay, k, a), []) == [];
    assert K.Steps(lay, k, [a]) == K.Abstract(lay, k, a) + [] == K.Abstract(lay, k, a);
  }

  lemma RunsThen(lay: L.Layout, base: L.Disk, k: K.State, l: L.State, a: seq<K.Action>, sa: seq<L.Action>,
                 k1: K.State, l1: L.State, b: seq<K.Action>, sb: seq<L.Action>, k2: K.State, l2: L.State)
    requires Runs(lay, base, k, l, a, sa, k1, l1) && Runs(lay, base, k1, l1, b, sb, k2, l2)
    ensures Runs(lay, base, k, l, a + b, sa + sb, k2, l2)
  {
    hide K.Agrees, S.Inv, K.Enabled, K.Do, K.Abstract, L.Do, L.Enabled;
    ExecThen(lay, k, a, b);
    K.StepsThen(lay, k, a, b);
    K.RunThen(lay, l, sa, sb);
  }

  /** A step of the cache alone. */
  lemma RunsPlain(lay: L.Layout, base: L.Disk, k: K.State, l: L.State, a: C.Action)
    requires K.Agrees(lay, k, l) && S.Inv(lay, base, l) && C.Shape(k.c) && K.Plain(a) && C.Enabled(k.c, a)
    ensures var k' := k.(c := C.Do(k.c, a));
            Runs(lay, base, k, l, [K.Cache(a)], [], k', l) && K.Agrees(lay, k', l) && C.Inv(k'.c)
  {
    hide K.Agrees, S.Inv, C.Inv;
    RunsOne(lay, base, k, l, K.Cache(a));
    AgreesInv(lay, k.(c := C.Do(k.c, a)), l);
  }

  lemma AgreesInv(lay: L.Layout, k: K.State, l: L.State)
    requires K.Agrees(lay, k, l)
    ensures C.Inv(k.c) && C.Shape(k.c)
  {
  }

  /** bget of a block, when nobody uses a buffer. */
  lemma GetsIt(c: C.State, key: C.Key)
    requires C.Shape(c) && c.use == map[] && C.Enabled(c, C.Get(0, key))
    ensures var c' := C.Do(c, C.Get(0, key));
            && c'.disk == c.disk && c'.use.Keys == {0} && c'.use[0].Waits?
            && c'.use[0].b < |c'.buf| && c'.buf[c'.use[0].b].key == key
  {
  }

  lemma LocksIt(c: C.State)
    requires C.Shape(c) && c.use.Keys == {0} && c.use[0].Waits? && c.use[0].b < |c.buf|
    ensures C.Enabled(c, C.Lock(0)) && C.Do(c, C.Lock(0)) == c.(use := map[0 := C.Holds(c.use[0].b)])
  {
  }

  lemma ReadsIt(c: C.State, key: C.Key)
    requires C.Shape(c) && c.use.Keys == {0} && c.use[0].Holds? && c.use[0].b < |c.buf|
    requires c.buf[c.use[0].b].key == key && key in c.disk
    ensures C.Enabled(c, C.Read(0))
    ensures var c' := C.Do(c, C.Read(0));
            c'.use == c.use && |c'.buf| == |c.buf| && c'.buf[c.use[0].b].valid && c'.buf[c.use[0].b].key == key
  {
  }

  lemma CanGet(lay: L.Layout, base: L.Disk, k: K.State, l: L.State, n: nat)
    requires K.Agrees(lay, k, l) && S.Inv(lay, base, l) && k.pc.Running? && k.c.use == map[]
    requires n < lay.blocks && |k.lh| < C.NBUF
    ensures C.Shape(k.c) && C.Enabled(k.c, C.Get(0, K.At(n))) && K.At(n) in k.c.disk
  {
    assert K.DiskOk(lay, k.c, l, n);
    ReferencedBounds(lay, base, k.c, l);
    BufferIff(k.c, 0, K.At(n));
  }

  /** bread of a block, when a buffer is left and nobody uses one. */
  lemma Fetches(lay: L.Layout, base: L.Disk, k: K.State, l: L.State, n: nat) returns (acts: seq<K.Action>, k': K.State)
    requires K.Agrees(lay, k, l) && S.Inv(lay, base, l) && k.pc.Running? && k.c.use == map[]
    requires n < lay.blocks && |k.lh| < C.NBUF
    ensures Runs(lay, base, k, l, acts, [], k', l) && k' == k.(c := k'.c) && C.Shape(k'.c)
    ensures k'.c.use.Keys == {0} && k'.c.use[0].Holds? && K.Holds(k'.c, 0, n)
  {
    hide S.Inv, C.Inv, K.Agrees, K.CacheAgrees, Runs, C.Enabled, C.Do, C.Shape;
    var key, none: seq<L.Action> := K.At(n), [];
    assert none + none == none;
    CanGet(lay, base, k, l, n);
    GetsIt(k.c, key);
    RunsPlain(lay, base, k, l, C.Get(0, key));
    var k1 := k.(c := C.Do(k.c, C.Get(0, key)));
    AgreesInv(lay, k1, l);
    LocksIt(k1.c);
    RunsPlain(lay, base, k1, l, C.Lock(0));
    var k2 := k1.(c := C.Do(k1.c, C.Lock(0)));
    AgreesInv(lay, k2, l);
    ReadsIt(k2.c, key);
    RunsPlain(lay, base, k2, l, C.Read(0));
    k' := k2.(c := C.Do(k2.c, C.Read(0)));
    AgreesInv(lay, k', l);
    Wide(lay, k', l, k'.c.use[0].b);
    acts := [K.Cache(C.Get(0, key))] + [K.Cache(C.Lock(0))];
    RunsThen(lay, base, k, l, [K.Cache(C.Get(0, key))], none, k1, l, [K.Cache(C.Lock(0))], none, k2, l);
    RunsThen(lay, base, k, l, acts, none, k2, l, [K.Cache(C.Read(0))], none, k', l);
    acts := acts + [K.Cache(C.Read(0))];
  }

  lemma Wide(lay: L.Layout, k: K.State, l: L.State, b: nat)
    requires K.Agrees(lay, k, l)
    ensures K.WideOk(k.c, b)
  {
  }

  lemma UnlocksIt(c: C.State)
    requires C.Inv(c) && c.use.Keys == {0} && c.use[0].Holds?
    ensures C.Enabled(c, C.Unlock(0)) && C.Do(c, C.Unlock(0)) == c.(use := map[0 := C.Leaves(c.use[0].b)])
  {
    assert C.UseOk(c, 0);
  }

  lemma ReleasesIt(c: C.State)
    requires C.Inv(c) && c.use.Keys == {0} && c.use[0].Leaves?
    ensures C.Enabled(c, C.Release(0)) && C.Do(c, C.Release(0)).use == map[]
  {
    assert C.UseOk(c, 0);
    assert 0 in C.Users(c.use, c.use[0].b) && C.BufOk(c, c.use[0].b);
  }

  /** brelse of the only reference. */
  lemma LetsGo(lay: L.Layout, base: L.Disk, k: K.State, l: L.State) returns (acts: seq<K.Action>, k': K.State)
    requires K.Agrees(lay, k, l) && S.Inv(lay, base, l) && k.c.use.Keys == {0} && k.c.use[0].Holds?
    ensures Runs(lay, base, k, l, acts, [], k', l) && k' == k.(c := k'.c) && k'.c.use == map[]
  {
    hide S.Inv, C.Inv, K.Agrees, K.CacheAgrees, Runs, C.Enabled, C.Do, C.Shape;
    var none: seq<L.Action> := [];
    assert none + none == none;
    AgreesInv(lay, k, l);
    UnlocksIt(k.c);
    RunsPlain(lay, base, k, l, C.Unlock(0));
    var k1 := k.(c := C.Do(k.c, C.Unlock(0)));
    AgreesInv(lay, k1, l);
    ReleasesIt(k1.c);
    RunsPlain(lay, base, k1, l, C.Release(0));
    k' := k1.(c := C.Do(k1.c, C.Release(0)));
    RunsThen(lay, base, k, l, [K.Cache(C.Unlock(0))], none, k1, l, [K.Cache(C.Release(0))], none, k', l);
    acts := [K.Cache(C.Unlock(0))] + [K.Cache(C.Release(0))];
  }

  /** bread, log_write and brelse of a block that is new to the log. */
  lemma LogsOne(lay: L.Layout, base: L.Disk, k: K.State, l: L.State, i: nat, n: nat)
    returns (acts: seq<K.Action>, a: L.Action, k': K.State)
    requires K.Agrees(lay, k, l) && S.Inv(lay, base, l) && k.pc.Running? && k.c.use == map[] && i < |k.ops|
    requires lay.Home(n) && |k.lh| < C.NBUF && !L.LogFull(lay, k.lh) && n !in k.lh
    ensures a.LogWrite? && a.i == i && a.bno == n && L.Enabled(lay, l, a)
    ensures Runs(lay, base, k, l, acts, [a], k', L.Do(lay, l, a)) && k'.c.use == map[] && k'.author == k.author - {0}
  {
    hide S.Inv, K.CacheAgrees;
    var f, k1 := Fetches(lay, base, k, l, n);
    var w := K.LogWrite(0, i);
    a := K.Abstract(lay, k1, w)[0];
    RunsOne(lay, base, k1, l, w);
    var k2 := K.Do(lay, k1, w);
    assert [a][1..] == [] && L.Exec(lay, l, [a]) == L.Do(lay, l, a);
    var l' := L.Do(lay, l, a);
    RunsThen(lay, base, k, l, f, [], k1, l, [w], [a], k2, l');
    var g;
    g, k' := LetsGo(lay, base, k2, l');
    RunsThen(lay, base, k, l, f + [w], [] + [a], k2, l', g, [], k', l');
    assert [] + [a] + [] == [a];
    acts := f + [w] + g;
  }

  /** A well-behaved run of log and cache from the start. */
  ghost predicate Reaches(lay: L.Layout, k0: K.State, acts: seq<K.Action>, steps: seq<L.Action>, k: K.State,
                          l: L.State)
  {
    && K.Init(lay, k0) && Runs(lay, K.Image(lay, k0), k0, K.Machine(lay, k0), acts, steps, k, l)
    && P.WellBehaved(lay, K.Machine(lay, k0), steps)
  }

  lemma ReachesNone(lay: L.Layout, k0: K.State)
    requires K.Init(lay, k0)
    ensures Reaches(lay, k0, [], [], k0, K.Machine(lay, k0))
  {
    K.InitAgrees(lay, k0);
  }

  /** One more step of the machine, within the reservations. */
  lemma ReachesMore(lay: L.Layout, k0: K.State, acts: seq<K.Action>, steps: seq<L.Action>, k: K.State, l: L.State,
                    more: seq<K.Action>, a: L.Action, k': K.State)
    requires Reaches(lay, k0, acts, steps, k, l) && L.Enabled(lay, l, a) && P.WithinReservation(l, a)
    requires Runs(lay, K.Image(lay, k0), k, l, more, [a], k', L.Do(lay, l, a))
    ensures Reaches(lay, k0, acts + more, steps + [a], k', L.Do(lay, l, a))
  {
    hide K.Agrees, S.Inv, K.Init, L.Do, L.Enabled, P.WithinReservation;
    RunsThen(lay, K.Image(lay, k0), k0, K.Machine(lay, k0), acts, steps, k, l, more, [a], k', L.Do(lay, l, a));
    P.RunSnocWithin(lay, K.Machine(lay, k0), steps, a);
  }

  /** One step of log and cache that is not a write. */
  lemma ReachesOp(lay: L.Layout, k0: K.State, acts: seq<K.Action>, steps: seq<L.Action>, k: K.State, l: L.State,
                  a: K.Action)
    requires Reaches(lay, k0, acts, steps, k, l) && (a.BeginOp? || a.EndOp?) && K.Enabled(lay, k, a)
    ensures var b := K.Abstract(lay, k, a)[0];
            L.Enabled(lay, l, b) && Reaches(lay, k0, acts + [a], steps + [b], K.Do(lay, k, a), L.Do(lay, l, b))
  {
    hide K.Agrees, S.Inv, K.Init, K.Enabled, K.Do, L.Do, L.Enabled;
    var b := K.Abstract(lay, k, a)[0];
    RunsOne(lay, K.Image(lay, k0), k, l, a);
    assert K.Abstract(lay, k, a) == [b] && [b][1..] == [] && L.Exec(lay, L.Do(lay, l, b), []) == L.Do(lay, l, b);
    ReachesMore(lay, k0, acts, steps, k, l, [a], b, K.Do(lay, k, a));
  }

  /** Nobody uses a buffer, and no change is pending. */
  ghost predicate Idle(k: K.State) {
    k.c.use == map[] && k.author == map[]
  }

  lemma Started(lay: L.Layout, k0: K.State) returns (acts: seq<K.Action>, steps: seq<L.Action>, k: K.State, l: L.State)
    requires K.Init(lay, k0)
    ensures Reaches(lay, k0, acts, steps, k, l) && P.Filled(lay, l, 0) && Idle(k)
  {
    hide Reaches;
    acts, steps, k, l := [], [], k0, K.Machine(lay, k0);
    ReachesNone(lay, k0);
    for i := 0 to 3
      invariant Reaches(lay, k0, acts, steps, k, l) && Idle(k) && |l.ops| == |k.ops| == i && l.pc.Running? && l.lh == []
      invariant k.pc.Running? && k.lh == [] && C.Shape(k.c) && forall j :: 0 <= j < i ==> l.ops[j].used == 0
    {
      ReachesOp(lay, k0, acts, steps, k, l, K.BeginOp);
      acts, steps := acts + [K.BeginOp], steps + [L.BeginOp];
      k, l := K.Do(lay, k, K.BeginOp), L.Do(lay, l, L.BeginOp);
    }
  }

  /** One more block through the cache. */
  lemma FillsOne(lay: L.Layout, k0: K.State, acts: seq<K.Action>, steps: seq<L.Action>, k: K.State, l: L.State, m: nat)
    returns (acts': seq<K.Action>, steps': seq<L.Action>, k': K.State, l': L.State)
    requires Reaches(lay, k0, acts, steps, k, l) && P.Filled(lay, l, m) && Idle(k)
    requires P.HasRoom(lay) && m < L.LOGSIZE && m < lay.size - 1
    ensures Reaches(lay, k0, acts', steps', k', l') && P.Filled(lay, l', m + 1) && Idle(k')
  {
    hide Reaches, Runs, S.Inv, K.Agrees, K.Init, P.Filled, L.Do, L.Enabled, P.WithinReservation, L.LogFull, P.HasRoom;
    ReachesAgrees(lay, k0, acts, steps, k, l);
    BeforeFill(lay, l, m);
    var more, a;
    more, a, k' := LogsOne(lay, K.Image(lay, k0), k, l, m / MAXOPBLOCKS, lay.start + lay.size + m);
    NextFill(lay, l, m, a);
    ReachesMore(lay, k0, acts, steps, k, l, more, a, k');
    acts', steps', l' := acts + more, steps + [a], L.Do(lay, l, a);
  }

  /** Three operations start and log m blocks through the cache. */
  lemma {:induction false} Fills(lay: L.Layout, k0: K.State, m: nat)
    returns (acts: seq<K.Action>, steps: seq<L.Action>, k: K.State, l: L.State)
    requires K.Init(lay, k0) && P.HasRoom(lay) && m <= L.LOGSIZE && m <= lay.size - 1
    ensures Reaches(lay, k0, acts, steps, k, l) && P.Filled(lay, l, m) && Idle(k)
  {
    hide Reaches, K.Init, P.Filled, P.HasRoom, Idle;
    if m == 0 {
      acts, steps, k, l := Started(lay, k0);
    } else {
      acts, steps, k, l := Fills(lay, k0, m - 1);
      acts, steps, k, l := FillsOne(lay, k0, acts, steps, k, l, m - 1);
    }
  }

  lemma BeforeFill(lay: L.Layout, l: L.State, m: nat)
    requires P.HasRoom(lay) && m < L.LOGSIZE && m < lay.size - 1 && P.Filled(lay, l, m)
    ensures var n := lay.start + lay.size + m;
            && l.pc.Running? && |l.lh| == m && m / MAXOPBLOCKS < |l.ops| && n !in l.lh && lay.Home(n)
            && !L.LogFull(lay, l.lh)
  {
  }

  lemma NextFill(lay: L.Layout, l: L.State, m: nat, a: L.Action)
    requires P.HasRoom(lay) && m < L.LOGSIZE && m < lay.size - 1 && P.Filled(lay, l, m) && L.Enabled(lay, l, a)
    requires a.LogWrite? && a.i == m / MAXOPBLOCKS && a.bno == lay.start + lay.size + m
    ensures P.WithinReservation(l, a) && P.Filled(lay, L.Do(lay, l, a), m + 1)
  {
    assert a.bno !in l.lh;
  }

  lemma ReachesAgrees(lay: L.Layout, k0: K.State, acts: seq<K.Action>, steps: seq<L.Action>, k: K.State, l: L.State)
    requires Reaches(lay, k0, acts, steps, k, l)
    ensures K.Init(lay, k0) && K.Agrees(lay, k, l) && S.Inv(lay, K.Image(lay, k0), l) && C.Shape(k.c)
    ensures k.pc == l.pc && k.lh == l.lh && k.ops == l.ops
  {
  }

  /** All operations end and the commit begins. */
  lemma Ends(lay: L.Layout, k0: K.State, m: nat)
    returns (acts: seq<K.Action>, steps: seq<L.Action>, k: K.State, l: L.State)
    requires K.Init(lay, k0) && P.HasRoom(lay) && 0 < m <= L.LOGSIZE && m <= lay.size - 1
    ensures Reaches(lay, k0, acts, steps, k, l) && Idle(k) && k.pc == L.WritingLog(0) && |k.lh| == m
  {
    acts, steps, k, l := Fills(lay, k0, m);
    ReachesAgrees(lay, k0, acts, steps, k, l);
    hide Reaches;
    for i := 0 to 3
      invariant Reaches(lay, k0, acts, steps, k, l) && Idle(k) && |k.ops| == 3 - i && |k.lh| == m && C.Shape(k.c)
      invariant k.pc == if i < 3 then L.Running else L.WritingLog(0)
    {
      ReachesOp(lay, k0, acts, steps, k, l, K.EndOp(0));
      acts, steps := acts + [K.EndOp(0)], steps + [L.EndOp(0)];
      k, l := K.Do(lay, k, K.EndOp(0)), L.Do(lay, l, L.EndOp(0));
    }
  }

  // ----- No log size is safe -----

  /** Some well-behaved run brings a commit to the panic in bget, with no other user of the cache. */
  ghost predicate CommitPanics(lay: L.Layout, k0: K.State) {
    exists acts, steps, k, l :: Reaches(lay, k0, acts, steps, k, l) && Stuck(lay, k)
  }

  lemma CommitPanicsIff(lay: L.Layout, k0: K.State)
    requires K.Init(lay, k0) && P.HasRoom(lay)
    ensures CommitPanics(lay, k0) <==> lay.size > L.LOGSIZE
  {
    if lay.size > L.LOGSIZE {
      var acts, steps, k, l := Ends(lay, k0, L.LOGSIZE);
      ReachesAgrees(lay, k0, acts, steps, k, l);
      StuckIff(lay, K.Image(lay, k0), k, l);
    } else {
      forall acts, steps, k, l | Reaches(lay, k0, acts, steps, k, l) ensures !Stuck(lay, k) {
        ReachesAgrees(lay, k0, acts, steps, k, l);
        if k.pc.WritingLog? && k.pc.tail < |k.lh| && k.c.use == map[] {
          AllPinned(lay, K.Image(lay, k0), l);
          StuckIff(lay, K.Image(lay, k0), k, l);
        }
      }
    }
  }

  /** Some well-behaved run brings an operation with reservation left to the panic in log_write. */
  ghost predicate LogWritePanics(lay: L.Layout, k0: K.State) {
    exists acts, steps, k, l :: Reaches(lay, k0, acts, steps, k, l) && !P.NeverFull(lay, l)
  }

  lemma LogWritePanicsIff(lay: L.Layout, k0: K.State)
    requires K.Init(lay, k0) && P.HasRoom(lay)
    ensures LogWritePanics(lay, k0) <==> lay.size <= L.LOGSIZE
  {
    if lay.size <= L.LOGSIZE {
      var m := lay.size - 1;
      var acts, steps, k, l := Fills(lay, k0, m);
      assert l.ops[m / MAXOPBLOCKS].used < MAXOPBLOCKS;
    } else {
      forall acts, steps, k, l | Reaches(lay, k0, acts, steps, k, l) ensures P.NeverFull(lay, l) {
        K.InitAgrees(lay, k0);
        P.NoPanic(lay, K.Machine(lay, k0), steps);
      }
    }
  }

  /** Whatever the size of the log, operations that keep to their reservations can bring the kernel
      to one of these two panics, and to one only. */
  lemma NoLogSizeIsSafe(lay: L.Layout, k0: K.State)
    requires K.Init(lay, k0) && P.HasRoom(lay)
    ensures CommitPanics(lay, k0) <==> !LogWritePanics(lay, k0)
  {
    CommitPanicsIff(lay, k0);
    LogWritePanicsIff(lay, k0);
  }
}
