/** What every step of the buffer cache keeps, and what a read returns in every run. */
module BcacheSafety {
  import opened BcacheModel

  lemma UsersNew(use: map<nat, Use>, p: nat, u: Use, b: nat)
    requires p !in use
    ensures |Users(use[p := u], b)| == |Users(use, b)| + if u.b == b then 1 else 0
  {
    if u.b == b {
      assert Users(use[p := u], b) == Users(use, b) + {p};
    } else {
      assert Users(use[p := u], b) == Users(use, b);
    }
  }

  lemma UsersSame(use: map<nat, Use>, p: nat, u: Use, b: nat)
    requires p in use && u.b == use[p].b
    ensures Users(use[p := u], b) == Users(use, b)
  {
  }

  lemma UsersDrop(use: map<nat, Use>, p: nat, b: nat)
    requires p in use
    ensures |Users(use - {p}, b)| == |Users(use, b)| - if use[p].b == b then 1 else 0
  {
    if use[p].b == b {
      assert Users(use - {p}, b) == Users(use, b) - {p};
    } else {
      assert Users(use - {p}, b) == Users(use, b);
    }
  }

  /** The buffer that bget finds for a cached block. */
  lemma FindIs(s: State, key: Key, b: nat)
    requires Inv(s) && b < NBUF && s.buf[b].key == key && key.dev > 0
    ensures Find(s.buf, s.order, key) == b
  {
    var c := Find(s.buf, s.order, key);
    assert KeyOk(s, b, c);
    assert b in s.order;
  }

  lemma NotCached(s: State, key: Key, b: nat)
    requires Shape(s) && Find(s.buf, s.order, key) == NBUF && b < NBUF
    ensures s.buf[b].key != key
  {
    assert b in s.order;
  }

  lemma UnusedHasNoUsers(s: State, b: nat, p: nat)
    requires Inv(s) && b < NBUF && s.buf[b].refcnt == 0
    ensures s.buf[b].key !in s.logged && Users(s.use, b) == {}
    ensures p in s.use ==> s.use[p].b != b
  {
    assert BufOk(s, b);
    assert p in s.use && s.use[p].b == b ==> p in Users(s.use, b);
  }

  /** A block in the log stays in its buffer when that buffer stays. */
  lemma LogStays(s: State, s': State, key: Key)
    requires LogOk(s, key) && forall k :: k in s.disk ==> k in s'.disk
    requires key in s'.logged ==> key in s.logged && forall b :: Caches(s, b, key) ==> Caches(s', b, key)
    ensures LogOk(s', key)
  {
    if key in s'.logged {
      var b :| Caches(s, b, key);
      assert Caches(s', b, key);
    }
  }

  lemma ChangeStays(s: State, s': State, b: nat)
    requires forall p :: p in s.use && s.use[p].Changed? ==> p in s'.use && s'.use[p] == s.use[p]
    ensures ChangedBySome(s, b) ==> ChangedBySome(s', b)
  {
    if ChangedBySome(s, b) {
      var p :| p in s.use && s.use[p] == Changed(b);
      assert s'.use[p] == Changed(b);
    }
  }

  lemma GetHitKeeps(s: State, p: nat, key: Key)
    requires Inv(s) && Enabled(s, Get(p, key)) && Find(s.buf, s.order, key) < NBUF
    ensures Inv(Do(s, Get(p, key)))
  {
    var s', b := Do(s, Get(p, key)), Find(s.buf, s.order, key);
    forall c ensures BufOk(s', c) {
      assert BufOk(s, c);
      UsersNew(s.use, p, Waits(b), c);
      ChangeStays(s, s', c);
    }
    forall q ensures UseOk(s', q) { assert UseOk(s, q); }
    forall q, r ensures HoldOk(s', q, r) { assert HoldOk(s, q, r); }
    forall c, d ensures KeyOk(s', c, d) { assert KeyOk(s, c, d); }
    forall k ensures LogOk(s', k) {
      assert LogOk(s, k);
      LogStays(s, s', k);
    }
  }

  lemma GetMissKeeps(s: State, p: nat, key: Key)
    requires Inv(s) && Enabled(s, Get(p, key)) && Find(s.buf, s.order, key) == NBUF
    ensures Inv(Do(s, Get(p, key)))
  {
    var s', v := Do(s, Get(p, key)), Victim(s.buf, s.order);
    assert LogOk(s, key);
    forall b: nat | b < NBUF ensures s.buf[b].key != key { NotCached(s, key, b); }
    UnusedHasNoUsers(s, v, p);
    forall c ensures BufOk(s', c) {
      assert BufOk(s, c);
      UsersNew(s.use, p, Waits(v), c);
      ChangeStays(s, s', c);
    }
    forall q ensures UseOk(s', q) {
      assert UseOk(s, q);
      UnusedHasNoUsers(s, v, q);
    }
    forall q, r ensures HoldOk(s', q, r) { assert HoldOk(s, q, r); }
    forall c, d ensures KeyOk(s', c, d) { assert KeyOk(s, c, d); }
    forall k ensures LogOk(s', k) {
      assert LogOk(s, k);
      LogStays(s, s', k);
    }
  }

  lemma LockKeeps(s: State, p: nat)
    requires Inv(s) && Enabled(s, Lock(p))
    ensures Inv(Do(s, Lock(p)))
  {
    var s', b := Do(s, Lock(p)), s.use[p].b;
    forall c ensures BufOk(s', c) {
      assert BufOk(s, c);
      UsersSame(s.use, p, Holds(b), c);
      ChangeStays(s, s', c);
    }
    forall q ensures UseOk(s', q) { assert UseOk(s, q); }
    forall q, r ensures HoldOk(s', q, r) { assert HoldOk(s, q, r); }
    forall c, d ensures KeyOk(s', c, d) { assert KeyOk(s, c, d); }
    forall k ensures LogOk(s', k) {
      assert LogOk(s, k);
      LogStays(s, s', k);
    }
  }

  lemma ReadKeeps(s: State, p: nat)
    requires Inv(s) && Enabled(s, Read(p))
    ensures Inv(Do(s, Read(p)))
  {
    var s', b := Do(s, Read(p)), s.use[p].b;
    forall c ensures BufOk(s', c) {
      assert BufOk(s, c);
      ChangeStays(s, s', c);
    }
    forall q ensures UseOk(s', q) { assert UseOk(s, q); }
    forall q, r ensures HoldOk(s', q, r) { assert HoldOk(s, q, r); }
    forall c, d ensures KeyOk(s', c, d) { assert KeyOk(s, c, d); }
    forall k ensures LogOk(s', k) {
      assert LogOk(s, k);
      LogStays(s, s', k);
    }
  }

  lemma ModifyKeeps(s: State, p: nat, key: Key, data: Data)
    requires Inv(s) && Enabled(s, Modify(p, key, data))
    ensures Inv(Do(s, Modify(p, key, data)))
  {
    var s', b := Do(s, Modify(p, key, data)), s.use[p].b;
    assert UseOk(s, p) && s'.use[p] == Changed(b);
    forall c ensures BufOk(s', c) {
      assert BufOk(s, c);
      UsersSame(s.use, p, Changed(b), c);
      ChangeStays(s, s', c);
    }
    forall q ensures UseOk(s', q) { assert UseOk(s, q); }
    forall q, r ensures HoldOk(s', q, r) { assert HoldOk(s, q, r); }
    forall c, d ensures KeyOk(s', c, d) { assert KeyOk(s, c, d); }
    forall k ensures LogOk(s', k) {
      assert LogOk(s, k);
      LogStays(s, s', k);
    }
  }

  lemma LogWriteKeeps(s: State, p: nat)
    requires Inv(s) && Enabled(s, LogWrite(p))
    ensures Inv(Do(s, LogWrite(p)))
  {
    var s', b := Do(s, LogWrite(p)), s.use[p].b;
    var key := s.buf[b].key;
    assert UseOk(s, p) && BufOk(s, b);
    forall c ensures BufOk(s', c) {
      assert BufOk(s, c) && KeyOk(s, b, c);
      UsersSame(s.use, p, Holds(b), c);
      if c != b {
        OtherChangeStays(s, s', p, c);
      }
    }
    forall q ensures UseOk(s', q) { assert UseOk(s, q); }
    forall q, r ensures HoldOk(s', q, r) { assert HoldOk(s, q, r); }
    forall c, d ensures KeyOk(s', c, d) { assert KeyOk(s, c, d); }
    assert Caches(s', b, key);
    forall k ensures LogOk(s', k) {
      assert LogOk(s, k);
      if k != key {
        LogStays(s, s', k);
      }
    }
  }

  lemma OtherChangeStays(s: State, s': State, p: nat, b: nat)
    requires p in s.use && s.use[p].b != b && forall q :: q in s.use && q != p ==> q in s'.use && s'.use[q] == s.use[q]
    ensures ChangedBySome(s, b) ==> ChangedBySome(s', b)
  {
    if ChangedBySome(s, b) {
      var q :| q in s.use && s.use[q] == Changed(b);
      assert s'.use[q] == Changed(b);
    }
  }

  lemma WriteKeeps(s: State, p: nat)
    requires Inv(s) && Enabled(s, Write(p))
    ensures Inv(Do(s, Write(p)))
    ensures Do(s, Write(p)) == s.(disk := s.disk[Of(s, p).key := Of(s, p).data], use := s.use[p := Holds(s.use[p].b)])
  {
    var s', b := Do(s, Write(p)), s.use[p].b;
    assert UseOk(s, p);
    forall c ensures BufOk(s', c) {
      assert BufOk(s, c) && KeyOk(s, b, c);
      UsersSame(s.use, p, Holds(b), c);
      if c != b {
        OtherChangeStays(s, s', p, c);
      }
    }
    forall q ensures UseOk(s', q) { assert UseOk(s, q); }
    forall q, r ensures HoldOk(s', q, r) { assert HoldOk(s, q, r); }
    forall c, d ensures KeyOk(s', c, d) { assert KeyOk(s, c, d); }
    forall k ensures LogOk(s', k) {
      assert LogOk(s, k);
      LogStays(s, s', k);
    }
  }

  lemma InstallKeeps(s: State, key: Key)
    requires Inv(s) && Enabled(s, Install(key))
    ensures var s', b := Do(s, Install(key)), Find(s.buf, s.order, key);
            && Inv(s') && b < |s.buf| && s'.logged == s.logged - {key} && s'.disk == s.disk[key := s.buf[b].data]
            && s'.buf == s.buf[b := s.buf[b].(refcnt := s.buf[b].refcnt - 1)] && s'.use == s.use
  {
    var s', b := Do(s, Install(key)), Find(s.buf, s.order, key);
    assert LogOk(s, key);
    forall c ensures BufOk(s', c) {
      assert BufOk(s, c) && KeyOk(s, b, c);
      ChangeStays(s, s', c);
    }
    forall q ensures UseOk(s', q) { assert UseOk(s, q); }
    forall q, r ensures HoldOk(s', q, r) { assert HoldOk(s, q, r); }
    forall c, d ensures KeyOk(s', c, d) { assert KeyOk(s, c, d); }
    forall k ensures LogOk(s', k) {
      assert LogOk(s, k);
      LogStays(s, s', k);
    }
  }

  lemma UnlockKeeps(s: State, p: nat)
    requires Inv(s) && Enabled(s, Unlock(p))
    ensures Inv(Do(s, Unlock(p)))
  {
    var s', b := Do(s, Unlock(p)), s.use[p].b;
    forall c ensures BufOk(s', c) {
      assert BufOk(s, c);
      UsersSame(s.use, p, Leaves(b), c);
      ChangeStays(s, s', c);
    }
    forall q ensures UseOk(s', q) { assert UseOk(s, q); }
    forall q, r ensures HoldOk(s', q, r) { assert HoldOk(s, q, r); }
    forall c, d ensures KeyOk(s', c, d) { assert KeyOk(s, c, d); }
    forall k ensures LogOk(s', k) {
      assert LogOk(s, k);
      LogStays(s, s', k);
    }
  }

  lemma ReleaseKeeps(s: State, p: nat)
    requires Inv(s) && Enabled(s, Release(p))
    ensures Inv(Do(s, Release(p)))
  {
    var s', b := Do(s, Release(p)), s.use[p].b;
    ReleaseOrder(s, p);
    forall c ensures BufOk(s', c) {
      assert BufOk(s, c);
      UsersDrop(s.use, p, c);
      ChangeStays(s, s', c);
    }
    forall q ensures UseOk(s', q) { assert UseOk(s, q); }
    forall q, r ensures HoldOk(s', q, r) { assert HoldOk(s, q, r); }
    forall c, d ensures KeyOk(s', c, d) { assert KeyOk(s, c, d); }
    forall k ensures LogOk(s', k) {
      assert LogOk(s, k);
      LogStays(s, s', k);
    }
  }

  lemma MovedAt(order: seq<nat>, b: nat, i: nat)
    requires b in order && i < |order|
    ensures var k := IndexOf(order, b);
            |MovedToFront(order, b)| == |order| && MovedToFront(order, b)[i] == if i == 0 then b
                                                                                else if i <= k then order[i - 1]
                                                                                     else order[i]
  {
  }

  lemma MovedSame(order: seq<nat>, b: nat, c: nat)
    requires b in order && c in order
    ensures c in MovedToFront(order, b)
  {
    var i, k := IndexOf(order, c), IndexOf(order, b);
    MovedAt(order, b, if i == k then 0 else if i < k then i + 1 else i);
  }

  lemma MovedDistinct(order: seq<nat>, b: nat)
    requires b in order && forall i, j :: 0 <= i < j < |order| ==> order[i] != order[j]
    ensures |MovedToFront(order, b)| == |order|
    ensures forall i, j :: 0 <= i < j < |order| ==> MovedToFront(order, b)[i] != MovedToFront(order, b)[j]
  {
    hide MovedToFront;
    MovedAt(order, b, 0);
    forall i, j | 0 <= i < j < |order| ensures MovedToFront(order, b)[i] != MovedToFront(order, b)[j] {
      MovedAt(order, b, i);
      MovedAt(order, b, j);
    }
  }

  lemma ReleaseOrder(s: State, p: nat)
    requires Shape(s) && Sorted(s) && Enabled(s, Release(p))
    ensures Shape(Do(s, Release(p))) && Sorted(Do(s, Release(p)))
  {
    hide MovedToFront;
    var s', b := Do(s, Release(p)), s.use[p].b;
    if s.buf[b].refcnt == 1 {
      MovedDistinct(s.order, b);
      forall i: nat | i < NBUF ensures s'.order[i] < NBUF { MovedAt(s.order, b, i); }
      forall c: nat | c < NBUF ensures c in s'.order { MovedSame(s.order, b, c); }
      forall i, j | 0 <= i < j < NBUF ensures s'.stamp[s'.order[i]] >= s'.stamp[s'.order[j]] {
        MovedAt(s.order, b, i);
        MovedAt(s.order, b, j);
      }
    }
  }

  lemma StepKeeps(s: State, a: Action)
    requires Inv(s) && Enabled(s, a)
    ensures Inv(Do(s, a))
  {
    hide Inv, Enabled, Do;
    match a
    case Get(p, key) =>
      InvShape(s);
      if Find(s.buf, s.order, key) < NBUF { GetHitKeeps(s, p, key); } else { GetMissKeeps(s, p, key); }
    case Lock(p) => LockKeeps(s, p);
    case Read(p) => ReadKeeps(s, p);
    case Modify(p, key, data) => ModifyKeeps(s, p, key, data);
    case LogWrite(p) => LogWriteKeeps(s, p);
    case Write(p) => WriteKeeps(s, p);
    case Unlock(p) => UnlockKeeps(s, p);
    case Release(p) => ReleaseKeeps(s, p);
    case Install(key) => InstallKeeps(s, key);
  }

  lemma InvShape(s: State)
    requires Inv(s)
    ensures Shape(s)
  {
  }

  // ----- Contents -----

  lemma NowCached(s: State, key: Key, b: nat)
    requires Inv(s) && key.dev > 0 && key in s.disk && Caches(s, b, key)
    ensures Now(s, key) == s.buf[b].data
  {
    FindIs(s, key, b);
  }

  lemma NowIs(s: State, key: Key, data: Data)
    requires Inv(s) && key in s.disk && key.dev > 0
    requires forall b: nat :: Caches(s, b, key) ==> s.buf[b].data == data
    requires (forall b: nat :: !Caches(s, b, key)) ==> s.disk[key] == data
    ensures Now(s, key) == data
  {
    var b := Find(s.buf, s.order, key);
    if b < NBUF && s.buf[b].valid {
      assert Caches(s, b, key);
    } else {
      forall c: nat ensures !Caches(s, c, key) {
        if Caches(s, c, key) { FindIs(s, key, c); }
      }
    }
  }

  /** A step that leaves the contents of buffers alone, or makes the disk agree with them. */
  lemma NowSame(s: State, s': State, key: Key)
    requires Inv(s) && Inv(s') && key in s.disk && key in s'.disk && key.dev > 0
    requires forall b: nat :: Caches(s, b, key) <==> Caches(s', b, key)
    requires forall b: nat :: Caches(s, b, key) ==> s'.buf[b].data == s.buf[b].data
    requires (forall b: nat :: !Caches(s, b, key)) ==> s'.disk[key] == s.disk[key]
    ensures Now(s', key) == Now(s, key)
  {
    hide Inv, Now;
    InvShape(s);
    InvShape(s');
    forall b: nat | Caches(s', b, key) ensures s'.buf[b].data == Now(s, key) {
      NowCached(s, key, b);
    }
    if forall b: nat :: !Caches(s, b, key) {
      NowIs(s, key, s.disk[key]);
    }
    NowIs(s', key, Now(s, key));
  }

  lemma GetMissNow(s: State, p: nat, key: Key, k: Key)
    requires Inv(s) && Enabled(s, Get(p, key)) && Find(s.buf, s.order, key) == NBUF && k in s.disk && k.dev > 0
    ensures Inv(Do(s, Get(p, key))) && Now(Do(s, Get(p, key)), k) == Now(s, k)
  {
    hide Now;
    var s', v := Do(s, Get(p, key)), Victim(s.buf, s.order);
    GetMissKeeps(s, p, key);
    UnusedHasNoUsers(s, v, p);
    forall q | q in s.use ensures s.use[q].b != v { UnusedHasNoUsers(s, v, q); }
    assert BufOk(s, v);
    if Caches(s, v, k) {
      NowCached(s, k, v);
      forall c: nat ensures !Caches(s', c, k) { assert KeyOk(s, v, c); NotCached(s, key, v); }
      NowIs(s', k, s.disk[k]);
    } else {
      NowSame(s, s', k);
    }
  }

  lemma ModifyNow(s: State, p: nat, key: Key, data: Data, k: Key)
    requires Inv(s) && Enabled(s, Modify(p, key, data)) && k in s.disk && k.dev > 0 && Inv(Do(s, Modify(p, key, data)))
    ensures Now(Do(s, Modify(p, key, data)), k) == if key == k then data else Now(s, k)
  {
    hide Now;
    var s', b := Do(s, Modify(p, key, data)), s.use[p].b;
    if key == k {
      assert Caches(s', b, k);
      NowCached(s', k, b);
    } else {
      NowSame(s, s', k);
    }
  }

  lemma WriteNow(s: State, p: nat, k: Key)
    requires Inv(s) && Enabled(s, Write(p)) && k in s.disk && k.dev > 0 && Inv(Do(s, Write(p)))
    ensures Now(Do(s, Write(p)), k) == Now(s, k)
  {
    hide Now;
    assert Caches(s, s.use[p].b, s.buf[s.use[p].b].key);
    NowSame(s, Do(s, Write(p)), k);
  }

  lemma InstallNow(s: State, key: Key, k: Key)
    requires Inv(s) && Enabled(s, Install(key)) && k in s.disk && k.dev > 0 && Inv(Do(s, Install(key)))
    ensures Now(Do(s, Install(key)), k) == Now(s, k)
  {
    hide Now;
    assert LogOk(s, key);
    var b: nat :| Caches(s, b, key);
    NowSame(s, Do(s, Install(key)), k);
  }

  /** Counting and locking leave all contents alone. */
  lemma CountNow(s: State, a: Action, k: Key)
    requires Inv(s) && Enabled(s, a) && k in s.disk && k.dev > 0 && Inv(Do(s, a))
    requires a.Lock? || a.LogWrite? || a.Unlock? || a.Release? || (a.Get? && Find(s.buf, s.order, a.key) < NBUF)
    ensures Now(Do(s, a), k) == Now(s, k)
  {
    hide Now;
    NowSame(s, Do(s, a), k);
  }

  /** A block's contents change only when the holder of its buffer modifies them. */
  lemma StepNow(s: State, a: Action, k: Key)
    requires Inv(s) && Enabled(s, a) && k in s.disk && k.dev > 0
    ensures Inv(Do(s, a)) && k in Do(s, a).disk
    ensures Now(Do(s, a), k) == if a.Modify? && a.key == k then a.data else Now(s, k)
  {
    hide Now, Inv, Enabled, Do;
    StepKeeps(s, a);
    SameBlocks(s, a);
    InvShape(s);
    match a
    case Get(p, key) =>
      if Find(s.buf, s.order, key) < NBUF { CountNow(s, a, k); } else { GetMissNow(s, p, key, k); }
    case Read(p) => ReadNow(s, p, k);
    case Modify(p, key, data) => ModifyNow(s, p, key, data, k);
    case Write(p) => WriteNow(s, p, k);
    case Install(key) => InstallNow(s, key, k);
    case _ => CountNow(s, a, k);
  }

  lemma ReadNow(s: State, p: nat, k: Key)
    requires Inv(s) && Enabled(s, Read(p)) && k in s.disk && k.dev > 0 && Inv(Do(s, Read(p)))
    ensures Now(Do(s, Read(p)), k) == Now(s, k)
  {
    hide Now;
    var s', b := Do(s, Read(p)), s.use[p].b;
    if s.buf[b].key == k && !s.buf[b].valid {
      forall c: nat ensures !Caches(s, c, k) { assert KeyOk(s, b, c); }
      NowIs(s, k, s.disk[k]);
      assert Caches(s', b, k);
      NowCached(s', k, b);
    } else {
      NowSame(s, s', k);
    }
  }

  // ----- Every run -----

  /** bread: if no other process has the buffer, p has it, for the block it asked for and with
      its newest contents. */
  lemma BreadGets(s: State, p: nat, key: Key)
    requires Inv(s) && Enabled(s, Get(p, key)) && !Held(s, Got(s.buf, s.order, key))
    ensures var s1 := Do(s, Get(p, key));
            && Inv(s1) && Enabled(s1, Lock(p)) && Inv(Do(s1, Lock(p))) && Enabled(Do(s1, Lock(p)), Read(p))
            && var s3 := Do(Do(s1, Lock(p)), Read(p));
            && Has(s3, p) && s3.use == s.use[p := Holds(Got(s.buf, s.order, key))]
            && Of(s3, p).key == key && Of(s3, p).valid && Of(s3, p).data == Now(s, key) && s3.disk == s.disk
  {
    hide Inv, Do;
    InvShape(s);
    StepNow(s, Get(p, key), key);
    var s1, b := Do(s, Get(p, key)), Got(s.buf, s.order, key);
    InvShape(s1);
    GotIt(s, p, key);
    StepNow(s1, Lock(p), key);
    var s2 := Do(s1, Lock(p));
    InvShape(s2);
    LockedIt(s1, p);
    StepNow(s2, Read(p), key);
    var s3 := Do(s2, Read(p));
    InvShape(s3);
    ReadIt(s2, p);
    assert Caches(s3, b, key);
    NowCached(s3, key, b);
  }

  lemma GotIt(s: State, p: nat, key: Key)
    requires Shape(s) && Enabled(s, Get(p, key))
    ensures var s1, b := Do(s, Get(p, key)), Got(s.buf, s.order, key);
            && b < |s1.buf| && s1.use == s.use[p := Waits(b)] && s1.buf[b].key == key && s1.disk == s.disk
            && (!Held(s, b) ==> Shape(s1) && Enabled(s1, Lock(p)))
  {
  }

  lemma LockedIt(s: State, p: nat)
    requires Shape(s) && Enabled(s, Lock(p))
    ensures Do(s, Lock(p)) == s.(use := s.use[p := Holds(s.use[p].b)])
  {
  }

  lemma ReadIt(s: State, p: nat)
    requires Shape(s) && Enabled(s, Read(p))
    ensures var s', b := Do(s, Read(p)), s.use[p].b;
            && s' == s.(buf := s'.buf) && |s'.buf| == |s.buf| && s'.buf[b].valid && s'.buf[b].key == s.buf[b].key
  {
  }

  lemma InitInv(s: State)
    requires Init(s)
    ensures Inv(s)
  {
    forall b ensures BufOk(s, b) { assert Users(s.use, b) == {}; }
  }

  lemma SameBlocks(s: State, a: Action)
    requires Inv(s) && Enabled(s, a)
    ensures Do(s, a).disk.Keys == s.disk.Keys
  {
    match a
    case Write(p) => assert UseOk(s, p) && BufOk(s, s.use[p].b);
    case Install(key) => assert LogOk(s, key);
    case _ =>
  }

  lemma {:induction false} RunKeeps(s: State, acts: seq<Action>, key: Key)
    requires Init(s) && CanRun(s, acts)
    ensures Inv(Exec(s, acts)) && Exec(s, acts).disk.Keys == s.disk.Keys
    ensures key in s.disk && key.dev > 0 ==>
              key in Exec(s, acts).disk && Now(Exec(s, acts), key) == After(s.disk, acts, key)
    decreases |acts|
  {
    hide Inv, Do, Enabled;
    if acts == [] {
      InitInv(s);
    } else {
      var n := |acts| - 1;
      RunKeeps(s, acts[..n], key);
      StepKeeps(Exec(s, acts[..n]), acts[n]);
      SameBlocks(Exec(s, acts[..n]), acts[n]);
      if key in s.disk && key.dev > 0 {
        StepNow(Exec(s, acts[..n]), acts[n], key);
      }
    }
  }

  /** Whoever has read a block has its newest contents: those of the last change in the run,
      whether it reached the disk or not, and otherwise those on the disk at the start. */
  lemma ReadsNewest(s: State, acts: seq<Action>, p: nat)
    requires Init(s) && CanRun(s, acts)
    ensures var t := Exec(s, acts);
            p in t.use ==>
              && t.use[p].b < |t.buf| && Of(t, p).key in s.disk
              && (Of(t, p).valid ==> Of(t, p).data == After(s.disk, acts, Of(t, p).key))
  {
    hide Now;
    var t := Exec(s, acts);
    RunKeeps(s, acts, Key(0, 0));
    if p in t.use {
      assert UseOk(t, p);
      var b := t.use[p].b;
      RunKeeps(s, acts, t.buf[b].key);
      assert BufOk(t, b);
      if t.buf[b].valid {
        NowCached(t, t.buf[b].key, b);
      }
    }
  }

  /** No buffer of a block in the log is recycled: while the block stays in the log, it stays
      valid in the same buffer. */
  lemma LoggedStays(s: State, a: Action, key: Key, b: nat)
    requires Inv(s) && Enabled(s, a) && key in s.logged && key in Do(s, a).logged && Caches(s, b, key)
    ensures Caches(Do(s, a), b, key)
  {
    if a.Get? && Find(s.buf, s.order, a.key) == NBUF {
      UnusedHasNoUsers(s, Victim(s.buf, s.order), a.p);
    }
  }

  /** A buffer that is referred to is not recycled either. */
  lemma UsedStays(s: State, a: Action, p: nat)
    requires Inv(s) && Enabled(s, a) && p in s.use && p in Do(s, a).use
    ensures var b := s.use[p].b;
            b < NBUF && Do(s, a).use[p].b == b && Do(s, a).buf[b].key == s.buf[b].key
              && (s.buf[b].valid ==> Do(s, a).buf[b].valid)
  {
    assert UseOk(s, p);
    if a.Get? && Find(s.buf, s.order, a.key) == NBUF {
      UnusedHasNoUsers(s, Victim(s.buf, s.order), p);
    }
  }

  /** The buffer that is recycled is, of those that nobody uses, the least recently released. */
  lemma VictimIsOldest(s: State, c: nat)
    requires Inv(s) && Victim(s.buf, s.order) < NBUF && c < NBUF && s.buf[c].refcnt == 0
    ensures s.stamp[Victim(s.buf, s.order)] <= s.stamp[c]
  {
    var v := Victim(s.buf, s.order);
    var i :| 0 <= i < NBUF && s.order[i] == v && forall j :: i < j < NBUF ==> s.buf[s.order[j]].refcnt != 0;
    assert c in s.order;
  }

  /** bget fails only when every buffer is in use or pinned. */
  lemma NoBuffers(s: State, p: nat, key: Key)
    requires Inv(s) && p !in s.use && key.dev > 0 && key in s.disk
    ensures Enabled(s, Get(p, key)) <==>
              (exists b :: 0 <= b < NBUF && s.buf[b].key == key) || (exists b :: 0 <= b < NBUF && s.buf[b].refcnt == 0)
  {
    var f, v := Find(s.buf, s.order, key), Victim(s.buf, s.order);
    assert f < NBUF ==> s.buf[f].key == key;
    assert v < NBUF ==> s.buf[v].refcnt == 0;
    forall b: nat | b < NBUF && f == NBUF && v == NBUF ensures s.buf[b].key != key && s.buf[b].refcnt != 0 {
      NotCached(s, key, b);
      var i := IndexOf(s.order, b);
    }
  }
}
