/** What every step of the driver and the device keeps. */
module VirtioSafety {
  import opened Basics
  import opened VirtioModel

  // ----- Rings of 16-bit indices -----

  lemma Slots(x: nat, y: nat)
    ensures x % WRAP % NUM == x % NUM
    ensures x < y < x + NUM ==> x % NUM != y % NUM
  {
  }

  lemma PushStep(lo: nat, n: nat)
    requires lo < WRAP && n < NUM
    ensures ((lo + n) % WRAP + 1) % WRAP == (lo + (n + 1)) % WRAP
  {
  }

  lemma RingPush(ring: seq<nat>, lo: nat, hi: nat, queue: seq<nat>, x: nat)
    requires RingOk(ring, lo, hi, queue) && |queue| < NUM && lo < WRAP
    ensures hi < WRAP && RingOk(ring[hi % NUM := x], lo, Bump(hi), queue + [x])
  {
    var n := |queue|;
    PushStep(lo, n);
    Slots(lo + n, 0);
    forall k | 0 <= k <= n ensures ring[hi % NUM := x][(lo + k) % WRAP % NUM] == (queue + [x])[k] {
      Slots(lo + k, lo + n);
    }
  }

  lemma RingPop(ring: seq<nat>, lo: nat, hi: nat, queue: seq<nat>)
    requires RingOk(ring, lo, hi, queue) && lo < WRAP && lo != hi
    ensures queue != [] && ring[lo % NUM] == queue[0] && RingOk(ring, Bump(lo), hi, queue[1..])
  {
    Slots(lo, 0);
    RingEmpty(ring, lo, hi, queue);
    assert ring[(lo + 0) % WRAP % NUM] == queue[0];
    PopStep(lo, |queue|);
    forall k | 0 <= k < |queue| - 1 ensures ring[(Bump(lo) + k) % WRAP % NUM] == queue[1..][k] {
      PopStep(lo, k + 1);
      assert ring[(lo + (k + 1)) % WRAP % NUM] == queue[k + 1];
    }
  }

  lemma PopStep(lo: nat, n: nat)
    requires lo < WRAP && 0 < n <= NUM
    ensures (Bump(lo) + (n - 1)) % WRAP == (lo + n) % WRAP
  {
  }

  /** The test of virtio_disk_intr and of the device: the indices differ exactly when there is
      something in the ring, although they wrap around. */
  lemma RingEmpty(ring: seq<nat>, lo: nat, hi: nat, queue: seq<nat>)
    requires RingOk(ring, lo, hi, queue) && lo < WRAP
    ensures lo == hi <==> queue == []
  {
  }

  // ----- Counting descriptors -----

  ghost function FreeSet(free: seq<bool>): set<nat> {
    set i: nat | i < |free| && free[i]
  }

  lemma NoneFree(free: seq<bool>)
    ensures FirstFree(free) == |free| <==> FreeSet(free) == {}
  {
    if FirstFree(free) < |free| {
      assert FirstFree(free) in FreeSet(free);
    }
  }

  lemma TakeOne(free: seq<bool>, a: nat)
    requires a < |free| && free[a]
    ensures |FreeSet(free[a := false])| == |FreeSet(free)| - 1
  {
    assert FreeSet(free[a := false]) == FreeSet(free) - {a};
  }

  /** alloc3_desc succeeds exactly when three descriptors are free. */
  lemma Alloc3Iff(free: seq<bool>)
    ensures Alloc3(free).Three? <==> |FreeSet(free)| >= 3
  {
    hide FirstFree, FreeSet;
    var a := FirstFree(free);
    NoneFree(free);
    if a < |free| {
      TakeOne(free, a);
      var f1 := free[a := false];
      var b := FirstFree(f1);
      NoneFree(f1);
      if b < |free| {
        TakeOne(f1, b);
        NoneFree(f1[b := false]);
        var c := FirstFree(f1[b := false]);
        if c < |free| { TakeOne(f1[b := false], c); }
      }
    }
  }

  ghost predicate Covered(s: State, hs: set<nat>, i: nat) {
    exists h :: h in hs && InChain(s, h, i)
  }

  ghost function ChainSet(s: State, hs: set<nat>): set<nat> {
    set i: nat | i < NUM && Covered(s, hs, i)
  }

  lemma ChainSplit(s: State, hs: set<nat>, h: nat, i: nat)
    requires Inv(s) && hs <= s.reqs.Keys && h in hs
    ensures s.reqs[h].mid < NUM && s.reqs[h].last < NUM
    ensures var mine := {h, s.reqs[h].mid, s.reqs[h].last};
            && |mine| == 3 && (i in mine ==> i < NUM && !Covered(s, hs - {h}, i))
            && (Covered(s, hs, i) <==> Covered(s, hs - {h}, i) || i in mine)
  {
    hide DescOk, RingOk, QueueOk;
    var rest := hs - {h};
    assert ReqOk(s, h);
    if Covered(s, rest, i) {
      var g :| g in rest && InChain(s, g, i);
      assert g in hs && PairOk(s, h, g, i);
    }
    if Covered(s, hs, i) {
      var g :| g in hs && InChain(s, g, i);
      assert g != h ==> g in rest;
    }
    assert InChain(s, h, h) && InChain(s, h, s.reqs[h].mid) && InChain(s, h, s.reqs[h].last);
  }

  lemma {:induction false} ChainCount(s: State, hs: set<nat>)
    requires Inv(s) && hs <= s.reqs.Keys
    ensures |ChainSet(s, hs)| == 3 * |hs|
    decreases |hs|
  {
    hide Inv, Covered;
    if hs != {} {
      var h :| h in hs;
      var rest := hs - {h};
      ChainCount(s, rest);
      ChainSplit(s, hs, h, h);
      var mine := {h, s.reqs[h].mid, s.reqs[h].last};
      forall i: nat ensures i in ChainSet(s, hs) <==> i in ChainSet(s, rest) || i in mine { ChainSplit(s, hs, h, i); }
      assert ChainSet(s, hs) == ChainSet(s, rest) + mine;
      forall i: nat | i in mine ensures i !in ChainSet(s, rest) { ChainSplit(s, hs, h, i); }
      assert |ChainSet(s, rest) + mine| == |ChainSet(s, rest)| + |mine|;
    } else {
      NoChains(s);
    }
  }

  lemma NoChains(s: State)
    ensures ChainSet(s, {}) == {}
  {
  }

  lemma FreeOrChained(s: State, i: nat)
    requires Inv(s) && i < NUM
    ensures i in FreeSet(s.free) <==> i !in ChainSet(s, s.reqs.Keys)
  {
    hide ReqOk, PairOk, RingOk, QueueOk;
    assert DescOk(s, i);
    assert Covered(s, s.reqs.Keys, i) <==> !forall h :: h in s.reqs ==> !InChain(s, h, i);
  }

  /** Every descriptor is free or in exactly one chain of three: two requests at most. */
  lemma Partition(s: State)
    requires Inv(s)
    ensures |FreeSet(s.free)| + 3 * |s.reqs| == NUM && |s.reqs| <= 2
  {
    var all := Upto(NUM);
    var chains, frees := ChainSet(s, s.reqs.Keys), FreeSet(s.free);
    ChainCount(s, s.reqs.Keys);
    assert |s.free| == NUM;
    forall i: nat | i < NUM ensures i in frees <==> i !in chains { FreeOrChained(s, i); }
    Parts(all, frees, chains);
    assert |s.reqs.Keys| == |s.reqs|;
  }

  lemma Parts(all: set<nat>, a: set<nat>, b: set<nat>)
    requires a <= all && b <= all && forall i :: i in all ==> (i in a <==> i !in b)
    ensures |a| + |b| == |all|
  {
    assert a + b == all && a !! b;
    assert |a + b| == |a| + |b|;
  }

  // ----- Steps -----

  /** A request in flight is not in a queue that is full, so the rings have room. */
  lemma QueueRoom(s: State, queue: seq<nat>, phase: Phase)
    requires Inv(s) && QueueOk(s, queue, phase)
    ensures |queue| <= 2
  {
    hide ReqOk, PairOk, DescOk, RingOk;
    Partition(s);
    QueueSet(queue);
    SubsetSize(Elems(queue), s.reqs.Keys);
    assert |s.reqs.Keys| == |s.reqs|;
  }

  ghost function Elems(queue: seq<nat>): (r: set<nat>)
    ensures forall x :: x in r <==> x in queue
  {
    if queue == [] then {} else Elems(queue[1..]) + {queue[0]}
  }

  lemma {:induction false} QueueSet(queue: seq<nat>)
    requires forall j, k :: 0 <= j < k < |queue| ==> queue[j] != queue[k]
    ensures |Elems(queue)| == |queue|
  {
    if queue != [] {
      QueueSet(queue[1..]);
      assert queue[0] !in queue[1..];
      assert Elems(queue) == {queue[0]} + Elems(queue[1..]);
    }
  }

  /** A step that moves a request on to its next phase. */
  ghost predicate SameButPhase(s: State, s': State, h: nat, phase: Phase) {
    && h in s.reqs && s'.reqs == s.reqs[h := s.reqs[h].(phase := phase)] && s'.free == s.free && s'.desc == s.desc
  }

  lemma PhaseKeeps(s: State, s': State, h: nat, phase: Phase)
    requires Inv(s) && Shape(s') && SameButPhase(s, s', h, phase)
    ensures (forall g, f, i :: PairOk(s', g, f, i)) && (forall i :: DescOk(s', i))
  {
    hide ReqOk, RingOk, QueueOk;
    forall g, f, i ensures PairOk(s', g, f, i) { assert PairOk(s, g, f, i); SameChains(s, s', i); }
    forall i ensures DescOk(s', i) { assert DescOk(s, i); SameChains(s, s', i); }
  }

  lemma SameChains(s: State, s': State, i: nat)
    requires s'.reqs.Keys == s.reqs.Keys
             && forall h :: h in s.reqs ==> s'.reqs[h].mid == s.reqs[h].mid && s'.reqs[h].last == s.reqs[h].last
    ensures forall h :: InChain(s', h, i) <==> InChain(s, h, i)
  {
  }

  lemma TakeKeeps(s: State)
    requires Inv(s) && Enabled(s, Take)
    ensures Inv(Do(s, Take)) && s.offered != [] && s.avail[s.devIdx % NUM] == s.offered[0]
    ensures var s', h := Do(s, Take), s.offered[0];
            && h in s.reqs && s.reqs[h].phase.Offered?
            && s' == s.(devIdx := s'.devIdx, offered := s.offered[1..], reqs := s.reqs[h := s.reqs[h].(phase := Taken)])
  {
    hide RingOk, DescOk, PairOk;
    RingPop(s.avail, s.devIdx, s.availIdx, s.offered);
    var s', h := Do(s, Take), s.offered[0];
    PhaseKeeps(s, s', h, Taken);
    forall g ensures ReqOk(s', g) { assert ReqOk(s, g); }
    PopQueue(s, s', s.offered, Offered);
    OtherQueue(s, s', s.finished, Used, h);
  }

  lemma OtherQueue(s: State, s': State, queue: seq<nat>, phase: Phase, h: nat)
    requires QueueOk(s, queue, phase) && h in s.reqs && s.reqs[h].phase != phase && s'.reqs.Keys == s.reqs.Keys
    requires s'.reqs[h].phase != phase && forall g :: g in s.reqs && g != h ==> s'.reqs[g] == s.reqs[g]
    ensures QueueOk(s', queue, phase)
  {
  }

  lemma FinishKeeps(s: State, h: nat)
    requires Inv(s) && Enabled(s, Finish(h))
    ensures Inv(Do(s, Finish(h)))
  {
    hide RingOk, DescOk, PairOk;
    var s' := Do(s, Finish(h));
    QueueRoom(s, s.finished, Used);
    RingPush(s.used, s.seen, s.usedIdx, s.finished, h);
    PhaseKeeps(s, s', h, Used);
    forall g ensures ReqOk(s', g) { assert ReqOk(s, g); }
    OtherQueue(s, s', s.offered, Offered, h);
    PushQueue(s, s', s.finished, Used, h);
  }

  /** The device reports success, and puts the request into the used ring. */
  lemma FinishReports(s: State, h: nat)
    requires Inv(s) && Enabled(s, Finish(h))
    ensures var s' := Do(s, Finish(h));
            && s' == s.(info := s'.info, used := s'.used, usedIdx := s'.usedIdx, finished := s.finished + [h],
                        reqs := s.reqs[h := s.reqs[h].(phase := Used)])
            && s'.info == s.info[h := Info(s.reqs[h].b + 1, 0)] && s'.used[s.usedIdx % NUM] == h
  {
    assert ReqOk(s, h);
  }

  lemma PushQueue(s: State, s': State, queue: seq<nat>, phase: Phase, h: nat)
    requires QueueOk(s, queue, phase) && (h in s.reqs ==> s.reqs[h].phase != phase) && h in s'.reqs
             && s'.reqs[h].phase == phase
    requires s'.reqs.Keys == s.reqs.Keys + {h} && forall g :: g in s.reqs && g != h ==> s'.reqs[g] == s.reqs[g]
    ensures QueueOk(s', queue + [h], phase)
  {
    assert (queue + [h])[|queue|] == h;
  }

  /** The interrupt handler finds the status set, and releases the buffer of the request. */
  lemma SeeKeeps(s: State)
    requires Inv(s) && Enabled(s, See)
    ensures Inv(Do(s, See)) && s.finished != []
    ensures var h := s.used[s.seen % NUM];
            && h == s.finished[0] && h in s.reqs && h < NUM && s.reqs[h].phase.Used? && s.info[h].status == 0
            && s.reqs[h].b in s.busy && Do(s, See).busy == s.busy - {s.reqs[h].b}
            && Do(s, See) == s.(seen := Do(s, See).seen, busy := Do(s, See).busy, finished := s.finished[1..],
                                reqs := s.reqs[h := s.reqs[h].(phase := Done)])
  {
    hide RingOk, DescOk;
    RingPop(s.used, s.seen, s.usedIdx, s.finished);
    var s', h := Do(s, See), s.finished[0];
    assert ReqOk(s, h);
    PhaseKeeps(s, s', h, Done);
    forall g ensures ReqOk(s', g) { assert ReqOk(s, g) && PairOk(s, g, h, 0); }
    PopQueue(s, s', s.finished, Used);
    OtherQueue(s, s', s.offered, Offered, h);
  }

  lemma PopQueue(s: State, s': State, queue: seq<nat>, phase: Phase)
    requires QueueOk(s, queue, phase) && queue != [] && s'.reqs.Keys == s.reqs.Keys && queue[0] in s.reqs
    requires s'.reqs[queue[0]].phase != phase && forall h :: h in s.reqs && h != queue[0] ==> s'.reqs[h] == s.reqs[h]
    ensures QueueOk(s', queue[1..], phase)
  {
    forall h | h in s'.reqs && s'.reqs[h].phase == phase ensures h in queue[1..] {
      assert h in queue;
      var k :| 0 <= k < |queue| && queue[k] == h;
      assert queue[1..][k - 1] == h;
    }
  }

  lemma SubmitKeeps(s: State, b: nat, write: bool)
    requires Inv(s) && Enabled(s, Submit(b, write))
    ensures var s', t := Do(s, Submit(b, write)), Alloc3(s.free);
            && Inv(s') && t.a !in s.reqs && s.free[t.a] && s.free[t.b] && s.free[t.c]
            && s' == s.(free := s.free[t.a := false][t.b := false][t.c := false], desc := s'.desc,
                        info := s.info[t.a := Info(b + 1, 0xff)], busy := s.busy + {b}, avail := s'.avail,
                        availIdx := s'.availIdx, reqs := s.reqs[t.a := Req(b, write, t.b, t.c, Offered)],
                        offered := s.offered + [t.a])
            && s'.avail[s.availIdx % NUM] == t.a
            && forall i :: 0 <= i < NUM && i != t.a && i != t.b && i != t.c ==> s'.desc[i] == s.desc[i]
  {
    hide RingOk;
    var s', t := Do(s, Submit(b, write)), Alloc3(s.free);
    QueueRoom(s, s.offered, Offered);
    RingPush(s.avail, s.devIdx, s.availIdx, s.offered, t.a);
    assert DescOk(s, t.a) && DescOk(s, t.b) && DescOk(s, t.c);
    assert t.a !in s.reqs by { assert t.a in s.reqs ==> InChain(s, t.a, t.a); }
    SubmitChains(s, b, write);
    PushQueue(s, s', s.offered, Offered, t.a);
    assert QueueOk(s', s.finished, Used);
  }

  lemma SubmitChains(s: State, b: nat, write: bool)
    requires Inv(s) && Enabled(s, Submit(b, write))
    ensures var s' := Do(s, Submit(b, write));
            (forall h :: ReqOk(s', h)) && (forall h, g, i :: PairOk(s', h, g, i)) && (forall i :: DescOk(s', i))
  {
    hide RingOk, QueueOk, Alloc3;
    var s', t := Do(s, Submit(b, write)), Alloc3(s.free);
    assert DescOk(s, t.a) && DescOk(s, t.b) && DescOk(s, t.c);
    assert t.a !in s.reqs by { assert t.a in s.reqs ==> InChain(s, t.a, t.a); }
    forall h, i ensures InChain(s', h, i) <==> InChain(s, h, i) || (h == t.a && (i == t.a || i == t.b || i == t.c)) { }
    forall h ensures ReqOk(s', h) {
      assert ReqOk(s, h);
      if h in s.reqs { assert InChain(s, h, h) && InChain(s, h, s.reqs[h].mid) && InChain(s, h, s.reqs[h].last); }
    }
    forall h, g, i ensures PairOk(s', h, g, i) { assert PairOk(s, h, g, i); }
    forall i ensures DescOk(s', i) {
      assert DescOk(s, i) && InChain(s', t.a, t.a) && InChain(s', t.a, t.b) && InChain(s', t.a, t.c);
      assert forall h :: h in s'.reqs ==> h in s.reqs || h == t.a;
      assert forall h :: h in s.reqs ==> h in s'.reqs;
    }
  }

  /** free_chain frees the three descriptors of the request, none of which is free. */
  lemma ReapKeeps(s: State, h: nat)
    requires Inv(s) && Enabled(s, Reap(h))
    ensures Inv(Do(s, Reap(h)))
    ensures var r := s.reqs[h];
            && r.phase.Done? && r.mid < NUM && r.last < NUM && h != r.mid && h != r.last && r.mid != r.last
            && !s.free[h] && !s.free[r.mid] && !s.free[r.last]
            && s.desc[h].flags == F_NEXT && s.desc[h].next == r.mid && s.desc[r.mid].flags == DataFlags(r.write)
              && s.desc[r.mid].next == r.last && s.desc[r.last].flags == F_WRITE
    ensures var r := s.reqs[h];
            Do(s, Reap(h)) == s.(free := s.free[h := true][r.mid := true][r.last := true],
                                 desc := s.desc[h := NoDesc][r.mid := NoDesc][r.last := NoDesc],
                                 info := s.info[h := s.info[h].(b := 0)], reqs := s.reqs - {h})
  {
    hide RingOk, PairOk;
    var s', r := Do(s, Reap(h)), s.reqs[h];
    assert ReqOk(s, h) && DescOk(s, h) && DescOk(s, r.mid) && DescOk(s, r.last);
    assert InChain(s, h, h) && InChain(s, h, r.mid) && InChain(s, h, r.last);
    ReapChains(s, h);
    assert QueueOk(s', s.offered, Offered) && QueueOk(s', s.finished, Used);
  }

  lemma ReapChains(s: State, h: nat)
    requires Inv(s) && Enabled(s, Reap(h))
    ensures var s' := Do(s, Reap(h));
            (forall g :: ReqOk(s', g)) && (forall f, g, i :: PairOk(s', f, g, i)) && (forall i :: DescOk(s', i))
  {
    hide RingOk, QueueOk;
    var s', r := Do(s, Reap(h)), s.reqs[h];
    assert ReqOk(s, h);
    forall g, i ensures InChain(s', g, i) <==> InChain(s, g, i) && g != h { }
    forall g ensures ReqOk(s', g) {
      assert ReqOk(s, g);
      if g in s.reqs && g != h {
        assert InChain(s, g, g) && InChain(s, g, s.reqs[g].mid) && InChain(s, g, s.reqs[g].last);
        assert PairOk(s, h, g, g) && PairOk(s, h, g, s.reqs[g].mid) && PairOk(s, h, g, s.reqs[g].last);
      }
    }
    forall f, g, i ensures PairOk(s', f, g, i) { assert PairOk(s, f, g, i); }
    forall i ensures DescOk(s', i) {
      assert DescOk(s, i);
      forall g | g in s'.reqs && InChain(s, h, i) ensures !InChain(s', g, i) { assert PairOk(s, h, g, i); }
    }
  }

  lemma StepKeeps(s: State, a: Action)
    requires Inv(s) && Enabled(s, a)
    ensures Inv(Do(s, a))
  {
    hide Inv, Do, Enabled;
    match a
    case Submit(b, write) => SubmitKeeps(s, b, write);
    case Take => TakeKeeps(s);
    case Finish(h) => FinishKeeps(s, h);
    case See => SeeKeeps(s);
    case Reap(h) => ReapKeeps(s, h);
  }

  // ----- Every run -----

  ghost predicate CanRun(s: State, acts: seq<Action>)
    requires Inv(s)
    decreases |acts|
  {
    acts == [] || (Enabled(s, acts[0]) && (StepKeeps(s, acts[0]); CanRun(Do(s, acts[0]), acts[1..])))
  }

  /** The state after a run, which keeps the invariant. */
  ghost function Exec(s: State, acts: seq<Action>): (s': State)
    requires Inv(s) && CanRun(s, acts)
    ensures Inv(s')
    decreases |acts|
  {
    if acts == [] then s else
      StepKeeps(s, acts[0]);
      Exec(Do(s, acts[0]), acts[1..])
  }

  lemma ChainIs(desc: seq<Desc>, h: nat, m: nat, l: nat, b: nat, write: bool)
    requires |desc| == NUM && h < NUM && m < NUM && l < NUM
    requires desc[h] == Desc(Ops(h), F_NEXT, m) && desc[m] == Desc(Data(b), DataFlags(write), l)
    requires desc[l] == Desc(Status(h), F_WRITE, 0)
    ensures Chain(desc, h, NUM) == Request(h, b, write)
  {
    assert Chain(desc, l, NUM - 2) == [Part(Status(h), true)];
    assert Chain(desc, m, NUM - 1) == [Part(Data(b), !write)] + Chain(desc, l, NUM - 2);
  }

  /** Until its chain is freed, a request is there for the device as it was made. */
  lemma DeviceReads(s: State, h: nat)
    requires Inv(s) && h in s.reqs
    ensures Chain(s.desc, h, NUM) == Request(h, s.reqs[h].b, s.reqs[h].write)
  {
    assert ReqOk(s, h);
    ChainIs(s.desc, h, s.reqs[h].mid, s.reqs[h].last, s.reqs[h].b, s.reqs[h].write);
  }

  /** After virtio_disk_init. */
  ghost predicate Init(s: State) {
    && Shape(s) && (forall i :: 0 <= i < NUM ==> s.free[i] && s.desc[i] == NoDesc) && s.busy == {}
    && s.availIdx == 0 && s.devIdx == 0 && s.usedIdx == 0 && s.seen == 0 && s.reqs == map[] && s.offered == []
      && s.finished == []
  }

  lemma InitInv(s: State)
    requires Init(s)
    ensures Inv(s)
  {
  }

  /** In every run a new request has to wait exactly while two are in flight. */
  lemma WaitsForTwo(s: State, acts: seq<Action>)
    requires Init(s) && Inv(s) && CanRun(s, acts)
    ensures |Exec(s, acts).reqs| <= 2
    ensures Alloc3(Exec(s, acts).free).Three? <==> |Exec(s, acts).reqs| < 2
  {
    hide Inv;
    Partition(Exec(s, acts));
    Alloc3Iff(Exec(s, acts).free);
  }

  /** A request that is alone in the rings goes from the driver to the device and back, and leaves
      nothing behind: descriptors, requests and queues are as before. */
  lemma RequestRoundTrip(s: State, b: nat, write: bool) returns (h: nat, acts: seq<Action>)
    requires Inv(s) && Enabled(s, Submit(b, write)) && s.offered == [] && s.finished == []
    ensures acts == [Submit(b, write), Take, Finish(h), See, Reap(h)] && CanRun(s, acts) && h !in s.reqs
    ensures var s' := Exec(s, acts);
            s'.free == s.free && s'.desc == s.desc && s'.reqs == s.reqs && s'.busy == s.busy - {b} && s'.offered == []
              && s'.finished == []
  {
    hide ReqOk, PairOk, DescOk, RingOk, QueueOk, Do, CanRun, Exec, Alloc3;
    var t := Alloc3(s.free);
    h := t.a;
    SubmitKeeps(s, b, write);
    var s1 := Do(s, Submit(b, write));
    FreeAreClear(s, t);
    Waiting(s1);
    TakeKeeps(s1);
    var s2 := Do(s1, Take);
    FinishKeeps(s2, h);
    FinishReports(s2, h);
    var s3 := Do(s2, Finish(h));
    Waiting(s3);
    SeeKeeps(s3);
    var s4 := Do(s3, See);
    ReapKeeps(s4, h);
    var s5 := Do(s4, Reap(h));
    FiveSteps(s, Submit(b, write), Take, Finish(h), See, Reap(h));
    acts := [Submit(b, write), Take, Finish(h), See, Reap(h)];
    assert s5.free == s.free && s5.desc == s.desc;
    assert s5.reqs == s.reqs;
  }

  lemma FreeAreClear(s: State, t: Three)
    requires Inv(s) && t.Three? && t.a < NUM && t.b < NUM && t.c < NUM && s.free[t.a] && s.free[t.b] && s.free[t.c]
    ensures s.desc[t.a] == NoDesc && s.desc[t.b] == NoDesc && s.desc[t.c] == NoDesc
  {
    assert DescOk(s, t.a) && DescOk(s, t.b) && DescOk(s, t.c);
  }

  /** The indices tell that there is something in a ring. */
  lemma Waiting(s: State)
    requires Inv(s)
    ensures (s.offered != [] ==> Enabled(s, Take)) && (s.finished != [] ==> Enabled(s, See))
  {
    hide ReqOk, PairOk, DescOk;
    RingEmpty(s.avail, s.devIdx, s.availIdx, s.offered);
    RingEmpty(s.used, s.seen, s.usedIdx, s.finished);
  }

  lemma FiveSteps(s: State, a: Action, b: Action, c: Action, d: Action, e: Action)
    requires Inv(s) && Enabled(s, a)
    requires var s1 := Do(s, a); Inv(s1) && Enabled(s1, b)
    requires var s2 := Do(Do(s, a), b); Inv(s2) && Enabled(s2, c)
    requires var s3 := Do(Do(Do(s, a), b), c); Inv(s3) && Enabled(s3, d)
    requires var s4 := Do(Do(Do(Do(s, a), b), c), d); Inv(s4) && Enabled(s4, e)
    ensures CanRun(s, [a, b, c, d, e]) && Exec(s, [a, b, c, d, e]) == Do(Do(Do(Do(Do(s, a), b), c), d), e)
  {
    hide ReqOk, PairOk, DescOk, RingOk, QueueOk, Do, Enabled, CanRun, Exec;
    var s1 := Do(s, a);
    var s2 := Do(s1, b);
    var s3 := Do(s2, c);
    var s4 := Do(s3, d);
    StepKeeps(s4, e);
    None(Do(s4, e));
    Cons(s4, e, []);
    Cons(s3, d, [e] + []);
    Cons(s2, c, [d] + ([e] + []));
    Cons(s1, b, [c] + ([d] + ([e] + [])));
    Cons(s, a, [b] + ([c] + ([d] + ([e] + []))));
    assert [a] + ([b] + ([c] + ([d] + ([e] + [])))) == [a, b, c, d, e];
  }

  lemma None(s: State)
    requires Inv(s)
    ensures CanRun(s, []) && Exec(s, []) == s
  {
  }

  lemma Cons(s: State, a: Action, acts: seq<Action>)
    requires Inv(s) && Enabled(s, a) && Inv(Do(s, a)) && CanRun(Do(s, a), acts)
    ensures CanRun(s, [a] + acts) && Exec(s, [a] + acts) == Exec(Do(s, a), acts)
  {
    hide Inv, Do, Enabled;
    assert ([a] + acts)[1..] == acts;
  }

  /** A buffer is released only by the interrupt that finds its own request finished. */
  lemma ReleasesOwn(s: State, a: Action, b: nat)
    requires Inv(s) && Enabled(s, a) && b in s.busy && b !in Do(s, a).busy
    ensures a.See? && s.finished != [] && s.finished[0] in s.reqs && s.reqs[s.finished[0]].b == b
            && s.reqs[s.finished[0]].phase.Used?
  {
    hide RingOk, ReqOk, PairOk, DescOk;
    if a.See? {
      SeeKeeps(s);
    }
  }
}
