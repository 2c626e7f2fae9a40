/** The request queue of kernel/virtio_disk.c: the driver, the device and the two rings between
    them (sections 2.6 and 5.2 of VIRTIO 1.1). The driver's steps happen under vdisk_lock; the
    device takes requests in order and finishes them in any order. */
module VirtioModel {
  const NUM: nat := 8
  const WRAP: nat := 0x1_0000

  const F_NEXT: nat := 1
  const F_WRITE: nat := 2

  /** What a descriptor's address points at. */
  datatype Addr = Null | Ops(i: nat) | Data(b: nat) | Status(i: nat)

  datatype Desc = Desc(addr: Addr, flags: nat, next: nat)

  const NoDesc: Desc := Desc(Null, 0, 0)

  /** info[].b is a buffer's number plus one, or 0. */
  datatype Info = Info(b: nat, status: nat)

  datatype Phase = Offered | Taken | Used | Done

  datatype Req = Req(b: nat, write: bool, mid: nat, last: nat, phase: Phase)

  /** `busy` are the buffers with b->disk set. `reqs` has the requests in flight by the head of
      their chain; `offered` and `finished` are those in the avail ring that the device has not
      taken, and those in the used ring that the driver has not seen. */
  datatype State = State(
    free: seq<bool>, desc: seq<Desc>, info: seq<Info>, busy: set<nat>,
    avail: seq<nat>, availIdx: nat, devIdx: nat, used: seq<nat>, usedIdx: nat, seen: nat,
    reqs: map<nat, Req>, offered: seq<nat>, finished: seq<nat>)

  datatype Action =
    | Submit(b: nat, write: bool)   // virtio_disk_rw up to its wait
    | Take                          // the device takes the next request
    | Finish(h: nat)                // the device is done with request h
    | See                           // one round of virtio_disk_intr
    | Reap(h: nat)                  // virtio_disk_rw after its wait

  // ----- alloc_desc and alloc3_desc -----

  /** The first free descriptor, or NUM. */
  function FirstFree(free: seq<bool>): (i: nat)
    ensures i <= |free| && (i < |free| ==> free[i]) && forall k :: 0 <= k < i ==> !free[k]
  {
    if free == [] || free[0] then 0 else FirstFree(free[1..]) + 1
  }

  datatype Three = Three(a: nat, b: nat, c: nat) | NoThree

  function Alloc3(free: seq<bool>): (t: Three)
    ensures t.Three? ==> t.a < t.b < t.c < |free| && free[t.a] && free[t.b] && free[t.c]
  {
    var a := FirstFree(free);
    if a == |free| then NoThree else
      var b := FirstFree(free[a := false]);
      if b == |free| then NoThree else
        assert a != b;
        var c := FirstFree(free[a := false][b := false]);
        if c == |free| then NoThree else Three(a, b, c)
  }

  // ----- Steps -----

  ghost predicate Shape(s: State) {
    && |s.free| == NUM && |s.desc| == NUM && |s.info| == NUM && |s.avail| == NUM && |s.used| == NUM
    && s.availIdx < WRAP && s.devIdx < WRAP && s.usedIdx < WRAP && s.seen < WRAP
  }

  function Bump(idx: nat): nat { (idx + 1) % WRAP }

  ghost predicate Enabled(s: State, a: Action)
    requires Shape(s)
  {
    match a
    case Submit(b, _) => Alloc3(s.free).Three? && forall h :: h in s.reqs ==> s.reqs[h].b != b
    case Take => s.devIdx != s.availIdx
    case Finish(h) => h < NUM && h in s.reqs && s.reqs[h].phase.Taken?
    case See => s.seen != s.usedIdx
    case Reap(h) => h < NUM && h in s.reqs && s.reqs[h].b !in s.busy
  }

  /** The device writes the buffer of a read request. */
  function DataFlags(write: bool): nat { (if write then 0 else F_WRITE) + F_NEXT }

  /** The three descriptors of a request. */
  function Formatted(desc: seq<Desc>, t: Three, b: nat, write: bool): seq<Desc>
    requires t.Three? && t.a < |desc| && t.b < |desc| && t.c < |desc|
  {
    desc[t.a := Desc(Ops(t.a), F_NEXT, t.b)]
        [t.b := Desc(Data(b), DataFlags(write), t.c)]
        [t.c := Desc(Status(t.a), F_WRITE, 0)]
  }

  /** A part of a request as the device sees it: where it is and whether the device writes it. */
  datatype Part = Part(addr: Addr, writes: bool)

  /** What the device makes of the chain that starts at descriptor i, following NEXT for at most
      as many descriptors as there are (section 2.6.5 of VIRTIO 1.1). */
  function Chain(desc: seq<Desc>, i: nat, left: nat): seq<Part>
    decreases left
  {
    if left == 0 || i >= |desc| then [] else
      [Part(desc[i].addr, desc[i].flags / F_WRITE % 2 == 1)] +
      if desc[i].flags % 2 == F_NEXT then Chain(desc, desc[i].next, left - 1) else []
  }

  /** A request as section 5.2.6 of VIRTIO 1.1 lays it out: a header that the device reads, the
      data, which it writes when the disk is read, and a status that it writes. */
  function Request(h: nat, b: nat, write: bool): seq<Part> {
    [Part(Ops(h), false), Part(Data(b), !write), Part(Status(h), true)]
  }

  function Freed(s: State, i: nat): State
    requires i < |s.free| && i < |s.desc|
  {
    s.(free := s.free[i := true], desc := s.desc[i := NoDesc])
  }

  ghost function Do(s: State, a: Action): State
    requires Shape(s) && Enabled(s, a)
  {
    match a
    case Submit(b, write) =>
      var t := Alloc3(s.free);
      s.(free := s.free[t.a := false][t.b := false][t.c := false], desc := Formatted(s.desc, t, b, write),
         info := s.info[t.a := Info(b + 1, 0xff)], busy := s.busy + {b},
         avail := s.avail[s.availIdx % NUM := t.a], availIdx := Bump(s.availIdx),
         reqs := s.reqs[t.a := Req(b, write, t.b, t.c, Offered)], offered := s.offered + [t.a])
    case Take =>
      var h := s.avail[s.devIdx % NUM];
      s.(devIdx := Bump(s.devIdx), offered := if s.offered == [] then [] else s.offered[1..],
         reqs := if h in s.reqs then s.reqs[h := s.reqs[h].(phase := Taken)] else s.reqs)
    case Finish(h) =>
      s.(info := s.info[h := s.info[h].(status := 0)], used := s.used[s.usedIdx % NUM := h], usedIdx := Bump(s.usedIdx),
         reqs := s.reqs[h := s.reqs[h].(phase := Used)], finished := s.finished + [h])
    case See =>
      var h := s.used[s.seen % NUM];
      s.(seen := Bump(s.seen), finished := if s.finished == [] then [] else s.finished[1..],
         busy := if h < NUM && s.info[h].b > 0 then s.busy - {s.info[h].b - 1} else s.busy,
         reqs := if h in s.reqs then s.reqs[h := s.reqs[h].(phase := Done)] else s.reqs)
    case Reap(h) =>
      var r := s.reqs[h];
      var s1 := s.(info := s.info[h := s.info[h].(b := 0)], reqs := s.reqs - {h});
      if r.mid < NUM && r.last < NUM then Freed(Freed(Freed(s1, h), r.mid), r.last) else s1
  }

  // ----- Invariant -----

  /** The descriptors of a request. */
  ghost predicate InChain(s: State, h: nat, i: nat) {
    h in s.reqs && (i == h || i == s.reqs[h].mid || i == s.reqs[h].last)
  }

  ghost predicate ReqOk(s: State, h: nat)
    requires Shape(s)
  {
    h in s.reqs ==>
      var r := s.reqs[h];
      && h < NUM && r.mid < NUM && r.last < NUM && h != r.mid && h != r.last && r.mid != r.last
      && s.desc[h] == Desc(Ops(h), F_NEXT, r.mid)
      && s.desc[r.mid] == Desc(Data(r.b), DataFlags(r.write), r.last)
      && s.desc[r.last] == Desc(Status(h), F_WRITE, 0)
      && s.info[h].b == r.b + 1 && (r.b in s.busy <==> !r.phase.Done?)
      && (r.phase.Used? || r.phase.Done? ==> s.info[h].status == 0)
  }

  /** Two requests share neither a descriptor nor a buffer. */
  ghost predicate PairOk(s: State, h: nat, g: nat, i: nat) {
    h in s.reqs && g in s.reqs && h != g ==> s.reqs[h].b != s.reqs[g].b && !(InChain(s, h, i) && InChain(s, g, i))
  }

  /** A descriptor is free exactly when it is in no chain, and then it is clear. */
  ghost predicate DescOk(s: State, i: nat)
    requires Shape(s)
  {
    i < NUM ==> (s.free[i] <==> forall h :: h in s.reqs ==> !InChain(s, h, i)) && (s.free[i] ==> s.desc[i] == NoDesc)
  }

  /** A ring holds a queue: `lo` and `hi` are where it starts and ends. */
  ghost predicate RingOk(ring: seq<nat>, lo: nat, hi: nat, queue: seq<nat>)
  {
    && |ring| == NUM && |queue| <= NUM && hi == (lo + |queue|) % WRAP
    && forall k :: 0 <= k < |queue| ==> ring[(lo + k) % WRAP % NUM] == queue[k]
  }

  /** The queue has each request of the phase once. */
  ghost predicate QueueOk(s: State, queue: seq<nat>, phase: Phase) {
    && (forall h :: h in s.reqs && s.reqs[h].phase == phase ==> h in queue)
    && (forall k :: 0 <= k < |queue| ==> queue[k] in s.reqs && s.reqs[queue[k]].phase == phase)
    && (forall j, k :: 0 <= j < k < |queue| ==> queue[j] != queue[k])
  }

  ghost predicate Inv(s: State) {
    && Shape(s) && (forall h :: ReqOk(s, h)) && (forall h, g, i :: PairOk(s, h, g, i)) && (forall i :: DescOk(s, i))
    && RingOk(s.avail, s.devIdx, s.availIdx, s.offered) && RingOk(s.used, s.seen, s.usedIdx, s.finished)
    && QueueOk(s, s.offered, Offered) && QueueOk(s, s.finished, Used)
  }
}
