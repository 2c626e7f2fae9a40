/** The loops of kernel/virtio_disk.c over the descriptor and ring arrays. */
module Virtio {
  import opened VirtioModel
  import opened VirtioSafety

  lemma {:induction false} FirstFreeIs(free: seq<bool>, i: nat)
    requires i <= |free| && (forall k :: 0 <= k < i ==> !free[k]) && (i < |free| ==> free[i])
    ensures FirstFree(free) == i
  {
  }

  class Disk {
    var free: seq<bool>
    var desc: seq<Desc>
    var info: seq<Info>
    var busy: set<nat>
    var avail: seq<nat>
    var availIdx: nat
    var used: seq<nat>
    var usedIdx: nat
    /** disk.used_idx */
    var seen: nat
    /** The state of the machine that the fields are part of. */
    ghost var s: State

    ghost predicate Valid()
      reads this
    {
      && Inv(s) && s.free == free && s.desc == desc && s.info == info && s.busy == busy
      && s.avail == avail && s.availIdx == availIdx && s.used == used && s.usedIdx == usedIdx && s.seen == seen
    }

    /** virtio_disk_init: nothing is in use and the rings are empty. */
    constructor ()
      ensures Valid() && Init(s)
    {
      free, desc, info := seq(NUM, _ => true), seq(NUM, _ => NoDesc), seq(NUM, _ => Info(0, 0));
      busy, avail, availIdx, used, usedIdx, seen := {}, seq(NUM, _ => 0), 0, seq(NUM, _ => 0), 0, 0;
      s := State(seq(NUM, _ => true), seq(NUM, _ => NoDesc), seq(NUM, _ => Info(0, 0)), {},
                 seq(NUM, _ => 0), 0, 0, seq(NUM, _ => 0), 0, 0, map[], [], []);
      new;
      InitInv(s);
    }

    method AllocDesc() returns (i: int)
      modifies this`free
      ensures if FirstFree(old(free)) < |old(free)| then i == FirstFree(old(free)) && free == old(free)[i := false]
              else i == -1 && free == old(free)
    {
      i := 0;
      while i < |free|
        invariant 0 <= i <= |free| && free == old(free) && forall k :: 0 <= k < i ==> !free[k]
      {
        if free[i] {
          FirstFreeIs(free, i);
          free := free[i := false];
          return;
        }
        i := i + 1;
      }
      FirstFreeIs(free, i);
      i := -1;
    }

    /** Panics on a descriptor that does not exist or is free. */
    method FreeDesc(i: nat)
      requires |free| == NUM && |desc| == NUM && i < NUM && !free[i]
      modifies this`free, this`desc
      ensures free == old(free)[i := true] && desc == old(desc)[i := NoDesc]
    {
      desc := desc[i := NoDesc];
      free := free[i := true];
    }

    /** What alloc3_desc took before it found too few goes back. */
    method GiveBack(idx: seq<nat>, ghost free0: seq<bool>)
      requires |free| == NUM && |desc| == NUM && free == Cleared(free0, idx) && AllFree(free0, idx)
      requires forall i :: 0 <= i < NUM && free0[i] ==> desc[i] == NoDesc
      modifies this`free, this`desc
      ensures free == free0 && desc == old(desc)
    {
      hide Has, Cleared, AllFree;
      var j := 0;
      HasEnds(idx);
      while j < |idx|
        invariant 0 <= j <= |idx| && |free| == NUM && desc == old(desc)
        invariant forall i :: 0 <= i < NUM ==> free[i] == (free0[i] && !Has(idx, j, i))
      {
        HasStep(free0, idx, j);
        FreeDesc(idx[j]);
        j := j + 1;
      }
    }

    /** Three descriptors or none. */
    method AllocThree() returns (idx: seq<nat>, ok: bool)
      requires |free| == NUM && |desc| == NUM && forall i :: 0 <= i < NUM && free[i] ==> desc[i] == NoDesc
      modifies this`free, this`desc
      ensures desc == old(desc)
      ensures ok <==> Alloc3(old(free)).Three?
      ensures !ok ==> free == old(free)
      ensures ok ==> var t := Alloc3(old(free));
              idx == [t.a, t.b, t.c] && free == old(free)[t.a := false][t.b := false][t.c := false]
    {
      hide FirstFree, Alloc3, Cleared, AllFree;
      idx := [];
      ghost var free0 := free;
      FirstNone(free0);
      for i := 0 to 3
        invariant |idx| == i && |free| == NUM && desc == old(desc) && FirstOnes(free0, idx, free)
      {
        FirstNext(free0, idx, free);
        var d := AllocDesc();
        if d < 0 {
          GiveBack(idx, free0);
          return [], false;
        }
        idx := idx + [d];
      }
      FirstThree(free0, idx, free);
      ok := true;
    }

    /** Follows the chain by its NEXT flags. */
    method FreeChain(h: nat, ghost m: nat, ghost l: nat)
      requires |free| == NUM && |desc| == NUM && h < NUM && m < NUM && l < NUM && h != m && h != l && m != l
      requires !free[h] && !free[m] && !free[l] && desc[h].flags == F_NEXT && desc[h].next == m
      requires desc[m].flags % 2 == 1 && desc[m].next == l && desc[l].flags == F_WRITE
      modifies this`free, this`desc
      ensures free == old(free)[h := true][m := true][l := true]
              && desc == old(desc)[h := NoDesc][m := NoDesc][l := NoDesc]
    {
      var i := h;
      ghost var k := 0;
      while true
        invariant k <= 2 && i == (if k == 0 then h else if k == 1 then m else l)
        invariant free == if k == 0 then old(free)
                          else if k == 1 then old(free)[h := true] else old(free)[h := true][m := true]
        invariant desc == if k == 0 then old(desc)
                          else if k == 1 then old(desc)[h := NoDesc] else old(desc)[h := NoDesc][m := NoDesc]
        decreases 2 - k
      {
        var flag, nxt := desc[i].flags, desc[i].next;
        FreeDesc(i);
        if flag % 2 == 1 {
          i, k := nxt, k + 1;
        } else {
          break;
        }
      }
    }

    /** The chain of a request: what to do, the data, the status. */
    method Format(t: Three, b: nat, write: bool)
      requires |desc| == NUM && t.Three? && t.a < t.b < t.c < NUM && t.a < |info|
      modifies this`desc, this`info
      ensures desc == Formatted(old(desc), t, b, write) && info == old(info)[t.a := Info(b + 1, 0xff)]
      ensures Chain(desc, t.a, NUM) == Request(t.a, b, write)
    {
      desc := desc[t.a := Desc(Ops(t.a), F_NEXT, t.b)];
      desc := desc[t.b := Desc(Data(b), (if write then 0 else F_WRITE) + F_NEXT, t.c)];
      info := info[t.a := Info(b + 1, 0xff)];
      desc := desc[t.c := Desc(Status(t.a), F_WRITE, 0)];
      ChainIs(desc, t.a, t.b, t.c, b, write);
    }

    /** virtio_disk_rw up to its wait for the device, or to its wait for descriptors. The caller
        has locked the buffer, so no other request is for it. */
    method StartRw(b: nat, write: bool) returns (h: nat, ok: bool)
      requires Valid() && forall g :: g in s.reqs ==> s.reqs[g].b != b
      modifies this`free, this`desc, this`info, this`busy, this`avail, this`availIdx, this`s
      ensures Valid() && (ok <==> |old(s).reqs| < 2) && (!ok ==> s == old(s))
      ensures ok ==> Enabled(old(s), Submit(b, write)) && s == Do(old(s), Submit(b, write))
      ensures ok ==> h in s.reqs && h !in old(s).reqs && s.reqs[h].b == b && Chain(desc, h, NUM) == Request(h, b, write)
      ensures ok ==> && s.reqs == old(s).reqs[h := s.reqs[h]] && s.reqs[h].phase.Offered? && s.reqs[h].write == write
                     && busy == old(busy) + {b} && s.offered == old(s).offered + [h]
    {
      hide Inv, Formatted, DataFlags, FirstFree, Alloc3, Chain, Request;
      h := 0;
      FreeIsClear(s);
      var idx;
      idx, ok := AllocThree();
      if ok {
        SubmitKeeps(s, b, write);
        h := idx[0];
        Format(Three(idx[0], idx[1], idx[2]), b, write);
        busy := busy + {b};
        avail := avail[availIdx % NUM := h];
        availIdx := (availIdx + 1) % WRAP;
        s := Do(s, Submit(b, write));
      }
    }

    /** The end of virtio_disk_rw, when the buffer is no longer the disk's. */
    method EndRw(h: nat)
      requires Valid() && h < NUM && h in s.reqs && s.reqs[h].b !in busy
      modifies this`free, this`desc, this`info, this`s
      ensures Valid() && s == Do(old(s), Reap(h))
      ensures h < |old(info)| && info == old(info)[h := old(info)[h].(b := 0)]
      ensures var r := old(s).reqs[h];
              && r.mid < |old(free)| == NUM && r.last < NUM == |old(desc)| && !old(free)[h] && !old(free)[r.mid]
              && !old(free)[r.last] && free == old(free)[h := true][r.mid := true][r.last := true]
              && desc == old(desc)[h := NoDesc][r.mid := NoDesc][r.last := NoDesc]
              && s == old(s).(free := free, desc := desc, info := info, reqs := old(s).reqs - {h})
    {
      hide Inv;
      ghost var r := s.reqs[h];
      InvShape(s);
      ReapKeeps(s, h);
      info := info[h := info[h].(b := 0)];
      FreeChain(h, r.mid, r.last);
      s := Do(s, Reap(h));
    }

    /** The loop of the interrupt handler. Each round finds the status of its request set, and
        releases the buffer of that request and no other. */
    method Intr()
      requires Valid()
      modifies this`busy, this`seen, this`s
      ensures Valid() && s.finished == [] && busy <= old(busy)
      ensures forall h :: h in old(s).reqs ==> h in s.reqs && s.reqs[h].b == old(s).reqs[h].b
      ensures forall h :: h in old(s).reqs ==>
                (s.reqs[h].b in busy <==> !(old(s).reqs[h].phase.Used? || old(s).reqs[h].phase.Done?))
    {
      hide Inv;
      InvShape(s);
      ghost var s0 := s;
      while seen != usedIdx
        invariant Valid() && busy <= old(busy) && SeenSome(s0, s)
        decreases |s.finished|
      {
        InvShape(s);
        SeeKeeps(s);
        var id := used[seen % NUM];
        HasInfo(s, id);
        var b := info[id].b - 1;
        SeenMore(s0, s);
        busy := busy - {b};
        seen := (seen + 1) % WRAP;
        s := Do(s, See);
      }
      AllSeen(s0, s);
    }
  }

  lemma InvShape(s: State)
    requires Inv(s)
    ensures Shape(s) && SeenSome(s, s)
  {
  }

  lemma FreeIsClear(s: State)
    requires Inv(s)
    ensures Shape(s) && (Alloc3(s.free).Three? <==> |s.reqs| < 2)
    ensures forall i :: 0 <= i < NUM && s.free[i] ==> s.desc[i] == NoDesc && i !in s.reqs
  {
    hide RingOk, QueueOk, ReqOk, PairOk;
    Partition(s);
    Alloc3Iff(s.free);
    forall i | 0 <= i < NUM && s.free[i] ensures s.desc[i] == NoDesc && i !in s.reqs {
      assert DescOk(s, i);
      assert i in s.reqs ==> InChain(s, i, i);
    }
  }

  lemma HasInfo(s: State, h: nat)
    requires Inv(s) && h in s.reqs
    ensures h < NUM && s.info[h].b == s.reqs[h].b + 1
  {
    assert ReqOk(s, h);
  }

  /** Some of the finished requests have been seen. */
  ghost predicate SeenSome(s0: State, s: State) {
    && s.usedIdx == s0.usedIdx && s.reqs.Keys == s0.reqs.Keys
    && forall h :: h in s0.reqs ==>
        s.reqs[h] == s0.reqs[h] || (s0.reqs[h].phase.Used? && s.reqs[h] == s0.reqs[h].(phase := Done))
  }

  lemma SeenMore(s0: State, s: State)
    requires Inv(s) && SeenSome(s0, s) && s.seen != s.usedIdx
    ensures Enabled(s, See) && SeenSome(s0, Do(s, See)) && |Do(s, See).finished| < |s.finished|
  {
    hide RingOk, ReqOk, PairOk, DescOk;
    SeeKeeps(s);
  }

  lemma AllSeen(s0: State, s: State)
    requires Inv(s) && SeenSome(s0, s) && s.seen == s.usedIdx
    ensures s.finished == []
    ensures forall h :: h in s0.reqs ==>
              (s.reqs[h].b in s.busy <==> !(s0.reqs[h].phase.Used? || s0.reqs[h].phase.Done?))
  {
    hide RingOk, PairOk, DescOk;
    RingEmpty(s.used, s.seen, s.usedIdx, s.finished);
    forall h | h in s0.reqs ensures s.reqs[h].b in s.busy <==> !(s0.reqs[h].phase.Used? || s0.reqs[h].phase.Done?) {
      assert ReqOk(s, h);
    }
  }

  /** Distinct descriptors that are free. */
  ghost predicate AllFree(free: seq<bool>, idx: seq<nat>) {
    (forall k :: 0 <= k < |idx| ==> idx[k] < |free| && free[idx[k]])
      && forall j, k :: 0 <= j < k < |idx| ==> idx[j] != idx[k]
  }

  ghost function Cleared(free: seq<bool>, idx: seq<nat>): (r: seq<bool>)
    ensures |r| == |free| && forall i :: 0 <= i < |free| ==> r[i] == (free[i] && i !in idx)
  {
    if idx == [] then free else
      var n := |idx| - 1;
      var r := Cleared(free, idx[..n]);
      if idx[n] < |free| then r[idx[n] := false] else r
  }

  lemma ClearedAt(free: seq<bool>, idx: seq<nat>)
    requires |idx| <= 2 && AllFree(free, idx)
    ensures |idx| == 0 ==> Cleared(free, idx) == free
    ensures |idx| == 1 ==> Cleared(free, idx) == free[idx[0] := false]
    ensures |idx| == 2 ==> Cleared(free, idx) == free[idx[0] := false][idx[1] := false]
  {
  }

  lemma ClearedMore(free: seq<bool>, idx: seq<nat>, d: nat)
    requires d < |free| && free[d] && d !in idx && AllFree(free, idx)
    ensures Cleared(free, idx + [d]) == Cleared(free, idx)[d := false] && AllFree(free, idx + [d])
  {
    assert (idx + [d])[..|idx|] == idx;
  }

  /** i is one of the entries from j on. */
  ghost predicate Has(idx: seq<nat>, j: nat, i: nat) { exists k :: j <= k < |idx| && idx[k] == i }

  lemma HasEnds(idx: seq<nat>)
    ensures forall i :: Has(idx, 0, i) <==> i in idx
    ensures forall i :: !Has(idx, |idx|, i)
  {
  }

  lemma HasStep(free: seq<bool>, idx: seq<nat>, j: nat)
    requires j < |idx| && AllFree(free, idx)
    ensures idx[j] < |free| && free[idx[j]] && Has(idx, j, idx[j]) && !Has(idx, j + 1, idx[j])
    ensures forall i :: i != idx[j] ==> Has(idx, j, i) == Has(idx, j + 1, i)
  {
  }

  /** `idx` are the first free descriptors, each found with those before it taken. */
  ghost predicate FirstOnes(free: seq<bool>, idx: seq<nat>, now: seq<bool>) {
    && now == Cleared(free, idx) && AllFree(free, idx)
    && (|idx| > 0 ==> idx[0] == FirstFree(free))
    && (|idx| > 1 ==> idx[1] == FirstFree(free[idx[0] := false]))
    && (|idx| > 2 ==> idx[2] == FirstFree(free[idx[0] := false][idx[1] := false]))
  }

  lemma FirstNone(free: seq<bool>)
    ensures FirstOnes(free, [], free)
  {
  }

  lemma FirstNext(free: seq<bool>, idx: seq<nat>, now: seq<bool>)
    requires FirstOnes(free, idx, now) && |idx| < 3
    ensures var d := FirstFree(now);
            if d < |now| then FirstOnes(free, idx + [d], now[d := false]) else !Alloc3(free).Three?
  {
    hide Cleared;
    ClearedAt(free, idx);
    var d := FirstFree(now);
    if d < |now| { ClearedMore(free, idx, d); }
  }

  lemma FirstThree(free: seq<bool>, idx: seq<nat>, now: seq<bool>)
    requires FirstOnes(free, idx, now) && |idx| == 3
    ensures Alloc3(free) == Three(idx[0], idx[1], idx[2])
    ensures idx[0] < |free| && idx[1] < |free| && idx[2] < |free|
    ensures now == free[idx[0] := false][idx[1] := false][idx[2] := false]
  {
    hide Cleared;
    ClearedThree(free, idx);
  }

  lemma ClearedThree(free: seq<bool>, idx: seq<nat>)
    requires |idx| == 3 && AllFree(free, idx)
    ensures Cleared(free, idx) == free[idx[0] := false][idx[1] := false][idx[2] := false]
  {
  }
}
