/** The linked list of kernel/bio.c: binit, bget and brelse. */
module Bcache {
  import opened BcacheModel
  import BcacheSafety

  /** The list header, which comes after the buffers. */
  const HEAD: nat := NBUF

  /** Position i of the list; the header is both before its start and after its end. */
  ghost function At(order: seq<nat>, i: int): nat {
    if 0 <= i < |order| then order[i] else HEAD
  }

  /** The two links between position i - 1 and position i. */
  ghost predicate LinkOk(next: seq<nat>, prev: seq<nat>, order: seq<nat>, i: int)
    requires |next| == NBUF + 1 && |prev| == NBUF + 1
  {
    0 <= i <= |order| ==>
      var a, b := At(order, i - 1), At(order, i);
      a <= NBUF && b <= NBUF && next[a] == b && prev[b] == a
  }

  ghost predicate DistinctBufs(order: seq<nat>) {
    && (forall i :: 0 <= i < |order| ==> order[i] < NBUF)
    && (forall i, j :: 0 <= i < j < |order| ==> order[i] != order[j])
  }

  /** The links of the buffers and of the header are those of a list in this order. */
  ghost predicate Ring(next: seq<nat>, prev: seq<nat>, order: seq<nat>) {
    |next| == NBUF + 1 && |prev| == NBUF + 1 && DistinctBufs(order) && forall i :: LinkOk(next, prev, order, i)
  }

  /** b->next->prev = b->prev; b->prev->next = b->next */
  lemma Unlinked(next: seq<nat>, prev: seq<nat>, order: seq<nat>, k: nat)
    requires Ring(next, prev, order) && k < |order|
    ensures var b := order[k];
            next[b] <= NBUF && prev[b] <= NBUF
              && Ring(next[prev[b] := next[b]], prev[next[b] := prev[b]], order[..k] + order[k + 1..])
  {
    var b, order' := order[k], order[..k] + order[k + 1..];
    assert LinkOk(next, prev, order, k) && LinkOk(next, prev, order, k + 1);
    var next', prev' := next[prev[b] := next[b]], prev[next[b] := prev[b]];
    forall i ensures LinkOk(next', prev', order', i) {
      assert LinkOk(next, prev, order, i) && LinkOk(next, prev, order, i + 1);
      assert 0 <= i <= |order'| ==> At(order', i) == (if i < k then At(order, i) else At(order, i + 1));
    }
  }

  /** b->next = head.next; b->prev = &head; head.next->prev = b; head.next = b */
  lemma Pushed(next: seq<nat>, prev: seq<nat>, order: seq<nat>, b: nat)
    requires Ring(next, prev, order) && b < NBUF && b !in order
    ensures next[HEAD] <= NBUF && Ring(next[b := next[HEAD]][HEAD := b], prev[b := HEAD][next[HEAD] := b], [b] + order)
  {
    var order' := [b] + order;
    assert LinkOk(next, prev, order, 0);
    var next', prev' := next[b := next[HEAD]][HEAD := b], prev[b := HEAD][next[HEAD] := b];
    forall i ensures LinkOk(next', prev', order', i) {
      assert LinkOk(next, prev, order, i - 1);
      assert 0 < i <= |order'| ==> At(order', i) == At(order, i - 1);
    }
  }

  // ----- The loops of bget -----

  lemma {:induction false} FindSplit(buf: seq<Buf>, order: seq<nat>, k: nat, key: Key)
    requires DistinctBufs(order) && |buf| == NBUF && k <= |order| && forall i :: 0 <= i < k ==> buf[order[i]].key != key
    ensures Find(buf, order, key) == Find(buf, order[k..], key)
  {
    if k > 0 {
      FindSplit(buf, order, k - 1, key);
      assert order[k - 1..][1..] == order[k..];
    } else {
      assert order[0..] == order;
    }
  }

  /** The first loop of bget: along next from the most recently used. */
  method FindCached(buf: seq<Buf>, next: seq<nat>, ghost prev: seq<nat>, ghost order: seq<nat>,
                    key: Key) returns (b: nat)
    requires Ring(next, prev, order) && |buf| == NBUF
    ensures b == Find(buf, order, key)
  {
    assert LinkOk(next, prev, order, 0);
    b := next[HEAD];
    ghost var k := 0;
    while b != HEAD
      invariant k <= |order| && b == At(order, k) && forall i :: 0 <= i < k ==> buf[order[i]].key != key
      decreases |order| - k
    {
      if buf[b].key == key {
        FindSplit(buf, order, k, key);
        return;
      }
      assert LinkOk(next, prev, order, k + 1);
      b, k := next[b], k + 1;
    }
    FindSplit(buf, order, k, key);
  }

  lemma {:induction false} VictimSplit(buf: seq<Buf>, order: seq<nat>, k: nat)
    requires DistinctBufs(order) && |buf| == NBUF && k <= |order|
             && forall i :: k <= i < |order| ==> buf[order[i]].refcnt != 0
    ensures Victim(buf, order) == Victim(buf, order[..k])
    decreases |order| - k
  {
    if k < |order| {
      VictimSplit(buf, order, k + 1);
      assert order[..k + 1][..k] == order[..k];
    } else {
      assert order[..k] == order;
    }
  }

  /** The second loop of bget: along prev from the least recently used. */
  method FindVictim(buf: seq<Buf>, ghost next: seq<nat>, prev: seq<nat>, ghost order: seq<nat>) returns (b: nat)
    requires Ring(next, prev, order) && |buf| == NBUF
    ensures b == Victim(buf, order)
  {
    assert LinkOk(next, prev, order, |order|);
    b := prev[HEAD];
    ghost var k := |order|;
    while b != HEAD
      invariant 0 <= k <= |order| && b == At(order, k - 1) && forall i :: k <= i < |order| ==> buf[order[i]].refcnt != 0
      decreases k
    {
      if buf[b].refcnt == 0 {
        VictimSplit(buf, order, k);
        return;
      }
      assert LinkOk(next, prev, order, k - 1);
      b, k := prev[b], k - 1;
    }
    VictimSplit(buf, order, k);
  }

  class Cache {
    /** The buffers but for their links, which are in next and prev with those of the header. */
    var buf: seq<Buf>
    var next: seq<nat>
    var prev: seq<nat>
    ghost var order: seq<nat>

    ghost predicate Valid()
      reads this
    {
      Ring(next, prev, order) && |buf| == NBUF && |order| == NBUF && forall b :: 0 <= b < NBUF ==> b in order
    }

    /** binit. All memory is zero at boot. */
    constructor ()
      ensures Valid() && forall b :: 0 <= b < NBUF ==> !buf[b].valid && buf[b].key.dev == 0 && buf[b].refcnt == 0
    {
      var nx: seq<nat>, pv: seq<nat> := seq(NBUF + 1, _ => HEAD), seq(NBUF + 1, _ => HEAD);
      ghost var list: seq<nat> := [];
      var b := 0;
      while b < NBUF
        invariant b <= NBUF && Ring(nx, pv, list) && |list| == b && forall c :: 0 <= c < b <==> c in list
      {
        Pushed(nx, pv, list, b);
        pv := pv[b := HEAD][nx[HEAD] := b];
        nx := nx[b := nx[HEAD]][HEAD := b];
        list := [b] + list;
        b := b + 1;
      }
      buf := seq(NBUF, _ => Buf(false, Key(0, 0), 0, []));
      next, prev, order := nx, pv, list;
    }

    /** The part of bget under bcache.lock: the step Get of the machine. It panics when there
        is no buffer. */
    method Bget(key: Key) returns (b: nat)
      requires Valid() && (Find(buf, order, key) < NBUF || Victim(buf, order) < NBUF)
      modifies this`buf
      ensures Valid() && b < NBUF
      ensures b == Got(old(buf), order, key) && buf == GotBufs(old(buf), order, key)
    {
      b := FindCached(buf, next, prev, order, key);
      if b != HEAD {
        buf := buf[b := buf[b].(refcnt := buf[b].refcnt + 1)];
        return;
      }
      b := FindVictim(buf, next, prev, order);
      buf := buf[b := buf[b].(valid := false, key := key, refcnt := 1)];
    }

    /** brelse, after the sleeplock is released: the step Release of the machine. */
    method Brelse(b: nat)
      requires Valid() && b < NBUF && buf[b].refcnt > 0
      modifies this
      ensures Valid() && buf == Dropped(old(buf), b)
      ensures order == if buf[b].refcnt == 0 then MovedToFront(old(order), b) else old(order)
    {
      buf := buf[b := buf[b].(refcnt := buf[b].refcnt - 1)];
      if buf[b].refcnt == 0 {
        ghost var k := IndexOf(order, b);
        ghost var rest := order[..k] + order[k + 1..];
        Unlinked(next, prev, order, k);
        prev, next := prev[next[b] := prev[b]], next[prev[b] := next[b]];
        RestLacks(order, k);
        Pushed(next, prev, rest, b);
        prev := prev[b := HEAD][next[HEAD] := b];
        next := next[b := next[HEAD]][HEAD := b];
        order := MovedToFront(order, b);
        assert order == [b] + rest;
        forall c: nat | c < NBUF ensures c in order { BcacheSafety.MovedSame(old(order), b, c); }
      }
    }
  }

  lemma RestLacks(order: seq<nat>, k: nat)
    requires DistinctBufs(order) && k < |order|
    ensures order[k] !in order[..k] + order[k + 1..]
  {
  }
}
