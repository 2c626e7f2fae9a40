/** malloc and free of user/umalloc.c over the model of the heap. */
module Umalloc {
  import opened Basics
  import opened UmallocModel

  /** sizeof(Header) */
  const UNIT: nat := 16

  // ----- The free list as a cycle -----

  /** The block reached from base in k steps. */
  ghost function Follow(h: Heap, k: nat): nat {
    if k == 0 then h.base else Ptr(h, Follow(h, k - 1))
  }

  ghost function Lower(h: Heap, x: nat): set<nat> {
    set y | y in h.free && y < x
  }

  lemma BaseLowest(h: Heap)
    requires Linked(h)
    ensures Lower(h, h.base) == {}
  {
    forall x | x in h.free ensures h.base <= x { assert LinkOk(h, x); }
  }

  lemma NextLower(h: Heap, b: nat)
    requires Linked(h) && b in h.free
    ensures Ptr(h, b) in h.free && b !in Lower(h, b)
    ensures if Ptr(h, b) > b then Lower(h, Ptr(h, b)) == Lower(h, b) + {b}
            else Ptr(h, b) == h.base && h.free == Lower(h, b) + {b}
  {
    assert LinkOk(h, b);
  }

  lemma {:induction false} FollowUp(h: Heap, k: nat)
    requires Linked(h) && k < |h.free|
    ensures Follow(h, k) in h.free && |Lower(h, Follow(h, k))| == k
  {
    hide Linked, Lower;
    if k == 0 {
      BaseLowest(h);
      BaseFree(h);
    } else {
      FollowUp(h, k - 1);
      NextLower(h, Follow(h, k - 1));
    }
  }

  lemma BaseFree(h: Heap)
    requires Linked(h)
    ensures h.base in h.free
  {
  }

  lemma RankUp(h: Heap, a: nat, b: nat)
    requires a in h.free
    ensures a < b ==> |Lower(h, a)| < |Lower(h, b)|
    ensures |Lower(h, a)| < |h.free|
  {
    if a < b {
      SubsetSize(Lower(h, a) + {a}, Lower(h, b));
    }
    SubsetSize(Lower(h, a) + {a}, h.free);
  }

  /** The list is one cycle through all the free blocks in address order: a block comes as
      many steps after base as there are free blocks below it. */
  lemma FreeListInOrder(h: Heap, x: nat)
    requires Linked(h) && x in h.free
    ensures |Lower(h, x)| < |h.free| && Follow(h, |Lower(h, x)|) == x
  {
    hide Linked, Lower;
    RankUp(h, x, x);
    var k := |Lower(h, x)|;
    FollowUp(h, k);
    RankUp(h, Follow(h, k), x);
    RankUp(h, x, Follow(h, k));
  }

  /** After as many steps as there are free blocks, it is base again. */
  lemma FreeListIsCycle(h: Heap)
    requires Linked(h)
    ensures Follow(h, |h.free|) == h.base
  {
    hide Linked, Lower;
    BaseFree(h);
    var n := |h.free| - 1;
    FollowUp(h, n);
    NextLower(h, Follow(h, n));
    RankUp(h, Ptr(h, Follow(h, n)), h.base);
  }

  // ----- The search of free -----

  lemma {:induction false} Largest(s: set<nat>) returns (m: nat)
    requires s != {}
    ensures m in s && forall x :: x in s ==> x <= m
  {
    var x :| x in s;
    m := x;
    var rest := s - {x};
    if rest != {} {
      var r := Largest(rest);
      m := if r > x then r else x;
    }
    assert forall y :: y in s ==> y == x || y in rest;
  }

  /** Every live block has a place on the list. */
  lemma HasPlace(h: Heap, bp: nat) returns (t: nat)
    requires Sound(h) && bp in h.live
    ensures Before(h, t, bp)
  {
    FirstUnit(h, bp);
    assert BlockOk(h, bp) && h.base in Lower(h, bp);
    t := Largest(Lower(h, bp));
    forall x | x in h.free ensures x <= t || bp < x {
      assert x < bp ==> x in Lower(h, bp);
    }
  }

  lemma HasLink(h: Heap, p: nat)
    requires Sound(h) && p in h.free
    ensures p in h.ptr && p in h.size && h.ptr[p] in h.free
  {
    assert LinkOk(h, p) && BlockOk(h, p);
  }

  /** The loop of free. It ends, at the last free block below bp. */
  method Search(ghost h: Heap, ptr: map<nat, nat>, freep: nat, bp: nat) returns (p: nat)
    requires Sound(h) && h.ptr == ptr && freep in h.free && bp in h.live
    ensures Before(h, p, bp)
  {
    hide Sound;
    p := freep;
    ghost var t := HasPlace(h, bp);
    HasLink(h, p);
    SearchTest(h, p, bp, t);
    while !(bp > p && bp < ptr[p])
      invariant p in h.free && p in h.ptr
      decreases |Arc(h, p, t)|
    {
      SearchTest(h, p, bp, t);
      if p >= ptr[p] && (bp > p || bp < ptr[p]) {
        break;
      }
      ArcGoesOn(h, p, t);
      p := ptr[p];
      HasLink(h, p);
    }
    SearchTest(h, p, bp, t);
  }

  /** The header fields after the writes of free. */
  lemma FreedFields(h: Heap, p: nat, bp: nat)
    requires Ok(h) && bp in h.live && Before(h, p, bp)
    ensures p in h.ptr && p in h.size && bp in h.size && h.ptr[p] in h.ptr && h.ptr[p] in h.size && p != bp
    ensures var r := h.ptr[p];
            var right, left := bp + h.size[bp] == r, p + h.size[p] == bp;
            var ptr1 := h.ptr[bp := if right then h.ptr[r] else r];
            var size1 := if right then h.size[bp := h.size[bp] + h.size[r]] else h.size;
            && Freed(h, p, bp).ptr == ptr1[p := if left then ptr1[bp] else bp]
            && Freed(h, p, bp).size == if left then size1[p := size1[p] + size1[bp]] else size1
  {
    hide Linked, Partitioned, Coalesced;
    WhereTouches(h, p, bp);
    HasLink(h, p);
    HasLink(h, h.ptr[p]);
    LiveHasSize(h, bp);
  }

  lemma LiveHasSize(h: Heap, bp: nat)
    requires Sound(h) && bp in h.live
    ensures bp in h.size && h.size[bp] > 0
  {
    assert BlockOk(h, bp);
  }

  lemma ArcGoesOn(h: Heap, p: nat, stop: nat)
    requires Sound(h) && p in h.free && stop in h.free
    ensures Ptr(h, p) in h.free
    ensures p != stop ==> |Arc(h, Ptr(h, p), stop)| < |Arc(h, p, stop)|
  {
    hide NextIs, Partitioned;
    ArcStep(h, p, stop);
  }

  /** The two tests of the search together hold exactly at that place. */
  lemma SearchTest(h: Heap, p: nat, bp: nat, t: nat)
    requires Sound(h) && bp in h.live && Before(h, t, bp) && p in h.free
    ensures (p < bp < Ptr(h, p)) || (p >= Ptr(h, p) && (bp > p || bp < Ptr(h, p))) <==> p == t
  {
    FirstUnit(h, bp);
    assert LinkOk(h, p) && LinkOk(h, t) && BlockOk(h, bp);
  }

  // ----- The search of malloc -----

  /** One round of the list from freep on: the first block that is large enough, and the one
      before it. */
  method Scan(ghost h: Heap, ptr: map<nat, nat>, size: map<nat, nat>, freep: nat, nunits: nat) returns (prevp: nat,
              p: nat, found: bool)
    requires Sound(h) && h.ptr == ptr && h.size == size && freep in h.free && nunits > 0
    ensures found ==>
              prevp in h.free && Ptr(h, prevp) == p && p in h.free && p != h.base && p in size && size[p] >= nunits
    ensures !found ==> forall b :: b in h.free ==> Size(h, b) < nunits
  {
    hide Linked, Partitioned;
    HasLink(h, freep);
    ArcStep(h, freep, freep);
    prevp, p, found := freep, ptr[freep], false;
    while true
      invariant prevp in h.free && Ptr(h, prevp) == p && p in h.free
      invariant forall b :: b in h.free && b != freep && b !in Arc(h, p, freep) ==> Size(h, b) < nunits
      decreases |Arc(h, p, freep)|
    {
      HasLink(h, p);
      if size[p] >= nunits {
        return prevp, p, true;
      }
      if p == freep {
        break;
      }
      ArcStep(h, p, freep);
      prevp, p := p, ptr[p];
    }
  }

  /** nunits = (nbytes + sizeof(Header) - 1) / sizeof(Header) + 1 */
  function Nunits(nbytes: nat): nat { (nbytes + UNIT - 1) / UNIT + 1 }

  /** What sbrk would answer: no, or the start of the new memory. */
  datatype Core = Refused | At(addr: nat)

  /** sbrk takes an int: the 64-bit size of the request as a signed 32-bit number. */
  function Int32(x: nat): int {
    var r := x % 0x1_0000_0000;
    if r < 0x8000_0000 then r else r - 0x1_0000_0000
  }

  function Request(nu: nat): nat { if nu < 4096 then 4096 else nu }

  /** The request that sbrk sees is the one that morecore records exactly up to this many
      bytes; for more, morecore records memory that it was not given. */
  lemma RequestFits(nbytes: nat)
    requires nbytes < 0x1_0000_0000
    ensures Int32(Request(Nunits(nbytes)) * UNIT) == Request(Nunits(nbytes)) * UNIT <==> nbytes <= 0x7FFF_FFE0
    ensures Int32(Request(Nunits(nbytes)) * UNIT) < Request(Nunits(nbytes)) * UNIT <==> nbytes > 0x7FFF_FFE0
    ensures nbytes <= 0x7FFF_FFE0 ==> Request(Nunits(nbytes)) * UNIT < 0x8000_0000
  {
    var nu := Nunits(nbytes);
    assert nu * UNIT == (nbytes + UNIT - 1) / UNIT * UNIT + UNIT;
  }

  /** A larger request can even be one for nothing. */
  lemma RequestForNothing()
    ensures Int32(Request(Nunits(0xFFFF_FFF0)) * UNIT) == 0
  {
    assert Nunits(0xFFFF_FFF0) == 0x1000_0000;
  }

  class Allocator {
    const base: nat
    var ptr: map<nat, nat>
    var size: map<nat, nat>
    /** Where the last search ended; 0 before the first call of malloc. */
    var freep: nat
    ghost var h: Heap

    ghost predicate Valid()
      reads this
    {
      && 0 < base == h.base
      && if freep == 0 then h.live == {} && h.owner == map[] && h.free == {}
         else h.ptr == ptr && h.size == size && Ok(h) && freep in h.free
    }

    constructor (base: nat)
      requires base > 0
      ensures Valid() && h.live == {} && h.owner == map[] && this.base == base
    {
      this.base, ptr, size, freep := base, map[], map[], 0;
      h := Heap(base, map[], map[], {}, {}, map[]);
    }

    /** Only the block is affected: it is no longer live, and every other live block keeps its
        units. */
    method Free(ap: nat)
      requires Valid() && ap > 0 && ap - 1 in h.live
      modifies this`ptr, this`size, this`freep, this`h
      ensures Valid() && freep != 0 && Before(old(h), freep, ap - 1) && h == Freed(old(h), freep, ap - 1)
      ensures h.live == old(h).live - {ap - 1} && h.owner.Keys == old(h).owner.Keys
      ensures forall b :: b in h.live ==> Size(h, b) == Size(old(h), b)
    {
      hide Linked, Partitioned, Coalesced;
      var bp := ap - 1;
      var p := Search(h, ptr, freep, bp);
      FreedOk(h, p, bp);
      FreedFields(h, p, bp);
      BaseFirst(h, p);
      h := Freed(h, p, bp);
      if bp + size[bp] == ptr[p] {
        size := size[bp := size[bp] + size[ptr[p]]];
        ptr := ptr[bp := ptr[ptr[p]]];
      } else {
        ptr := ptr[bp := ptr[p]];
      }
      if p + size[p] == bp {
        size := size[p := size[p] + size[bp]];
        ptr := ptr[p := ptr[bp]];
      } else {
        ptr := ptr[p := bp];
      }
      freep := p;
    }

    /** At least 4096 units more, when sbrk has them. */
    method Morecore(nu: nat, core: Core) returns (p: nat)
      requires Valid() && freep != 0 && 0 < nu
      requires core.At? ==> Above(h, core.addr) && Int32(Request(nu) * UNIT) == Request(nu) * UNIT
      modifies this`ptr, this`size, this`freep, this`h
      ensures Valid() && freep != 0 && h.live == old(h).live
      ensures core.Refused? ==> p == 0 && h == old(h) && freep == old(freep)
      ensures core.At? ==> p == freep && h.owner.Keys == old(h).owner.Keys + Units(core.addr, Request(nu)).Keys
      ensures core.At? ==> exists b :: b in h.free && Size(h, b) >= nu
      ensures forall b :: b in h.live ==> Size(h, b) == Size(old(h), b)
    {
      hide Linked, Partitioned, Coalesced;
      var n := if nu < 4096 then 4096 else nu;
      if core.Refused? {
        return 0;
      }
      var hp := core.addr;
      GrownOk(h, hp, n);
      size := size[hp := n];
      h := Grown(h, hp, n);
      ghost var h1 := h;
      Free(hp + 1);
      ghost var b := FreedHas(h1, freep, hp);
      p := freep;
    }

    /** What malloc does with a block that is large enough: all of it, or its last nunits. */
    method Take(prevp: nat, p0: nat, nunits: nat) returns (ap: nat)
      requires Valid() && freep != 0 && nunits > 0
      requires prevp in h.free && Ptr(h, prevp) == p0 && p0 in h.free && p0 != h.base && Size(h, p0) >= nunits
      modifies this`ptr, this`size, this`freep, this`h
      ensures Valid() && ap > 0 && ap - 1 !in old(h).live && h.live == old(h).live + {ap - 1}
              && Size(h, ap - 1) == nunits
      ensures h.owner.Keys == old(h).owner.Keys && p0 <= ap - 1 && ap - 1 + nunits == p0 + Size(old(h), p0)
      ensures forall b :: b in old(h).live ==> Size(h, b) == Size(old(h), b)
    {
      hide Linked, Partitioned, Coalesced;
      HasLink(h, p0);
      BaseFirst(h, prevp);
      NotLive(h, p0);
      var p := p0;
      if size[p] == nunits {
        UnlinkedOk(h, prevp, p);
        h := Unlinked(h, prevp, p);
        ptr := ptr[prevp := ptr[p]];
      } else {
        SplitOk(h, p, nunits);
        h := Split(h, p, nunits);
        size := size[p := size[p] - nunits];
        p := p + size[p];
        size := size[p := nunits];
      }
      freep := prevp;
      ap := p + 1;
    }

    /** Returns a block of its own, with room for nbytes after the header, or 0. More memory is
        asked for at most once, and only when no free block is large enough. A request of more
        than RequestFits allows is served from the free list or refused; if sbrk takes it, what
        it takes is another request. */
    method Malloc(nbytes: nat, core: Core) returns (ap: nat, ghost calls: nat)
      requires Valid() && nbytes < 0x1_0000_0000
      requires core.At? ==> Above(h, core.addr)
      requires core.At? ==> nbytes <= 0x7FFF_FFE0 || exists b :: b in h.free && Size(h, b) >= Nunits(nbytes)
      modifies this`ptr, this`size, this`freep, this`h
      ensures Valid() && calls <= 1
      ensures calls == 1 ==> forall b :: b in old(h).free ==> Size(old(h), b) < Nunits(nbytes)
      ensures ap == 0 ==> calls == 1 && core.Refused? && h.live == old(h).live
      ensures ap != 0 ==>
                ap - 1 !in old(h).live && h.live == old(h).live + {ap - 1} && Size(h, ap - 1) == Nunits(nbytes)
                  && nbytes <= (Size(h, ap - 1) - 1) * UNIT
      ensures h.owner.Keys == old(h).owner.Keys + if calls == 1
              && core.At? then Units(core.addr, Request(Nunits(nbytes))).Keys else {}
      ensures forall b :: b in old(h).live ==> Size(h, b) == Size(old(h), b)
    {
      hide Linked, Partitioned, Coalesced;
      var nunits := Nunits(nbytes);
      RequestFits(nbytes);
      calls := 0;
      if freep == 0 {
        ptr, size, freep := ptr[base := base], size[base := 0], base;
        h := Heap(base, ptr, size, {base}, {}, map[]);
        InitOk(base, ptr, size);
      }
      ghost var h0 := h;
      var prevp, p, found := Scan(h, ptr, size, freep, nunits);
      while !found
        invariant Valid() && freep != 0 && calls <= 1 && (calls == 1 ==> found) && h.live == old(h).live
        invariant found ==>
                    prevp in h.free && Ptr(h, prevp) == p && p in h.free && p != h.base && p in size
                      && size[p] >= nunits
        invariant calls == 0 ==> h == h0
        invariant calls == 0 && !found ==> forall b :: b in h.free ==> Size(h, b) < nunits
        invariant calls == 1 ==> forall b :: b in h0.free ==> Size(h0, b) < nunits
        invariant calls == 1 ==> core.At? && h.owner.Keys == old(h).owner.Keys + Units(core.addr, Request(nunits)).Keys
        invariant forall b :: b in h.live ==> Size(h, b) == Size(h0, b)
        decreases 1 - calls
      {
        calls := calls + 1;
        p := Morecore(nunits, core);
        if p == 0 {
          return 0, calls;
        }
        prevp, p, found := Scan(h, ptr, size, freep, nunits);
      }
      ap := Take(prevp, p, nunits);
    }
  }

  /** The same free list, live blocks and division of memory. */
  ghost predicate SameHeap(h: Heap, h': Heap) {
    && h'.base == h.base && h'.free == h.free && h'.live == h.live && h'.owner == h.owner
    && forall b :: b in h.free ==> Size(h', b) == Size(h, b) && Ptr(h', b) == Ptr(h, b)
  }

  /** Freeing a block that was handed out whole puts it back where it was. */
  lemma FreeUndoesUnlinked(h: Heap, prevp: nat, p: nat)
    requires Ok(h) && prevp in h.free && Ptr(h, prevp) == p && p != h.base
    ensures var h1 := Unlinked(h, prevp, p);
            Before(h1, prevp, p) && SameHeap(h, Freed(h1, prevp, p))
  {
    hide Partitioned;
    assert LinkOk(h, prevp);
    UnlinkedOk(h, prevp, p);
    assert LinkOk(h, p) && !Touch(h, prevp, p) && !Touch(h, p, Ptr(h, p));
  }

  /** Freeing a block that was split off joins it to the rest again. */
  lemma FreeUndoesSplit(h: Heap, p: nat, n: nat)
    requires Ok(h) && p in h.free && 0 < n < Size(h, p)
    ensures var h1, q := Split(h, p, n), p + (Size(h, p) - n);
            Before(h1, p, q) && SameHeap(h, Freed(h1, p, q))
  {
    hide Linked, Partitioned, Coalesced, Before;
    var h1, q := Split(h, p, n), p + (Size(h, p) - n);
    SplitOk(h, p, n);
    SplitPlace(h, p, n);
    assert Freed(h1, p, q).owner == h.owner;
  }

  lemma SplitPlace(h: Heap, p: nat, n: nat)
    requires Ok(h) && p in h.free && 0 < n < Size(h, p)
    ensures var q := p + (Size(h, p) - n);
            && Before(Split(h, p, n), p, q) && p != h.base && q + n != Ptr(h, p)
            && (forall u :: u in h.owner && q <= u < q + n ==> h.owner[u] == p)
            && (forall u :: u in h.owner ==> h.owner[u] != q)
  {
    assert LinkOk(h, p) && BlockOk(h, p) && !Touch(h, p, Ptr(h, p));
    forall x | x in h.free && x > p ensures p + Size(h, p) <= x {
      assert LinkOk(h, x);
      Apart(h, p, x);
    }
    SplitOk(h, p, n);
    forall u | u in h.owner ensures h.owner[u] != p + (Size(h, p) - n) {
      assert UnitOk(h, u);
    }
  }

  lemma InitOk(base: nat, ptr: map<nat, nat>, size: map<nat, nat>)
    requires base in ptr && ptr[base] == base && base in size && size[base] == 0
    ensures Ok(Heap(base, ptr, size, {base}, {}, map[]))
  {
    var h := Heap(base, ptr, size, {base}, {}, map[]);
    forall b ensures LinkOk(h, b) {}
    forall b ensures BlockOk(h, b) {}
    forall u ensures UnitOk(h, u) {}
  }
}
