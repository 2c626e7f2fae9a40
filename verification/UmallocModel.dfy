/** The user-level allocator of user/umalloc.c (section 8.7 of Kernighan and Ritchie, The C
    Programming Language, second edition), with addresses counted in header-sized units. */
module UmallocModel {
  /** `ptr` and `size` are the two fields of the headers in memory. `free` holds the blocks on
      the free list, with the static header `base`; `live` those that malloc has handed out;
      and `owner` gives for each unit of memory from sbrk the block it is part of. */
  datatype Heap = Heap(base: nat, ptr: map<nat, nat>, size: map<nat, nat>, free: set<nat>, live: set<nat>,
      owner: map<nat, nat>)

  function Ptr(h: Heap, b: nat): nat { if b in h.ptr then h.ptr[b] else 0 }

  function Size(h: Heap, b: nat): nat { if b in h.size then h.size[b] else 0 }

  /** The block after b in address order, or base when b is the last. */
  ghost predicate NextIs(h: Heap, b: nat, n: nat) {
    n in h.free &&
    if n > b then forall x :: x in h.free ==> x <= b || n <= x
    else n == h.base && forall x :: x in h.free ==> x <= b
  }

  ghost predicate LinkOk(h: Heap, b: nat) {
    b in h.free ==> h.base <= b && b in h.ptr && NextIs(h, b, Ptr(h, b))
  }

  /** The free list runs through all its blocks in address order, starting from base. */
  ghost predicate Linked(h: Heap) {
    h.base in h.free && forall b :: LinkOk(h, b)
  }

  ghost predicate IsBlock(h: Heap, b: nat) {
    b in h.live || (b in h.free && b != h.base)
  }

  ghost predicate BlockOk(h: Heap, b: nat) {
    IsBlock(h, b) ==>
      && b in h.size && h.size[b] > 0 && (b in h.live ==> b !in h.free)
      && forall u: nat :: b <= u < b + h.size[b] ==> u in h.owner && h.owner[u] == b
  }

  ghost predicate UnitOk(h: Heap, u: nat) {
    u in h.owner ==> h.base < u && IsBlock(h, h.owner[u]) && h.owner[u] <= u < h.owner[u] + Size(h, h.owner[u])
  }

  /** Each unit is part of exactly one block. */
  ghost predicate Partitioned(h: Heap) {
    (forall b :: BlockOk(h, b)) && (forall u :: UnitOk(h, u))
  }

  ghost predicate Touch(h: Heap, a: nat, b: nat) {
    a in h.free && a != h.base && b in h.free && a + Size(h, a) == b
  }

  /** No free block starts where another ends. */
  ghost predicate Coalesced(h: Heap) {
    forall a, b :: !Touch(h, a, b)
  }

  ghost predicate Sound(h: Heap) {
    Linked(h) && Partitioned(h) && h.base in h.size && h.size[h.base] == 0
  }

  ghost predicate Ok(h: Heap) {
    Sound(h) && Coalesced(h)
  }

  /** Blocks lie above base, and two of them have no unit in common. */
  lemma Apart(h: Heap, a: nat, b: nat)
    requires Sound(h) && IsBlock(h, a) && IsBlock(h, b)
    ensures h.base < a && Size(h, a) > 0
    ensures a != b ==> a + Size(h, a) <= b || b + Size(h, b) <= a
  {
    hide Linked;
    assert BlockOk(h, a) && BlockOk(h, b);
    assert UnitOk(h, a) && UnitOk(h, b);
  }

  lemma FirstUnit(h: Heap, b: nat)
    requires Sound(h) && IsBlock(h, b)
    ensures b in h.owner && h.owner[b] == b && h.base < b
  {
    hide Linked;
    assert BlockOk(h, b) && UnitOk(h, b);
  }

  // ----- The steps of free -----

  /** bp goes on the list after p. */
  function Inserted(h: Heap, p: nat, bp: nat): Heap {
    h.(ptr := h.ptr[bp := Ptr(h, p)][p := bp], free := h.free + {bp}, live := h.live - {bp})
  }

  /** p is the last free block below bp. */
  ghost predicate Before(h: Heap, p: nat, bp: nat) {
    p in h.free && p < bp && forall x :: x in h.free ==> x <= p || bp < x
  }

  lemma InsertedSound(h: Heap, p: nat, bp: nat)
    requires Sound(h) && bp in h.live && Before(h, p, bp)
    ensures Sound(Inserted(h, p, bp))
  {
    hide Linked, NextIs;
    var h' := Inserted(h, p, bp);
    Apart(h, bp, bp);
    InsertedLinked(h, p, bp);
    assert BlockOk(h, bp);
    forall b ensures BlockOk(h', b) { assert BlockOk(h, b); }
    forall u ensures UnitOk(h', u) { assert UnitOk(h, u); }
  }

  lemma InsertedLinked(h: Heap, p: nat, bp: nat)
    requires Linked(h) && Before(h, p, bp) && h.base < bp
    ensures Linked(Inserted(h, p, bp))
  {
    var h' := Inserted(h, p, bp);
    assert LinkOk(h, p);
    forall b ensures LinkOk(h', b) {
      assert LinkOk(h, b);
    }
  }

  /** Block a takes in the block r after it. */
  function Merged(h: Heap, a: nat, r: nat): Heap {
    h.(ptr := h.ptr[a := Ptr(h, r)], size := h.size[a := Size(h, a) + Size(h, r)], free := h.free - {r},
       owner := map u | u in h.owner :: if h.owner[u] == r then a else h.owner[u])
  }

  lemma MergedSound(h: Heap, a: nat, r: nat)
    requires Sound(h) && a in h.free && r in h.free && a != h.base && r != h.base && a + Size(h, a) == r
    ensures Ptr(h, a) == r && Sound(Merged(h, a, r)) && Merged(h, a, r).owner.Keys == h.owner.Keys
  {
    hide Linked, NextIs;
    var h' := Merged(h, a, r);
    Apart(h, a, r);
    Touching(h, a, r);
    MergedLinked(h, a, r);
    assert BlockOk(h, a) && BlockOk(h, r);
    forall b ensures BlockOk(h', b) { assert BlockOk(h, b); }
    forall u ensures UnitOk(h', u) { assert UnitOk(h, u); }
  }

  lemma Touching(h: Heap, a: nat, r: nat)
    requires Sound(h) && a in h.free && r in h.free && a != h.base && a < r && a + Size(h, a) == r
    ensures Ptr(h, a) == r
  {
    hide Partitioned;
    assert LinkOk(h, a);
    var n := Ptr(h, a);
    if a < n < r {
      assert LinkOk(h, n);
      Apart(h, a, n);
    }
  }

  lemma MergedLinked(h: Heap, a: nat, r: nat)
    requires Linked(h) && a in h.free && r in h.free && a < r && Ptr(h, a) == r
    ensures Linked(Merged(h, a, r))
  {
    var h' := Merged(h, a, r);
    assert LinkOk(h, a) && LinkOk(h, r);
    forall b ensures LinkOk(h', b) {
      assert LinkOk(h, b);
    }
  }

  /** What free(bp) does once it has found p. */
  function Freed(h: Heap, p: nat, bp: nat): Heap {
    var h1 := Inserted(h, p, bp);
    var h2 := if bp + Size(h, bp) == Ptr(h, p) then Merged(h1, bp, Ptr(h, p)) else h1;
    if p + Size(h, p) == bp then Merged(h2, p, bp) else h2
  }

  lemma InsertedTouches(h: Heap, p: nat, bp: nat, a: nat, b: nat)
    requires Ok(h) && bp in h.live && Before(h, p, bp) && Touch(Inserted(h, p, bp), a, b)
    ensures (a == p && b == bp) || (a == bp && b == Ptr(h, p) && b > bp)
  {
    hide Partitioned;
    assert !Touch(h, a, b) && LinkOk(h, p);
    Apart(h, bp, bp);
    if a != bp {
      Apart(h, a, a);
      if p != h.base {
        Apart(h, a, p);
      }
    } else {
      Apart(h, b, bp);
      var r := Ptr(h, p);
      if r > p {
        assert LinkOk(h, r);
        Apart(h, r, b);
        Apart(h, r, bp);
      }
    }
  }

  lemma MergedTouches(h: Heap, a: nat, r: nat, x: nat, y: nat)
    requires Touch(h, a, r) && a != r && r != h.base && Touch(Merged(h, a, r), x, y)
    ensures Touch(h, if x == a then r else x, y) && y != r
  {
  }

  lemma FreedOk(h: Heap, p: nat, bp: nat)
    requires Ok(h) && bp in h.live && Before(h, p, bp)
    ensures var h' := Freed(h, p, bp);
            && Ok(h') && h'.owner.Keys == h.owner.Keys && h'.live == h.live - {bp} && h'.base == h.base && p in h'.free
            && forall b :: b in h'.live ==> Size(h', b) == Size(h, b)
  {
    hide Linked, Partitioned;
    var h1, r := Inserted(h, p, bp), Ptr(h, p);
    InsertedSound(h, p, bp);
    Apart(h, bp, bp);
    BaseFirst(h, p);
    var h2 := if bp + Size(h, bp) == r then Merged(h1, bp, r) else h1;
    if bp + Size(h, bp) == r {
      MergedSound(h1, bp, r);
      NotLive(h, r);
    }
    if p + Size(h, p) == bp {
      MergedSound(h2, p, bp);
      NotLive(h, p);
    }
    forall a, b ensures !Touch(Freed(h, p, bp), a, b) {
      FreedTouches(h, p, bp, a, b);
    }
  }

  lemma FreedTouches(h: Heap, p: nat, bp: nat, a: nat, b: nat)
    requires Ok(h) && bp in h.live && Before(h, p, bp)
    ensures !Touch(Freed(h, p, bp), a, b)
  {
    hide Linked, Partitioned, Touch;
    var h1, r := Inserted(h, p, bp), Ptr(h, p);
    var right, left := bp + Size(h, bp) == r, p + Size(h, p) == bp;
    var h2 := if right then Merged(h1, bp, r) else h1;
    if Touch(Freed(h, p, bp), a, b) {
      WhereTouches(h, p, bp);
      var a2 := if left && a == p then bp else a;
      if left {
        MergedTouches(h2, p, bp, a, b);
      }
      var a1 := if right && a2 == bp then r else a2;
      if right {
        MergedTouches(h1, bp, r, a2, b);
      }
      InsertedTouches(h, p, bp, a1, b);
      SizesMeet(h1, a1, b);
    }
  }

  lemma SizesMeet(h: Heap, a: nat, b: nat)
    requires Touch(h, a, b)
    ensures a + Size(h, a) == b
  {
  }

  /** The merges of free join blocks that touch. */
  lemma WhereTouches(h: Heap, p: nat, bp: nat)
    requires Ok(h) && bp in h.live && Before(h, p, bp)
    ensures h.base < bp && bp !in h.free
    ensures var h1, r := Inserted(h, p, bp), Ptr(h, p);
            var h2 := if bp + Size(h, bp) == r then Merged(h1, bp, r) else h1;
            && (bp + Size(h, bp) == r ==> r > bp && Touch(h1, bp, r))
            && (p + Size(h, p) == bp ==> Touch(h2, p, bp))
  {
    hide Linked;
    Apart(h, bp, bp);
    BaseFirst(h, p);
    assert BlockOk(h, bp);
  }

  lemma BaseFirst(h: Heap, p: nat)
    requires Linked(h) && p in h.free
    ensures Ptr(h, p) in h.free && h.base <= p
  {
    assert LinkOk(h, p);
  }

  lemma NotLive(h: Heap, b: nat)
    requires Partitioned(h) && b in h.free && b != h.base
    ensures b !in h.live
  {
    assert BlockOk(h, b);
  }

  /** The block that was freed, or the one it was joined to, is on the list and as large. */
  lemma FreedHas(h: Heap, p: nat, bp: nat) returns (b: nat)
    requires Ok(h) && bp in h.live && Before(h, p, bp)
    ensures b in Freed(h, p, bp).free && Size(Freed(h, p, bp), b) >= Size(h, bp)
  {
    hide Linked, Partitioned, Touch;
    WhereTouches(h, p, bp);
    b := if p + Size(h, p) == bp then p else bp;
  }

  // ----- The steps of malloc -----

  /** Block p, which follows prevp, is handed out whole. */
  function Unlinked(h: Heap, prevp: nat, p: nat): Heap {
    h.(ptr := h.ptr[prevp := Ptr(h, p)], free := h.free - {p}, live := h.live + {p})
  }

  lemma UnlinkedOk(h: Heap, prevp: nat, p: nat)
    requires Ok(h) && prevp in h.free && Ptr(h, prevp) == p && p != h.base
    ensures Ok(Unlinked(h, prevp, p)) && p in h.free && p !in h.live && prevp in Unlinked(h, prevp, p).free
  {
    hide NextIs;
    var h' := Unlinked(h, prevp, p);
    UnlinkedLinked(h, prevp, p);
    forall b ensures BlockOk(h', b) { assert BlockOk(h, b); }
    forall u ensures UnitOk(h', u) { assert UnitOk(h, u); }
    forall a, b ensures !Touch(h', a, b) { assert !Touch(h, a, b); }
    assert BlockOk(h, p);
  }

  lemma UnlinkedLinked(h: Heap, prevp: nat, p: nat)
    requires Linked(h) && prevp in h.free && Ptr(h, prevp) == p && p != h.base
    ensures Linked(Unlinked(h, prevp, p)) && p in h.free && prevp < p
  {
    var h' := Unlinked(h, prevp, p);
    assert LinkOk(h, prevp) && LinkOk(h, p);
    forall b ensures LinkOk(h', b) {
      assert LinkOk(h, b);
    }
  }

  /** The last n units of block p are handed out as a block of their own. */
  function Split(h: Heap, p: nat, n: nat): Heap
    requires n < Size(h, p)
  {
    var q := p + (Size(h, p) - n);
    h.(size := h.size[p := Size(h, p) - n][q := n], live := h.live + {q},
       owner := map u | u in h.owner :: if q <= u < q + n then q else h.owner[u])
  }

  lemma SplitOk(h: Heap, p: nat, n: nat)
    requires Ok(h) && p in h.free && 0 < n < Size(h, p)
    ensures var q := p + (Size(h, p) - n);
            Ok(Split(h, p, n)) && Split(h, p, n).owner.Keys == h.owner.Keys && q !in h.live && q !in h.free
  {
    hide NextIs;
    var h', q := Split(h, p, n), p + (Size(h, p) - n);
    assert BlockOk(h, p) && LinkOk(h, p);
    assert !IsBlock(h, q) by {
      if IsBlock(h, q) {
        FirstUnit(h, q);
      }
    }
    assert Linked(h') by {
      forall b ensures LinkOk(h', b) {
        assert LinkOk(h, b);
        SameNext(h, h', b, Ptr(h, b));
      }
    }
    forall b ensures BlockOk(h', b) {
      assert BlockOk(h, b);
      if IsBlock(h, b) && b != p {
        Apart(h, b, p);
      }
    }
    forall u ensures UnitOk(h', u) { assert UnitOk(h, u); }
    forall a, b ensures !Touch(h', a, b) { assert !Touch(h, a, b); }
  }

  lemma SameNext(h: Heap, h': Heap, b: nat, n: nat)
    requires h'.free == h.free && h'.base == h.base
    ensures NextIs(h', b, n) == NextIs(h, b, n)
  {
  }

  /** n fresh units from sbrk, as a block that is about to be freed. */
  function Grown(h: Heap, hp: nat, n: nat): Heap {
    h.(size := h.size[hp := n], live := h.live + {hp}, owner := h.owner + Units(hp, n))
  }

  function Units(hp: nat, n: nat): (m: map<nat, nat>)
    ensures forall u :: u in m <==> hp <= u < hp + n
    ensures forall u :: u in m ==> m[u] == hp
  {
    if n == 0 then map[] else Units(hp, n - 1)[hp + n - 1 := hp]
  }

  /** sbrk returns memory above all that it returned before. */
  ghost predicate Above(h: Heap, hp: nat) {
    h.base < hp && forall u :: u in h.owner ==> u < hp
  }

  lemma GrownOk(h: Heap, hp: nat, n: nat)
    requires Ok(h) && Above(h, hp) && n > 0
    ensures Ok(Grown(h, hp, n)) && hp !in h.live && hp !in h.free
  {
    hide NextIs;
    var h' := Grown(h, hp, n);
    assert !IsBlock(h, hp) by {
      if IsBlock(h, hp) {
        FirstUnit(h, hp);
      }
    }
    assert Linked(h') by {
      forall b ensures LinkOk(h', b) {
        assert LinkOk(h, b);
        SameNext(h, h', b, Ptr(h, b));
      }
    }
    forall b ensures BlockOk(h', b) { assert BlockOk(h, b); }
    forall u ensures UnitOk(h', u) { assert UnitOk(h, u); }
    forall a, b ensures !Touch(h', a, b) { assert !Touch(h, a, b); }
  }

  // ----- Going round the list -----

  /** The free blocks from p on, up to and without `stop`, going round. */
  ghost function Arc(h: Heap, p: nat, stop: nat): set<nat> {
    set x | x in h.free && (if p <= stop then p <= x < stop else x >= p || x < stop)
  }

  lemma ArcStep(h: Heap, p: nat, stop: nat)
    requires Linked(h) && p in h.free && stop in h.free
    ensures p != stop ==> p in Arc(h, p, stop) && Arc(h, Ptr(h, p), stop) == Arc(h, p, stop) - {p}
    ensures Arc(h, Ptr(h, stop), stop) == h.free - {stop} && Ptr(h, p) in h.free
  {
    assert LinkOk(h, p) && LinkOk(h, stop) && LinkOk(h, h.base);
    forall x | x in h.free ensures h.base <= x { assert LinkOk(h, x); }
  }
}
