/** mappages, uvmunmap and uvmclear of kernel/vm.c. */
module VmMap {
  import opened VmModel
  import opened VmSteps
  import opened VmWalk

  function WithV(perm: nat): nat { if IsValid(perm) then perm else perm + PTE_V }

  lemma WithVFlags(perm: nat)
    requires perm < 1024
    ensures WithV(perm) < 1024 && IsValid(WithV(perm)) && IsLeaf(WithV(perm)) == IsLeaf(perm)
            && IsUser(WithV(perm)) == IsUser(perm)
  {
  }

  /** What page v needs in order to be mapped when page lo gets frame f0: no entry yet and,
      below USERTOP, a frame that nobody has. */
  ghost predicate CanMap(m: Mem, root: nat, lo: nat, f0: nat, perm: nat, v: nat)
    requires lo <= v
  {
    var f := f0 + (v - lo);
    && Lookup(m, root, v) == 0
    && if v < USERTOP then f in m.role && m.role[f].Held? && f in m.data else !IsUser(perm)
  }

  lemma GrewThen(m0: Mem, m1: Mem, m2: Mem, root: nat, f0: nat, n: nat)
    requires Grew(m0, m1, root, f0, n) && Grew(m1, m2, root, 0, 0)
    ensures Grew(m0, m2, root, f0, n)
  {
    forall g ensures GrewAt(m0, m2, root, f0, n, g) {
      assert GrewAt(m0, m1, root, f0, n, g) && GrewAt(m1, m2, root, 0, 0, g);
    }
  }

  /** One round of mappages after its walk from m1 to m2. */
  lemma MapOne(m0: Mem, m1: Mem, m2: Mem, root: nat, lo: nat, n: nat, f0: nat, t: nat, flags: nat)
    requires Inv(m2) && ViewOutside(m0, m1, root, lo, n) && Grew(m0, m1, root, f0, n)
    requires SameView(m1, m2) && Grew(m1, m2, root, 0, 0) && IsRoot(m0, root)
    requires Covers(m2, t, root, lo + n) && t in m2.tables && lo + n < MAXVPN
    requires CanMap(m0, root, lo, f0, flags, lo + n) && flags < 1024 && IsValid(flags) && IsLeaf(flags)
    ensures var m3 := Mapped(m2, t, (lo + n) % NPTE, f0 + n, flags);
            && Inv(m3) && ViewOutside(m0, m3, root, lo, n + 1) && Grew(m0, m3, root, f0, n + 1)
            && Lookup(m3, root, lo + n) == Pte(f0 + n, flags)
            && forall v :: lo <= v < lo + n ==> Lookup(m3, root, v) == Lookup(m1, root, v)
  {
    hide Inv, Lookup, Pte, IsLeaf, IsUser, IsValid;
    var i, f, n' := (lo + n) % NPTE, f0 + n, n + 1;
    var m3 := Mapped(m2, t, i, f, flags);
    Digits(lo + n);
    assert GrewAt(m0, m1, root, f0, n, f) && GrewAt(m1, m2, root, 0, 0, f);
    CoverWalks(m2, t, root, lo + n);
    MappedKeeps(m2, t, i, f, flags);
    MappedView(m2, t, i, f, flags);
    forall g ensures GrewAt(m0, m3, root, f0, n', g) {
      assert GrewAt(m0, m1, root, f0, n, g) && GrewAt(m1, m2, root, 0, 0, g);
    }
  }

  method Mappages(m: Mem, root: nat, va: nat, size: nat, pa: nat, perm: nat) returns (ok: bool, ghost done: nat,
                  m': Mem)
    requires Inv(m) && IsRoot(m, root) && size > 0 && va + size <= MAXVA && perm < 1024 && IsLeaf(perm)
    requires forall v :: va / PGSIZE <= v <= (va + size - 1) / PGSIZE ==>
               CanMap(m, root, va / PGSIZE, pa / PGSIZE, perm, v)
    ensures Inv(m') && ViewOutside(m, m', root, va / PGSIZE, done) && Grew(m, m', root, pa / PGSIZE, done)
    ensures done <= (va + size - 1) / PGSIZE - va / PGSIZE + 1
    ensures ok <==> done == (va + size - 1) / PGSIZE - va / PGSIZE + 1
    ensures |m'.free| <= |m.free| <= |m'.free| + 2 * done + (if ok then 0 else 1) && (!ok ==> m'.free == [])
    ensures forall v :: va / PGSIZE <= v < va / PGSIZE + done ==>
              Lookup(m', root, v) == Pte(pa / PGSIZE + (v - va / PGSIZE), WithV(perm))
  {
    hide Inv, Lookup, Pte, IsValid, IsLeaf, IsUser, PX, WithV;
    ghost var lo, f0 := va / PGSIZE, pa / PGSIZE;
    WithVFlags(perm);
    var hi := (va + size - 1) / PGSIZE;
    var a, last, p := va / PGSIZE * PGSIZE, hi * PGSIZE, pa;
    m', done := m, 0;
    while true
      invariant a == (lo + done) * PGSIZE && p / PGSIZE == f0 + done && lo + done <= hi
      invariant Inv(m') && ViewOutside(m, m', root, lo, done) && Grew(m, m', root, f0, done)
                && |m'.free| <= |m.free| <= |m'.free| + 2 * done
      invariant forall v :: lo <= v < lo + done ==> Lookup(m', root, v) == Pte(f0 + (v - lo), WithV(perm))
      decreases hi - lo - done
    {
      assert CanMap(m, root, lo, f0, perm, lo + done);
      assert a / PGSIZE == lo + done < MAXVPN;
      PXDigits(a);
      var t, m1 := Walk(m', root, a, true);
      if t == 0 {
        GrewThen(m, m', m1, root, f0, done);
        return false, done, m1;
      }
      MapOne(m, m', m1, root, lo, done, f0, t, WithV(perm));
      m' := Mapped(m1, t, PX(0, a), p / PGSIZE, WithV(perm));
      done := done + 1;
      if a == last {
        ok := true;
        return;
      }
      a, p := a + PGSIZE, p + PGSIZE;
    }
  }

  // ----- uvmunmap -----

  function Dropped(m: Mem, t: nat, i: nat, doFree: bool): Mem
    requires IsNode(m, t) && t in m.tables && i < NPTE
  {
    if doFree then Given(Unmapped(m, t, i), FrameOf(Entry(m, t, i))) else Unmapped(m, t, i)
  }

  /** Clearing the entry of page v, and freeing its frame when asked to. */
  lemma DroppedKeeps(m: Mem, root: nat, v: nat, t: nat, doFree: bool)
    requires Inv(m) && IsRoot(m, root) && v < MAXVPN && Covers(m, t, root, v) && t in m.tables
    requires Lookup(m, root, v) != 0 && (doFree ==> v < USERTOP)
    ensures var m' := Dropped(m, t, v % NPTE, doFree);
            && Inv(m') && ViewOutside(m, m', root, v, 1) && Lookup(m', root, v) == 0
            && Shrank(m, m', root, v, 1, if doFree then Free else Held)
  {
    hide Inv, FrameOf, Lookup, LastTable;
    var i, r, n := v % NPTE, if doFree then Free else Held, 1;
    var m1, m', f := Unmapped(m, t, i), Dropped(m, t, i, doFree), FrameOf(Entry(m, t, i));
    Digits(v);
    CoverWalks(m, t, root, v);
    LookupOwns(m, root, v);
    UnmappedKeeps(m, t, i);
    UnmappedView(m, t, i);
    if doFree {
      GivenKeeps(m1, f);
      SameTables(m1, m');
    }
    forall g ensures ShrankAt(m, m', root, v, n, r, g) {
      if g in m.role && m.role[g].User? && m.role[g].root == root && m.role[g].vpn == v {
        OwnerLooksUp(m, g);
      }
    }
  }

  lemma ShrankThen(m0: Mem, m1: Mem, m2: Mem, root: nat, lo: nat, n: nat, r: Role)
    requires Shrank(m0, m1, root, lo, n, r) && Shrank(m1, m2, root, lo + n, 1, r) && !r.User?
    ensures Shrank(m0, m2, root, lo, n + 1, r)
  {
    var hi, n', k := lo + n, n + 1, 1;
    forall g ensures ShrankAt(m0, m2, root, lo, n', r, g) {
      assert ShrankAt(m0, m1, root, lo, n, r, g) && ShrankAt(m1, m2, root, hi, k, r, g);
    }
  }

  /** Frees after clearing the entry where the source frees before it. The two write to
      different frames, so the order does not show. */
  method Uvmunmap(m: Mem, root: nat, va: nat, npages: nat, doFree: bool) returns (m': Mem)
    requires Inv(m) && IsRoot(m, root) && va % PGSIZE == 0 && va + npages * PGSIZE <= MAXVA
    requires forall v :: va / PGSIZE <= v < va / PGSIZE + npages ==> Lookup(m, root, v) != 0
    requires doFree ==> va / PGSIZE + npages <= USERTOP
    ensures Inv(m') && ViewOutside(m, m', root, va / PGSIZE, npages)
    ensures Shrank(m, m', root, va / PGSIZE, npages, if doFree then Free else Held)
    ensures forall v :: va / PGSIZE <= v < va / PGSIZE + npages ==> Lookup(m', root, v) == 0
  {
    hide Inv, Lookup, LastTable, PX, Dropped;
    ghost var lo, r := va / PGSIZE, if doFree then Free else Held;
    var a, k := va, 0;
    m' := m;
    while a < va + npages * PGSIZE
      invariant k <= npages && a == va + k * PGSIZE
      invariant Inv(m') && ViewOutside(m, m', root, lo, k) && Shrank(m, m', root, lo, k, r)
      invariant forall v :: lo <= v < lo + k ==> Lookup(m', root, v) == 0
    {
      assert a / PGSIZE == lo + k < MAXVPN;
      PXDigits(a);
      assert Lookup(m', root, lo + k) != 0;
      var t, _ := Walk(m', root, a, false);
      HasLastTable(m', root, lo + k);
      DroppedKeeps(m', root, lo + k, t, doFree);
      ShrankThen(m, m', Dropped(m', t, PX(0, a), doFree), root, lo, k, r);
      m' := Dropped(m', t, PX(0, a), doFree);
      a, k := a + PGSIZE, k + 1;
    }
  }

  lemma HasLastTable(m: Mem, root: nat, v: nat)
    requires Lookup(m, root, v) != 0
    ensures LastTable(m, root, v) != 0
  {
  }

  // ----- uvmclear -----

  /** pte & ~PTE_U */
  function WithoutU(pte: nat): nat { if IsUser(pte) then pte - PTE_U else pte }

  lemma WithoutUFlags(pte: nat)
    ensures !IsUser(WithoutU(pte)) && FrameOf(WithoutU(pte)) == FrameOf(pte)
    ensures IsValid(WithoutU(pte)) == IsValid(pte) && IsLeaf(WithoutU(pte)) == IsLeaf(pte) && WithoutU(0) == 0
    ensures pte - WithoutU(pte) == if IsUser(pte) then PTE_U else 0
  {
    var f, x: nat := FrameOf(pte), if IsUser(pte) then Flags(pte) - PTE_U else Flags(pte);
    assert pte == Pte(f, Flags(pte));
    PteParts(f, x);
    ClearBit(Flags(pte));
    assert WithoutU(pte) == Pte(f, x);
  }

  lemma ClearBit(x: nat)
    ensures x / 16 % 2 == 1 ==>
              x >= 16 && (x - 16) / 16 % 2 == 0 && (x - 16) % 2 == x % 2 && (x - 16) / 2 % 8 == x / 2 % 8
  {
    LowBits(x / 16, x % 16);
    if x >= 16 {
      LowBits(x / 16 - 1, x % 16);
    }
  }

  lemma LowBits(y: nat, z: nat)
    requires z < 16
    ensures (16 * y + z) / 16 == y && (16 * y + z) % 2 == z % 2 && (16 * y + z) / 2 % 8 == z / 2
  {
    assert (16 * y + z) / 2 == 8 * y + z / 2;
  }

  lemma ClearedKeeps(m: Mem, t: nat, i: nat)
    requires Inv(m) && IsNode(m, t) && m.role[t].level == 0 && t in m.tables && i < NPTE
    ensures Inv(SetEntry(m, t, i, WithoutU(Entry(m, t, i))))
  {
    hide FreeListOk, Pte, FrameOf, IsValid, IsLeaf, IsUser, WithoutU;
    var m' := SetEntry(m, t, i, WithoutU(Entry(m, t, i)));
    WithoutUFlags(Entry(m, t, i));
    SameFree(m, m');
    assert EntryOk(m, t, i);
    forall g ensures FrameOk(m', g) {
      assert FrameOk(m, g);
    }
    forall u, j ensures EntryOk(m', u, j) {
      assert EntryOk(m, u, j);
    }
  }

  /** Takes a page away from user code, and nothing else. */
  method Uvmclear(m: Mem, root: nat, va: nat) returns (m': Mem)
    requires Inv(m) && IsRoot(m, root) && va < MAXVA && LastTable(m, root, va / PGSIZE) != 0
    ensures Inv(m') && ViewOutside(m, m', root, va / PGSIZE, 1) && m'.role == m.role && m'.data == m.data
            && m'.free == m.free
    ensures var pte, pte' := Lookup(m, root, va / PGSIZE), Lookup(m', root, va / PGSIZE);
            && !IsUser(pte') && pte - pte' == (if IsUser(pte) then PTE_U else 0)
            && FrameOf(pte') == FrameOf(pte) && IsValid(pte') == IsValid(pte) && IsLeaf(pte') == IsLeaf(pte)
  {
    hide Inv, Lookup, LastTable, PX, FrameOf, IsValid, IsLeaf, IsUser, WithoutU;
    PXDigits(va);
    var t, _ := Walk(m, root, va, false);
    ghost var v := va / PGSIZE;
    var i := PX(0, va);
    CoverWalks(m, t, root, v);
    ClearedKeeps(m, t, i);
    m' := SetEntry(m, t, i, WithoutU(m.tables[t][i]));
    CoverWalks(m', t, root, v);
    WithoutUFlags(Entry(m, t, i));
    forall r: nat, u: nat | IsRoot(m, r) && u < MAXVPN
      && !(r == root && u == v) ensures Lookup(m', r, u) == Lookup(m, r, u) {
      Digits(u);
      Digits(v);
      SameLookup(m, m', r, u);
    }
  }
}
