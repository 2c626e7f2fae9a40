/** The growth, copying and release of user memory in kernel/vm.c. */
module VmUser {
  import opened VmModel
  import opened VmSteps
  import opened VmWalk
  import opened VmMap

  /** PGROUNDUP(sz) / PGSIZE */
  function Pages(sz: nat): nat { (sz + PGSIZE - 1) / PGSIZE }

  function Stored(m: Mem, f: nat, page: Page): Mem { m.(data := m.data[f := page]) }

  lemma StoredKeeps(m: Mem, f: nat, page: Page)
    requires Inv(m)
    ensures Inv(Stored(m, f, page)) && SameView(m, Stored(m, f, page))
  {
    hide FreeListOk, Lookup;
    var m' := Stored(m, f, page);
    SameFree(m, m');
    forall g ensures FrameOk(m', g) {
      assert FrameOk(m, g);
    }
    forall t, i ensures EntryOk(m', t, i) {
      assert EntryOk(m, t, i);
    }
    SameTables(m, m');
  }

  /** Mapped pages whose entries and frames stay keep their contents. */
  lemma PagesStay(m: Mem, m': Mem)
    requires Inv(m) && Inv(m') && RootsStay(m, m')
    requires forall f :: f in m.role && m.role[f].User? ==> Untouched(m, m', f)
    requires forall r: nat, v: nat :: IsRoot(m, r) && v < USERTOP && Lookup(m, r, v) != 0 ==>
               Lookup(m', r, v) == Lookup(m, r, v)
    ensures KeepsPages(m, m')
  {
    hide Inv, Lookup;
    forall r: nat, v: nat | IsRoot(m, r) && v < USERTOP && Lookup(m, r, v) != 0
      ensures PageAt(m', r, v) == PageAt(m, r, v)
    {
      LookupOwns(m, r, v);
      assert Untouched(m, m', FrameOf(Lookup(m, r, v)));
    }
  }

  /** A page mapped with the given permissions and holding the given contents. */
  ghost predicate HasPage(m: Mem, root: nat, v: nat, perm: nat, page: Page)
    requires Inv(m) && IsRoot(m, root) && v < USERTOP
  {
    Lookup(m, root, v) != 0 && Flags(Lookup(m, root, v)) == WithV(perm) && PageAt(m, root, v) == page
  }

  /** m1 is m after kalloc returned f and f was filled in. */
  ghost predicate Filled(m: Mem, m1: Mem, f: nat, page: Page) {
    && Inv(m) && Inv(m1) && f in m.role && m.role[f].Free? && m1.role.Keys == m.role.Keys && m1.tables == m.tables
    && m1.role[f].Held? && f in m1.data && m1.data[f] == page && forall g :: g != f ==> Untouched(m, m1, g)
  }

  lemma FilledView(m: Mem, m1: Mem, f: nat, page: Page)
    requires Filled(m, m1, f, page)
    ensures SameView(m, m1)
  {
    hide Inv, Lookup;
    forall r | IsRoot(m, r) ensures IsRoot(m1, r) {
      assert Untouched(m, m1, r);
    }
    SameTables(m, m1);
  }

  /** mappages mapped f as page v. */
  lemma FilledMapped(m: Mem, m1: Mem, m2: Mem, f: nat, page: Page, root: nat, v: nat)
    requires Filled(m, m1, f, page) && Inv(m2) && Grew(m1, m2, root, f, 1) && ViewOutside(m1, m2, root, v, 1)
    requires IsRoot(m, root) && v < USERTOP && Lookup(m, root, v) == 0
    requires IsRoot(m2, root) && Lookup(m2, root, v) != 0 && FrameOf(Lookup(m2, root, v)) == f
    ensures Extended(m, m2, root) && ViewOutside(m, m2, root, v, 1) && PageAt(m2, root, v) == page && KeepsPages(m, m2)
  {
    hide Inv, Lookup, FrameOf;
    var one := 1;
    FilledView(m, m1, f, page);
    LookupOwns(m2, root, v);
    assert GrewAt(m1, m2, root, f, one, f);
    forall g ensures ExtendedAt(m, m2, root, g) {
      assert (g != f ==> Untouched(m, m1, g)) && GrewAt(m1, m2, root, f, one, g);
    }
    forall g | g in m.role && m.role[g].User? ensures Untouched(m, m2, g) {
      assert Untouched(m, m1, g) && GrewAt(m1, m2, root, f, one, g);
    }
    PagesStay(m, m2);
  }

  /** mappages failed and f was freed. */
  lemma FilledFailed(m: Mem, m1: Mem, m2: Mem, m3: Mem, f: nat, page: Page, root: nat, v: nat)
    requires Filled(m, m1, f, page) && Inv(m2) && Grew(m1, m2, root, f, 0) && ViewOutside(m1, m2, root, v, 0)
    requires m3.role.Keys == m2.role.Keys && m3.tables == m2.tables && m3.role[f].Free?
             && forall g :: g != f ==> Untouched(m2, m3, g)
    ensures Grew(m, m3, root, 0, 0) && SameView(m, m3)
  {
    hide Inv, Lookup;
    var none := 0;
    FilledView(m, m1, f, page);
    assert GrewAt(m1, m2, root, f, none, f);
    forall r | IsRoot(m2, r) ensures IsRoot(m3, r) {
      assert Untouched(m2, m3, r);
    }
    SameTables(m2, m3);
    forall g ensures GrewAt(m, m3, root, none, none, g) {
      assert (g != f ==> Untouched(m, m1, g) && Untouched(m2, m3, g)) && GrewAt(m1, m2, root, f, none, g);
    }
  }

  /** What a round of uvmalloc and one of uvmcopy share: a frame with the given contents
      becomes the page at a, or is freed again when no page-table page can be had. */
  method AddPage(m: Mem, root: nat, a: nat, page: Page, perm: nat) returns (ok: bool, m': Mem)
    requires Inv(m) && IsRoot(m, root) && a % PGSIZE == 0 && a / PGSIZE < USERTOP && Lookup(m, root, a / PGSIZE) == 0
    requires perm < 1024 && IsLeaf(perm)
    ensures Inv(m') && IsRoot(m', root)
    ensures ok ==> && Extended(m, m', root) && ViewOutside(m, m', root, a / PGSIZE, 1) && KeepsPages(m, m')
                   && HasPage(m', root, a / PGSIZE, perm, page) && |m'.free| < |m.free| <= |m'.free| + 3
    ensures !ok ==> SameView(m, m') && Grew(m, m', root, 0, 0) && |m.free| < 3
  {
    hide Inv, Lookup, PageAt, Flags, FrameOf, IsLeaf, Pte;
    var f, m1 := Kalloc(m);
    if f == 0 {
      GrewNothing(m, root);
      return false, m;
    }
    KallocFilled(m, m1, f, page);
    m1 := Stored(m1, f, page);
    FilledView(m, m1, f, page);
    assert f * PGSIZE / PGSIZE == f && (a + PGSIZE - 1) / PGSIZE == a / PGSIZE;
    ghost var done;
    ok, done, m' := Mappages(m1, root, a, PGSIZE, f * PGSIZE, perm);
    assert GrewAt(m1, m', root, f, done, f);
    if !ok {
      ghost var m2 := m';
      m' := Kfree(m', f);
      FilledFailed(m, m1, m2, m', f, page, root, a / PGSIZE);
    } else {
      WithVFlags(perm);
      PteParts(f, WithV(perm));
      ValidIsNonzero(Pte(f, WithV(perm)));
      FilledMapped(m, m1, m', f, page, root, a / PGSIZE);
    }
  }

  lemma ValidIsNonzero(pte: nat)
    requires IsValid(pte)
    ensures pte != 0
  {
  }

  lemma KallocFilled(m: Mem, m1: Mem, f: nat, page: Page)
    requires Inv(m) && Inv(m1) && f in m.role && m.role[f].Free? && m1.role.Keys == m.role.Keys && m1.tables == m.tables
    requires m1.role[f].Held? && forall g :: g != f ==> Untouched(m, m1, g)
    ensures Filled(m, Stored(m1, f, page), f, page)
  {
    hide Inv;
    StoredKeeps(m1, f, page);
    forall g | g != f ensures Untouched(m, Stored(m1, f, page), g) {
      assert Untouched(m, m1, g);
    }
  }

  lemma GrewNothing(m: Mem, root: nat)
    ensures Grew(m, m, root, 0, 0) && SameView(m, m)
  {
  }

  lemma ExtendedThen(m0: Mem, m1: Mem, m2: Mem, root: nat)
    requires Extended(m0, m1, root) && Extended(m1, m2, root)
    ensures Extended(m0, m2, root)
  {
    forall g ensures ExtendedAt(m0, m2, root, g) {
      assert ExtendedAt(m0, m1, root, g) && ExtendedAt(m1, m2, root, g);
    }
  }

  lemma GrewExtended(m: Mem, m': Mem, root: nat)
    requires Grew(m, m', root, 0, 0)
    ensures Extended(m, m', root)
  {
    var none := 0;
    forall g ensures ExtendedAt(m, m', root, g) {
      assert GrewAt(m, m', root, none, none, g);
    }
  }

  /** Unmapping the pages a growth added leaves every address space as it was; only new
      page-table pages of `root` remain. */
  lemma RolledBack(m0: Mem, m: Mem, m': Mem, root: nat, lo: nat, n: nat)
    requires Inv(m0) && Inv(m) && IsRoot(m0, root) && Extended(m0, m, root) && ViewOutside(m0, m, root, lo, n)
             && lo + n <= USERTOP
    requires forall v :: lo <= v < lo + n ==> Lookup(m0, root, v) == 0
    requires ViewOutside(m, m', root, lo, n) && Shrank(m, m', root, lo, n, Free)
    requires forall v :: lo <= v < lo + n ==> Lookup(m', root, v) == 0
    ensures SameView(m0, m') && Grew(m0, m', root, 0, 0)
  {
    hide Inv, Lookup, FrameOf;
    var none := 0;
    forall g ensures GrewAt(m0, m', root, none, none, g) {
      assert ExtendedAt(m0, m, root, g) && ShrankAt(m, m', root, lo, n, Free, g);
      if g in m.role && m.role[g].User? && g in m0.role && m0.role[g].Free? {
        OwnerLooksUp(m, g);
        if !(lo <= m.role[g].vpn < lo + n) {
          LookupOwns(m0, root, m.role[g].vpn);
        }
      }
      if g in m0.role && m0.role[g].User? {
        OwnerLooksUp(m0, g);
      }
    }
  }

  method Uvmdealloc(m: Mem, root: nat, oldsz: nat, newsz: nat) returns (sz: nat, m': Mem)
    requires Inv(m) && IsRoot(m, root) && Pages(oldsz) <= USERTOP
    requires forall v :: Pages(newsz) <= v < Pages(oldsz) ==> Lookup(m, root, v) != 0
    ensures Inv(m') && sz == (if newsz < oldsz then newsz else oldsz)
    ensures var n := if Pages(newsz) < Pages(oldsz) then Pages(oldsz) - Pages(newsz) else 0;
            && ViewOutside(m, m', root, Pages(newsz), n) && Shrank(m, m', root, Pages(newsz), n, Free)
            && forall v :: Pages(newsz) <= v < Pages(newsz) + n ==> Lookup(m', root, v) == 0
  {
    hide Inv, Lookup;
    m' := m;
    if newsz >= oldsz {
      return oldsz, m';
    }
    if Pages(newsz) < Pages(oldsz) {
      var npages := Pages(oldsz) - Pages(newsz);
      m' := Uvmunmap(m, root, Pages(newsz) * PGSIZE, npages, true);
    }
    sz := newsz;
  }

  /** PTE_R|PTE_U|xperm */
  function UserPerm(xperm: nat): nat { PTE_R + PTE_U + xperm }

  /** User code may read the page, and write and execute it as xperm says. */
  predicate UserEntry(pte: nat, xperm: nat) {
    && IsValid(pte) && IsUser(pte) && IsReadable(pte)
    && (IsWritable(pte) <==> IsWritable(xperm)) && (IsExecutable(pte) <==> IsExecutable(xperm))
  }

  /** The pages from PGROUNDUP(oldsz) up to newsz, which must be unmapped, get zeroed frames;
      when memory runs out, the pages added so far are taken away again. There is room in the
      address space for every free frame, so that newsz can be anything. */
  method Uvmalloc(m: Mem, root: nat, oldsz: nat, newsz: nat, xperm: nat) returns (sz: nat, ghost ok: bool, m': Mem)
    requires Inv(m) && IsRoot(m, root) && xperm in {0, PTE_W, PTE_X, PTE_W + PTE_X}
    requires Pages(oldsz) + |m.free| < USERTOP
    requires forall v :: Pages(oldsz) <= v < USERTOP ==> Lookup(m, root, v) == 0
    ensures Inv(m') && IsRoot(m', root) && KeepsPages(m, m')
    ensures newsz < oldsz ==> ok && sz == oldsz && m' == m
    ensures newsz >= oldsz && !ok ==> sz == 0 && SameView(m, m') && Grew(m, m', root, 0, 0)
    ensures !ok ==> |m.free| < 3 * (Pages(newsz) - Pages(oldsz))
    ensures newsz >= oldsz && ok ==>
              && sz == newsz && Pages(newsz) <= USERTOP && Extended(m, m', root) && Pages(oldsz) <= Pages(newsz)
              && ViewOutside(m, m', root, Pages(oldsz), Pages(newsz) - Pages(oldsz))
              && forall v :: Pages(oldsz) <= v < Pages(newsz) ==>
                  HasPage(m', root, v, UserPerm(xperm), FilledPage(0)) && UserEntry(Lookup(m', root, v), xperm)
  {
    hide Inv, Lookup, PageAt, Flags, FrameOf, IsLeaf, Grew, Extended, Pages, UserPerm, UserEntry;
    m' := m;
    PagesStay(m, m);
    PagesUp(oldsz, newsz);
    if newsz < oldsz {
      return oldsz, true, m';
    }
    var perm, zero := UserPerm(xperm), FilledPage(0);
    UserPermFlags(xperm);
    var lo := Pages(oldsz);
    var a, k := lo * PGSIZE, 0;
    GrewNothing(m, root);
    GrewExtended(m, m, root);
    while a < newsz
      invariant a == (lo + k) * PGSIZE && lo + k <= Pages(newsz) && |m'.free| + k <= |m.free| <= |m'.free| + 3 * k
      invariant Inv(m') && Extended(m, m', root) && ViewOutside(m, m', root, lo, k) && IsRoot(m', root)
      invariant forall v :: lo <= v < lo + k ==> HasPage(m', root, v, perm, zero)
      decreases Pages(newsz) - lo - k
    {
      PagesUp(a, newsz);
      var added, m1 := AddPage(m', root, a, zero, perm);
      if !added {
        GrewExtended(m', m1, root);
        ExtendedThen(m, m', m1, root);
        PagesUp(lo, a);
        assert forall v :: lo <= v < lo + k ==> Lookup(m1, root, v) != 0 by {
          forall v | lo <= v < lo + k ensures Lookup(m1, root, v) != 0 {
            assert HasPage(m', root, v, perm, zero);
          }
        }
        var _, m2 := Uvmdealloc(m1, root, a, lo * PGSIZE);
        RolledBack(m, m1, m2, root, lo, k);
        GrewKeepsPages(m, m2, root);
        return 0, false, m2;
      }
      ExtendedThen(m, m', m1, root);
      PagesStayThere(m', m1, root, lo, k, perm, zero);
      m' := m1;
      a, k := a + PGSIZE, k + 1;
    }
    PagesUp(a, newsz);
    ExtendedKeepsPages(m, m', root, lo, k);
    PagesPermit(m', root, lo, k, xperm, zero);
    return newsz, true, m';
  }

  lemma PagesUp(a: nat, b: nat)
    ensures a <= b ==> Pages(a) <= Pages(b)
    ensures a % PGSIZE == 0 ==> Pages(a) == a / PGSIZE && (a < b ==> Pages(a) < Pages(b))
    ensures Pages(a) * PGSIZE >= a && Pages(a * PGSIZE) == a && (b <= Pages(a) * PGSIZE ==> Pages(b) <= Pages(a))
  {
  }

  lemma UserPermFlags(xperm: nat)
    requires xperm in {0, PTE_W, PTE_X, PTE_W + PTE_X}
    ensures UserPerm(xperm) < 1024 && IsLeaf(UserPerm(xperm))
  {
  }

  lemma PagesPermit(m: Mem, root: nat, lo: nat, n: nat, xperm: nat, page: Page)
    requires Inv(m) && IsRoot(m, root) && lo + n <= USERTOP && xperm in {0, PTE_W, PTE_X, PTE_W + PTE_X}
    requires forall v :: lo <= v < lo + n ==> HasPage(m, root, v, UserPerm(xperm), page)
    ensures forall v :: lo <= v < lo + n ==> UserEntry(Lookup(m, root, v), xperm)
  {
    hide Inv, Lookup, PageAt;
    forall v | lo <= v < lo + n ensures UserEntry(Lookup(m, root, v), xperm) {
      assert HasPage(m, root, v, UserPerm(xperm), page);
    }
  }

  lemma PagesStayThere(m: Mem, m': Mem, root: nat, lo: nat, n: nat, perm: nat, page: Page)
    requires Inv(m) && Inv(m') && IsRoot(m, root) && KeepsPages(m, m') && lo + n <= USERTOP
    requires forall v :: lo <= v < lo + n ==> HasPage(m, root, v, perm, page)
    ensures IsRoot(m', root) && forall v :: lo <= v < lo + n ==> HasPage(m', root, v, perm, page)
  {
    hide Inv, Lookup, PageAt;
    forall v | lo <= v < lo + n ensures HasPage(m', root, v, perm, page) {
      assert HasPage(m, root, v, perm, page);
    }
  }

  lemma GrewKeepsPages(m: Mem, m': Mem, root: nat)
    requires Inv(m) && Inv(m') && Grew(m, m', root, 0, 0) && SameView(m, m')
    ensures KeepsPages(m, m')
  {
    hide Inv, Lookup;
    var none := 0;
    forall f | f in m.role && m.role[f].User? ensures Untouched(m, m', f) {
      assert GrewAt(m, m', root, none, none, f);
    }
    PagesStay(m, m');
  }

  lemma ExtendedKeepsPages(m: Mem, m': Mem, root: nat, lo: nat, n: nat)
    requires Inv(m) && Inv(m') && Extended(m, m', root) && ViewOutside(m, m', root, lo, n)
    requires forall v :: lo <= v < lo + n && v < USERTOP ==> Lookup(m, root, v) == 0
    ensures KeepsPages(m, m')
  {
    hide Inv, Lookup;
    forall f | f in m.role && m.role[f].User? ensures Untouched(m, m', f) {
      assert ExtendedAt(m, m', root, f);
    }
    PagesStay(m, m');
  }

  // ----- The allocator at boot -----

  lemma FirstGiven(m: Mem, f: nat)
    requires Inv(m) && f != 0 && f !in m.role && m.tables == map[] && forall g :: g in m.role ==> m.role[g].Free?
    ensures Inv(Given(m, f))
  {
    assert f !in m.free;
    assert FreeListOk(Given(m, f));
  }

  /** freerange: every whole frame between the two addresses is free. */
  method Freerange(start: nat, end: nat) returns (m: Mem)
    requires start > 0
    ensures Inv(m) && forall f: nat :: f in m.role <==> Pages(start) <= f && (f + 1) * PGSIZE <= end
    ensures forall f :: f in m.role ==> f in m.free
  {
    m := Mem(map[], map[], [], map[]);
    var p := Pages(start) * PGSIZE;
    while p + PGSIZE <= end
      invariant p % PGSIZE == 0 && p / PGSIZE >= Pages(start) && (p / PGSIZE > Pages(start) ==> p <= end)
      invariant Inv(m) && m.tables == map[] && forall f: nat :: f in m.role <==> Pages(start) <= f < p / PGSIZE
      invariant forall f :: f in m.role ==> m.role[f].Free?
    {
      FirstGiven(m, p / PGSIZE);
      m := Given(m, p / PGSIZE);
      p := p + PGSIZE;
    }
  }
}
