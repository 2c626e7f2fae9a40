/** Copying an address space: uvmcopy of kernel/vm.c. */
module VmCopy {
  import opened VmModel
  import opened VmSteps
  import opened VmWalk
  import opened VmMap
  import opened VmUser

  /** No frame is shared: two pages below USERTOP with the same frame are the same page. */
  lemma NoSharing(m: Mem, r1: nat, v1: nat, r2: nat, v2: nat)
    requires Inv(m) && IsRoot(m, r1) && IsRoot(m, r2) && v1 < USERTOP && v2 < USERTOP
    requires Lookup(m, r1, v1) != 0 && Lookup(m, r2, v2) != 0
    ensures FrameOf(Lookup(m, r1, v1)) == FrameOf(Lookup(m, r2, v2)) <==> r1 == r2 && v1 == v2
  {
    hide Inv, Lookup, FrameOf;
    LookupOwns(m, r1, v1);
    LookupOwns(m, r2, v2);
  }

  /** Page v of `child` in m' has the permissions and contents that page v of `parent` has in m. */
  ghost predicate Copied(m: Mem, parent: nat, m': Mem, child: nat, v: nat)
    requires Inv(m) && IsRoot(m, parent) && Inv(m') && IsRoot(m', child) && v < USERTOP
  {
    && Lookup(m, parent, v) != 0 && Lookup(m', child, v) != 0
    && Flags(Lookup(m', child, v)) == Flags(Lookup(m, parent, v))
    && PageAt(m', child, v) == PageAt(m, parent, v)
  }

  lemma CopiedStays(m: Mem, parent: nat, m1: Mem, m2: Mem, child: nat, n: nat)
    requires Inv(m) && IsRoot(m, parent) && Inv(m1) && IsRoot(m1, child) && n <= USERTOP
    requires forall v: nat :: v < n ==> Copied(m, parent, m1, child, v)
    requires Inv(m2) && KeepsPages(m1, m2)
    ensures IsRoot(m2, child) && forall v: nat :: v < n ==> Copied(m, parent, m2, child, v)
  {
    hide Inv, Lookup, PageAt, Flags;
    forall v: nat | v < n ensures Copied(m, parent, m2, child, v) {
      assert Copied(m, parent, m1, child, v);
    }
  }

  /** m1 is m' with a copy of page v of `parent`, which m' has as m does. */
  lemma CopiedOne(m: Mem, parent: nat, m': Mem, m1: Mem, child: nat, v: nat)
    requires Inv(m) && IsRoot(m, parent) && Inv(m') && KeepsPages(m, m') && v < USERTOP && Lookup(m, parent, v) != 0
    requires Inv(m1) && IsRoot(m1, child) && FrameOf(Lookup(m', parent, v)) in m'.data
    requires HasPage(m1, child, v, Flags(Lookup(m', parent, v)), m'.data[FrameOf(Lookup(m', parent, v))])
    ensures Copied(m, parent, m1, child, v)
  {
    hide Inv, Lookup, Flags, FrameOf, WithV;
    LeafFlags(m', parent, v);
  }

  lemma KeepsThen(m0: Mem, m1: Mem, m2: Mem)
    requires Inv(m0) && Inv(m1) && Inv(m2) && KeepsPages(m0, m1) && KeepsPages(m1, m2)
    ensures KeepsPages(m0, m2)
  {
    hide Inv, Lookup, PageAt;
  }

  lemma LeafFlags(m: Mem, root: nat, v: nat)
    requires Inv(m) && IsRoot(m, root) && v < USERTOP && Lookup(m, root, v) != 0
    ensures Flags(Lookup(m, root, v)) < 1024 && IsLeaf(Flags(Lookup(m, root, v)))
    ensures WithV(Flags(Lookup(m, root, v))) == Flags(Lookup(m, root, v))
  {
    hide Inv, Lookup;
    LookupOwns(m, root, v);
  }

  method Uvmcopy(m: Mem, parent: nat, child: nat, sz: nat) returns (ok: bool, m': Mem)
    requires Inv(m) && IsRoot(m, parent) && IsRoot(m, child) && Pages(sz) <= USERTOP
    requires forall v: nat :: v < Pages(sz) ==> Lookup(m, parent, v) != 0 && Lookup(m, child, v) == 0
    ensures Inv(m') && IsRoot(m', child) && KeepsPages(m, m')
    ensures ok ==> && Extended(m, m', child) && ViewOutside(m, m', child, 0, Pages(sz))
                   && forall v: nat :: v < Pages(sz) ==> Copied(m, parent, m', child, v)
    ensures !ok ==> SameView(m, m') && Grew(m, m', child, 0, 0) && |m.free| < 3 * Pages(sz)
  {
    hide Inv, Lookup, PageAt, Flags, FrameOf, IsLeaf, Grew, Extended, Pages, HasPage, LastTable, PX;
    m' := m;
    PagesStay(m, m);
    GrewNothing(m, child);
    GrewExtended(m, m, child);
    var i := 0;
    ghost var k := 0;
    while i < sz
      invariant i == k * PGSIZE && k <= Pages(sz) && |m.free| <= |m'.free| + 3 * k
      invariant Inv(m') && Extended(m, m', child) && ViewOutside(m, m', child, 0, k) && IsRoot(m', child)
                && KeepsPages(m, m')
      invariant forall v: nat :: v < k ==> Copied(m, parent, m', child, v)
      decreases Pages(sz) - k
    {
      PagesUp(i, sz);
      assert i / PGSIZE == k;
      PXDigits(i);
      var t, _ := Walk(m', parent, i, false);
      HasLastTable(m', parent, k);
      LookupOwns(m', parent, k);
      LeafFlags(m', parent, k);
      CoverWalks(m', t, parent, k);
      var pte := m'.tables[t][PX(0, i)];
      var added, m1 := AddPage(m', child, i, m'.data[FrameOf(pte)], Flags(pte));
      if !added {
        GrewExtended(m', m1, child);
        ExtendedThen(m, m', m1, child);
        forall v: nat | v < k ensures Lookup(m1, child, v) != 0 {
          assert Copied(m, parent, m', child, v);
        }
        var m2 := Uvmunmap(m1, child, 0, i / PGSIZE, true);
        RolledBack(m, m1, m2, child, 0, k);
        GrewKeepsPages(m, m2, child);
        return false, m2;
      }
      ExtendedThen(m, m', m1, child);
      KeepsThen(m, m', m1);
      CopiedStays(m, parent, m', m1, child, k);
      CopiedOne(m, parent, m', m1, child, k);
      m' := m1;
      i, k := i + PGSIZE, k + 1;
    }
    PagesUp(i, sz);
    return true, m';
  }
}
