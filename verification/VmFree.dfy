/** Releasing an address space: freewalk and uvmfree of kernel/vm.c. */
module VmFree {
  import opened VmModel
  import opened VmSteps
  import opened VmWalk
  import opened VmMap
  import opened VmUser

  // ----- The page-table pages below one -----

  ghost predicate IsChild(m: Mem, c: nat, t: nat) {
    IsNode(m, c) && m.role[c].level < 2 && m.role[c].parent == t
  }

  /** f is t or below it. */
  ghost predicate Under(m: Mem, f: nat, t: nat) {
    IsNode(m, f) && (f == t || IsChild(m, f, t) || (m.role[f].level < 2 && IsChild(m, m.role[f].parent, t)))
  }

  /** The entry of t that leads to f. */
  ghost function EntryFor(m: Mem, f: nat, t: nat): nat
    requires Under(m, f, t) && f != t
  {
    if IsChild(m, f, t) then m.role[f].prefix % NPTE else m.role[m.role[f].parent].prefix % NPTE
  }

  ghost predicate SameTable(m: Mem, m': Mem, u: nat) {
    u in m.tables ==> u in m'.tables && m'.tables[u] == m.tables[u]
  }

  ghost predicate NoLeaves(m: Mem, root: nat) {
    forall u, i: nat :: IsNode(m, u) && m.role[u].root == root && m.role[u].level == 0 && i < NPTE ==>
        Entry(m, u, i) == 0
  }

  /** What f became when everything under t was freed. */
  ghost predicate FreedAt(m: Mem, m': Mem, t: nat, f: nat) {
    if Under(m, f, t) then f in m'.role && m'.role[f].Free? else Untouched(m, m', f) && SameTable(m, m', f)
  }

  /** The pages under the first i entries of t. */
  ghost predicate Gone(m: Mem, t: nat, i: nat, f: nat) {
    Under(m, f, t) && f != t && EntryFor(m, f, t) < i
  }

  ghost predicate GoneAt(m: Mem, m': Mem, t: nat, i: nat, f: nat) {
    if Gone(m, t, i, f) then f in m'.role && m'.role[f].Free?
      else Untouched(m, m', f) && (f != t ==> SameTable(m, m', f))
  }

  /** The state of freewalk's loop. */
  ghost predicate Walking(m: Mem, m': Mem, t: nat, i: nat) {
    && Inv(m') && m'.role.Keys == m.role.Keys && IsNode(m', t) && t in m'.tables
    && (forall f :: GoneAt(m, m', t, i, f))
    && (forall j: nat :: j < i && j < NPTE ==> Entry(m', t, j) == 0)
    && (forall j: nat :: i <= j < NPTE ==> Entry(m', t, j) == Entry(m, t, j))
  }

  /** freewalk frees t while the entry above still points at it; it is the caller that clears
      that entry. */
  ghost predicate InvBelow(m: Mem, m': Mem, t: nat)
    requires Inv(m) && IsNode(m, t)
  {
    if m.role[t].level == 2 then Inv(m') else
      var p := m.role[t].parent;
      p in m'.tables && Inv(SetEntry(m', p, m.role[t].prefix % NPTE, 0))
  }

  // ----- One entry of freewalk's loop -----

  /** An entry that is not valid leads to nothing. */
  lemma NothingUnder(m: Mem, t: nat, i: nat, f: nat)
    requires Inv(m) && IsNode(m, t) && i < NPTE && Entry(m, t, i) == 0
    ensures !(Under(m, f, t) && f != t && EntryFor(m, f, t) == i)
  {
    hide FreeListOk, EntriesOk;
    PointerPtes();
    if Under(m, f, t) && f != t {
      assert FrameOk(m, f);
      if !IsChild(m, f, t) {
        assert FrameOk(m, m.role[f].parent);
      }
    }
  }

  /** An entry that is valid leads to its child and what is under that. */
  lemma UnderChild(m: Mem, t: nat, i: nat, c: nat, f: nat)
    requires Inv(m) && IsNode(m, t) && m.role[t].level > 0 && i < NPTE && Entry(m, t, i) == Pte(c, PTE_V)
    ensures Under(m, f, c) <==> (Under(m, f, t) && f != t && EntryFor(m, f, t) == i)
  {
    hide FreeListOk;
    PointerPtes();
    assert EntryOk(m, t, i) && FrameOk(m, t) && FrameOk(m, c);
    Index(m.role[t].prefix, i);
    if IsNode(m, f) {
      assert FrameOk(m, f);
      if m.role[f].level < 2 {
        assert FrameOk(m, m.role[f].parent);
      }
    }
  }

  /** There are no page-table pages two below one that has a parent. */
  lemma ChildrenOnly(m: Mem, c: nat, f: nat)
    requires Inv(m) && IsNode(m, c) && m.role[c].level < 2 && Under(m, f, c)
    ensures f == c || IsChild(m, f, c)
  {
    hide FreeListOk, EntriesOk;
    assert FrameOk(m, f);
    if m.role[f].level < 2 {
      assert FrameOk(m, m.role[f].parent);
    }
  }

  lemma SkipEntry(m: Mem, m': Mem, t: nat, i: nat)
    requires Inv(m) && IsNode(m, t) && i < NPTE && Walking(m, m', t, i) && Entry(m', t, i) == 0
    ensures Walking(m, m', t, i + 1)
  {
    hide Inv, Under, EntryFor, Untouched, SameTable;
    var i' := i + 1;
    forall f ensures GoneAt(m, m', t, i', f) {
      assert GoneAt(m, m', t, i, f);
      NothingUnder(m, t, i, f);
    }
  }

  lemma KeptNode(m: Mem, m': Mem, t: nat, i: nat, f: nat)
    requires Walking(m, m', t, i) && IsNode(m', f)
    ensures IsNode(m, f) && m.role[f] == m'.role[f]
  {
    hide Inv, Under, EntryFor;
    assert GoneAt(m, m', t, i, f);
  }

  /** What is under the next child has not been touched. */
  lemma UnderSame(m: Mem, m': Mem, t: nat, i: nat, c: nat, f: nat)
    requires Inv(m) && IsNode(m, t) && m.role[t].level > 0 && i < NPTE && Walking(m, m', t, i)
             && Entry(m, t, i) == Pte(c, PTE_V)
    ensures Under(m', f, c) <==> Under(m, f, c)
  {
    hide FreeListOk;
    if Under(m', f, c) {
      KeptNode(m, m', t, i, f);
      if m'.role[f].level < 2 && IsChild(m', m'.role[f].parent, c) {
        KeptNode(m, m', t, i, m'.role[f].parent);
      }
    } else if Under(m, f, c) {
      UnderChild(m, t, i, c, f);
      UnderChild(m, t, i, c, c);
      assert GoneAt(m, m', t, i, f) && FrameOk(m, t) && EntryOk(m, t, i);
      PointerPtes();
      ChildrenOnly(m, c, f);
    }
  }

  lemma NextChild(m: Mem, m': Mem, t: nat, i: nat, c: nat, m1: Mem)
    requires Inv(m) && IsNode(m, t) && m.role[t].level > 0 && i < NPTE && Walking(m, m', t, i)
    requires Entry(m', t, i) == Pte(c, PTE_V) && IsChild(m', c, t) && m'.role[c].prefix % NPTE == i
    requires m1.role.Keys == m'.role.Keys && (forall f :: FreedAt(m', m1, c, f)) && InvBelow(m', m1, c)
    ensures t in m1.tables && Walking(m, SetEntry(m1, t, i, 0), t, i + 1)
  {
    hide Inv, Pte, Under, EntryFor;
    var m2, i' := SetEntry(m1, t, i, 0), i + 1;
    KeptNode(m, m', t, i, t);
    UnderChild(m, t, i, c, t);
    UnderSame(m, m', t, i, c, t);
    assert FreedAt(m', m1, c, t) && GoneAt(m, m', t, i, t);
    forall f ensures GoneAt(m, m2, t, i', f) {
      assert GoneAt(m, m', t, i, f) && FreedAt(m', m1, c, f);
      UnderChild(m, t, i, c, f);
      UnderSame(m, m', t, i, c, f);
    }
    forall j: nat | j < NPTE ensures Entry(m2, t, j) == if j < i' then 0 else Entry(m, t, j) {
      assert Entry(m1, t, j) == Entry(m', t, j);
    }
  }

  lemma WalkingNoLeaves(m: Mem, m': Mem, t: nat, i: nat)
    requires Inv(m) && IsNode(m, t) && m.role[t].level > 0 && Walking(m, m', t, i) && NoLeaves(m, m.role[t].root)
    ensures NoLeaves(m', m.role[t].root)
  {
    hide Inv, Under, EntryFor;
    forall u, j: nat | IsNode(m', u) && m'.role[u].root == m.role[t].root && m'.role[u].level == 0 && j < NPTE
      ensures Entry(m', u, j) == 0
    {
      KeptNode(m, m', t, i, u);
      KeptNode(m, m', t, i, t);
      NodeHasTable(m, u);
      assert GoneAt(m, m', t, i, u);
      assert Entry(m, u, j) == 0;
    }
  }

  // ----- Freeing t itself -----

  lemma FreedInner(m: Mem, t: nat)
    requires Inv(m) && IsNode(m, t) && m.role[t].level < 2 && forall j: nat :: j < NPTE ==> Entry(m, t, j) == 0
    ensures InvBelow(m, Given(m, t), t)
  {
    hide FreeListOk;
    var p, i := m.role[t].parent, m.role[t].prefix % NPTE;
    assert FrameOk(m, t) && FrameOk(m, p);
    PrunedKeeps(m, p, i, t);
    GivenKeeps(Pruned(m, p, i, t), t);
    assert SetEntry(Given(m, t), p, i, 0) == Given(Pruned(m, p, i, t), t);
  }

  lemma FreedRoot(m: Mem, t: nat)
    requires Inv(m) && IsRoot(m, t) && forall j: nat :: j < NPTE ==> Entry(m, t, j) == 0
    ensures Inv(Given(m, t))
  {
    hide FreeListOk;
    var m' := m.(role := m.role[t := Held]);
    PointerPtes();
    SameFree(m, m');
    forall g ensures FrameOk(m', g) {
      assert FrameOk(m, g);
    }
    forall u, j ensures EntryOk(m', u, j) {
      assert EntryOk(m, u, j);
    }
    GivenKeeps(m', t);
    assert Given(m', t) == Given(m, t);
  }

  lemma FreedAll(m: Mem, m': Mem, t: nat)
    requires Inv(m) && IsNode(m, t) && Walking(m, m', t, NPTE)
    ensures InvBelow(m, Given(m', t), t) && forall f :: FreedAt(m, Given(m', t), t, f)
  {
    hide Inv;
    KeptNode(m, m', t, NPTE, t);
    NodeHasTable(m', t);
    LevelBound(m, t);
    if m.role[t].level == 2 {
      FreedRoot(m', t);
    } else {
      FreedInner(m', t);
    }
    forall f ensures FreedAt(m, Given(m', t), t, f) {
      assert GoneAt(m, m', t, NPTE, f);
    }
  }

  lemma LevelBound(m: Mem, t: nat)
    requires Inv(m) && IsNode(m, t)
    ensures m.role[t].level <= 2 && (m.role[t].level == 2 ==> IsRoot(m, t))
  {
    assert FrameOk(m, t);
  }

  lemma WalkingStart(m: Mem, t: nat)
    requires Inv(m) && IsNode(m, t)
    ensures Walking(m, m, t, 0)
  {
    hide Inv, Under, EntryFor;
    NodeHasTable(m, t);
  }

  lemma ChildOf(m: Mem, t: nat, i: nat)
    requires Inv(m) && IsNode(m, t) && i < NPTE && IsValid(Entry(m, t, i)) && !IsLeaf(Entry(m, t, i))
    ensures var c := FrameOf(Entry(m, t, i));
            && m.role[t].level > 0 && Entry(m, t, i) == Pte(c, PTE_V) && IsChild(m, c, t)
              && m.role[c].prefix % NPTE == i
            && m.role[c].level == m.role[t].level - 1 && m.role[c].root == m.role[t].root
  {
    hide FreeListOk;
    assert EntryOk(m, t, i) && FrameOk(m, t);
    Index(m.role[t].prefix, i);
  }

  /** With no leaves mapped, an entry that does not lead on is zero. */
  lemma NotALeaf(m: Mem, m': Mem, t: nat, i: nat)
    requires Walking(m, m', t, i) && i < NPTE && IsNode(m, t) && NoLeaves(m, m.role[t].root)
    requires !(IsValid(Entry(m', t, i)) && !IsLeaf(Entry(m', t, i)))
    ensures Entry(m', t, i) == 0
  {
    hide FreeListOk, FramesOk, GoneAt, Pte, FrameOf, Flags;
    KeptNode(m, m', t, i, t);
    PointerPtes();
    assert EntryOk(m', t, i) && Entry(m', t, i) == Entry(m, t, i);
  }

  method Freewalk(m: Mem, t: nat) returns (m': Mem)
    requires Inv(m) && IsNode(m, t) && NoLeaves(m, m.role[t].root)
    ensures m'.role.Keys == m.role.Keys && InvBelow(m, m', t) && forall f :: FreedAt(m, m', t, f)
    decreases m.role[t].level
  {
    hide Inv, Under, EntryFor, Untouched, SameTable, InvBelow, FreedAt, GoneAt;
    m' := m;
    WalkingStart(m, t);
    for i := 0 to NPTE
      invariant Walking(m, m', t, i)
    {
      KeptNode(m, m', t, i, t);
      var pte := m'.tables[t][i];
      if IsValid(pte) && !IsLeaf(pte) {
        ChildOf(m', t, i);
        WalkingNoLeaves(m, m', t, i);
        var m1 := Freewalk(m', FrameOf(pte));
        NextChild(m, m', t, i, FrameOf(pte), m1);
        m' := SetEntry(m1, t, i, 0);
      } else {
        // A valid entry here is a leaf, which the source panics on.
        NotALeaf(m, m', t, i);
        SkipEntry(m, m', t, i);
      }
    }
    FreedAll(m, m', t);
    m' := Given(m', t);
  }

  // ----- Freeing an address space -----

  ghost predicate Mine(m: Mem, f: nat, root: nat) {
    f in m.role && (m.role[f].Node? || m.role[f].User?) && m.role[f].root == root
  }

  ghost predicate ReclaimedAt(m: Mem, m': Mem, root: nat, f: nat) {
    if Mine(m, f, root) then f in m'.role && m'.role[f].Free? else Untouched(m, m', f)
  }

  /** Every frame of `root` is free, and nothing happened to any other. */
  ghost predicate Reclaimed(m: Mem, m': Mem, root: nat) {
    m'.role.Keys == m.role.Keys && forall f :: ReclaimedAt(m, m', root, f)
  }

  /** The other address spaces map as they did. */
  ghost predicate OthersStay(m: Mem, m': Mem, root: nat) {
    && (forall r :: IsRoot(m, r) && r != root ==> IsRoot(m', r))
    && forall r: nat, v: nat :: IsRoot(m, r) && r != root && v < MAXVPN ==> Lookup(m', r, v) == Lookup(m, r, v)
  }

  /** The page-table pages of `root` are those under it. */
  lemma NodesUnder(m: Mem, f: nat, root: nat)
    requires Inv(m)
    ensures IsRoot(m, root) ==> (Under(m, f, root) <==> IsNode(m, f) && m.role[f].root == root)
    ensures !IsRoot(m, root) ==> !Mine(m, f, root)
  {
    hide FreeListOk, EntriesOk, Lookup;
    assert FrameOk(m, f);
    if IsNode(m, f) && m.role[f].level < 2 {
      var p := m.role[f].parent;
      assert FrameOk(m, p);
      if m.role[p].level < 2 {
        assert FrameOk(m, m.role[p].parent);
      }
    }
    if f in m.role && m.role[f].User? {
      OwnerLooksUp(m, f);
    }
  }

  lemma FreedOthers(m: Mem, m': Mem, root: nat)
    requires Inv(m) && Inv(m') && IsRoot(m, root) && m'.role.Keys == m.role.Keys && forall f :: FreedAt(m, m', root, f)
    ensures OthersStay(m, m', root)
  {
    hide Inv, Under, Lookup;
    forall r | IsRoot(m, r) && r != root ensures IsRoot(m', r) {
      assert FreedAt(m, m', root, r);
      NodesUnder(m, r, root);
    }
    forall r: nat, v: nat | IsRoot(m, r) && r != root && v < MAXVPN ensures Lookup(m', r, v) == Lookup(m, r, v) {
      forall t | Covers(m, t, r, v) || Covers(m', t, r, v)
        ensures Covers(m, t, r, v) && Covers(m', t, r, v) && Entry(m', t, v % NPTE) == Entry(m, t, v % NPTE)
      {
        assert FreedAt(m, m', root, t);
        NodesUnder(m, t, root);
        if IsNode(m, t) {
          NodeHasTable(m, t);
        }
      }
      SameLookup(m, m', r, v);
    }
  }

  lemma UnmappedHasNoLeaves(m: Mem, root: nat)
    requires Inv(m) && forall v: nat :: v < MAXVPN ==> Lookup(m, root, v) == 0
    ensures NoLeaves(m, root)
  {
    hide FreeListOk, EntriesOk, Lookup, LastTable;
    forall u, i: nat | IsNode(m, u) && m.role[u].root == root && m.role[u].level == 0
      && i < NPTE ensures Entry(m, u, i) == 0 {
      assert FrameOk(m, u);
      Index(m.role[u].prefix, i);
      CoverWalks(m, u, root, m.role[u].prefix * NPTE + i);
    }
  }

  lemma FreedReclaims(m0: Mem, m: Mem, m': Mem, root: nat, n: nat)
    requires Inv(m0) && Inv(m) && IsRoot(m0, root) && IsRoot(m, root) && Shrank(m0, m, root, 0, n, Free) && n <= USERTOP
    requires forall v: nat :: n <= v < MAXVPN ==> Lookup(m0, root, v) == 0
    requires m'.role.Keys == m.role.Keys && forall f :: FreedAt(m, m', root, f)
    ensures Reclaimed(m0, m', root)
  {
    hide Inv, Under, Lookup;
    var zero := 0;
    forall f ensures ReclaimedAt(m0, m', root, f) {
      assert ShrankAt(m0, m, root, zero, n, Free, f) && FreedAt(m, m', root, f);
      NodesUnder(m, f, root);
      if f in m0.role && m0.role[f].User? {
        OwnerLooksUp(m0, f);
      }
    }
  }

  /** Returns every frame of the address space to the free list, once. */
  method Uvmfree(m: Mem, root: nat, sz: nat) returns (m': Mem)
    requires Inv(m) && IsRoot(m, root) && Pages(sz) <= USERTOP
    requires forall v: nat :: v < MAXVPN ==> (Lookup(m, root, v) != 0 <==> v < Pages(sz))
    ensures Inv(m') && Reclaimed(m, m', root) && OthersStay(m, m', root)
  {
    hide Inv, Lookup, Under, FreedAt, ShrankAt;
    m' := m;
    ShrankNothing(m, root);
    if sz > 0 {
      m' := Uvmunmap(m, root, 0, Pages(sz), true);
    }
    UnmappedHasNoLeaves(m', root);
    ghost var m1 := m';
    m' := Freewalk(m', root);
    FreedOthers(m1, m', root);
    FreedReclaims(m, m1, m', root, Pages(sz));
  }

  lemma ShrankNothing(m: Mem, root: nat)
    ensures Shrank(m, m, root, 0, 0, Free)
  {
  }
}
