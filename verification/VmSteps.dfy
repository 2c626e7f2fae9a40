/** The single writes that the virtual-memory code makes, and what each keeps. */
module VmSteps {
  import opened VmModel

  /** kalloc with a non-empty free list, filling the frame with junk. */
  function Taken(m: Mem): Mem
    requires m.free != []
  {
    var f := m.free[0];
    m.(free := m.free[1..], role := m.role[f := Held], data := m.data[f := FilledPage(5)])
  }

  /** kfree, filling the frame with junk. */
  function Given(m: Mem, f: nat): Mem {
    m.(free := [f] + m.free, role := m.role[f := Free], data := m.data[f := FilledPage(1)])
  }

  function SetEntry(m: Mem, t: nat, i: nat, pte: nat): Mem
    requires t in m.tables && i < NPTE
  {
    m.(tables := m.tables[t := m.tables[t][i := pte]])
  }

  /** A zeroed frame f becomes the page-table page that entry i of t points at. */
  function Grown(m: Mem, t: nat, i: nat, f: nat): Mem
    requires IsNode(m, t) && m.role[t].level > 0 && t in m.tables && i < NPTE
  {
    var r := m.role[t];
    SetEntry(m.(tables := m.tables[f := ZeroTable()],
        role := m.role[f := Node(r.root, r.level - 1, r.prefix * NPTE + i, t)]),
             t, i, Pte(f, PTE_V))
  }

  /** The page that entry i of the level-0 page t is for. */
  function PageOf(m: Mem, t: nat, i: nat): nat
    requires IsNode(m, t)
  {
    m.role[t].prefix * NPTE + i
  }

  /** Entry i of the level-0 page t maps frame f. */
  function Mapped(m: Mem, t: nat, i: nat, f: nat, flags: nat): Mem
    requires IsNode(m, t) && t in m.tables && i < NPTE
  {
    var role := if PageOf(m, t, i) < USERTOP then m.role[f := User(m.role[t].root, PageOf(m, t, i), t)] else m.role;
    SetEntry(m, t, i, Pte(f, flags)).(role := role)
  }

  /** Entry i of the level-0 page t is cleared; a user frame it mapped is nobody's. */
  function Unmapped(m: Mem, t: nat, i: nat): Mem
    requires IsNode(m, t) && t in m.tables && i < NPTE
  {
    var role := if PageOf(m, t, i) < USERTOP then m.role[FrameOf(Entry(m, t, i)) := Held] else m.role;
    SetEntry(m, t, i, 0).(role := role)
  }

  /** Entry i of t, which points at the page-table page c, is cleared. */
  function Pruned(m: Mem, t: nat, i: nat, c: nat): Mem
    requires t in m.tables && i < NPTE
  {
    SetEntry(m, t, i, 0).(role := m.role[c := Held])
  }

  lemma Index(p: nat, i: nat)
    requires i < NPTE
    ensures (p * NPTE + i) / NPTE == p && (p * NPTE + i) % NPTE == i
  {
  }

  // ----- kalloc and kfree -----

  lemma TakenKeeps(m: Mem)
    requires Inv(m) && m.free != []
    ensures Inv(Taken(m)) && m.free[0] in m.role && m.role[m.free[0]].Free?
  {
    var m' := Taken(m);
    assert m.free[0] in m.free;
    assert FreeListOk(m');
    ReusedKeeps(m, m', m.free[0], Held);
  }

  lemma GivenKeeps(m: Mem, f: nat)
    requires Inv(m) && f in m.role && m.role[f].Held?
    ensures Inv(Given(m, f))
  {
    assert FreeListOk(Given(m, f));
    ReusedKeeps(m, Given(m, f), f, Free);
  }

  /** A frame in no table moves between the free list and other hands. */
  lemma ReusedKeeps(m: Mem, m': Mem, f: nat, r: Role)
    requires FramesOk(m) && EntriesOk(m) && m'.tables == m.tables && m'.role == m.role[f := r]
    requires f in m.role && !m.role[f].Node? && !m.role[f].User? && !r.Node? && !r.User?
    requires forall g :: g in m.data ==> g in m'.data
    ensures FramesOk(m') && EntriesOk(m')
  {
    forall g ensures FrameOk(m', g) {
      assert FrameOk(m, g);
    }
    forall t, i ensures EntryOk(m', t, i) {
      assert EntryOk(m, t, i);
    }
  }

  lemma SameFree(m: Mem, m': Mem)
    requires FreeListOk(m) && m'.free == m.free
             && forall f :: (f in m.role && m.role[f].Free?) <==> (f in m'.role && m'.role[f].Free?)
    ensures FreeListOk(m')
  {
  }

  // ----- A new page-table page -----

  lemma GrownKeeps(m: Mem, t: nat, i: nat, f: nat)
    requires Inv(m) && IsNode(m, t) && m.role[t].level > 0 && t in m.tables && i < NPTE && Entry(m, t, i) == 0
    requires f != 0 && f in m.role && m.role[f].Held? && m.role[t].prefix * NPTE + i < Width(m.role[t].level - 1)
    ensures Inv(Grown(m, t, i, f))
  {
    hide FreeListOk, FrameOk, Pte, FrameOf, Flags;
    PointerPtes();
    var m' := Grown(m, t, i, f);
    SameFree(m, m');
    GrownFrames(m, t, i, f);
    PteParts(f, PTE_V);
    forall u, j ensures EntryOk(m', u, j) {
      assert EntryOk(m, u, j);
    }
  }

  lemma GrownFrames(m: Mem, t: nat, i: nat, f: nat)
    requires Inv(m) && IsNode(m, t) && m.role[t].level > 0 && t in m.tables && i < NPTE && Entry(m, t, i) == 0
    requires f != 0 && f in m.role && m.role[f].Held? && m.role[t].prefix * NPTE + i < Width(m.role[t].level - 1)
    ensures FramesOk(Grown(m, t, i, f))
  {
    hide FreeListOk, EntriesOk, Pte;
    PointerPtes();
    var m' := Grown(m, t, i, f);
    Index(m.role[t].prefix, i);
    assert FrameOk(m, t);
    forall g ensures FrameOk(m', g) {
      assert FrameOk(m, g);
    }
  }

  // ----- Mapping and unmapping a page -----

  lemma MappedKeeps(m: Mem, t: nat, i: nat, f: nat, flags: nat)
    requires Inv(m) && IsNode(m, t) && m.role[t].level == 0 && t in m.tables && i < NPTE && Entry(m, t, i) == 0
    requires flags < 1024 && IsValid(flags) && IsLeaf(flags)
    requires if PageOf(m, t, i) < USERTOP then f in m.role && m.role[f].Held? && f in m.data else !IsUser(flags)
    ensures Inv(Mapped(m, t, i, f, flags))
  {
    hide FreeListOk, FrameOk, Pte, FrameOf, Flags;
    PointerPtes();
    var m' := Mapped(m, t, i, f, flags);
    SameFree(m, m');
    MappedFrames(m, t, i, f, flags);
    PteParts(f, flags);
    forall u, j ensures EntryOk(m', u, j) {
      assert EntryOk(m, u, j);
    }
  }

  lemma MappedFrames(m: Mem, t: nat, i: nat, f: nat, flags: nat)
    requires Inv(m) && IsNode(m, t) && m.role[t].level == 0 && t in m.tables && i < NPTE && Entry(m, t, i) == 0
    requires flags < 1024 && IsValid(flags)
    requires PageOf(m, t, i) < USERTOP ==> f in m.role && m.role[f].Held? && f in m.data
    ensures FramesOk(Mapped(m, t, i, f, flags))
  {
    hide FreeListOk, EntriesOk, Pte, FrameOf, Flags;
    PointerPtes();
    var m' := Mapped(m, t, i, f, flags);
    PteParts(f, flags);
    Index(m.role[t].prefix, i);
    forall g ensures FrameOk(m', g) {
      assert FrameOk(m, g);
    }
  }

  lemma UnmappedKeeps(m: Mem, t: nat, i: nat)
    requires Inv(m) && IsNode(m, t) && m.role[t].level == 0 && t in m.tables && i < NPTE && IsValid(Entry(m, t, i))
    ensures Inv(Unmapped(m, t, i))
  {
    hide FreeListOk, Pte, FrameOf, Flags;
    PointerPtes();
    var m' := Unmapped(m, t, i);
    assert EntryOk(m, t, i);
    SameFree(m, m');
    Index(m.role[t].prefix, i);
    forall g ensures FrameOk(m', g) {
      assert FrameOk(m, g);
    }
    forall u, j ensures EntryOk(m', u, j) {
      assert EntryOk(m, u, j);
    }
  }

  // ----- Detaching an empty page-table page -----

  lemma PrunedKeeps(m: Mem, t: nat, i: nat, c: nat)
    requires Inv(m) && IsNode(m, t) && m.role[t].level > 0 && t in m.tables && i < NPTE
             && Entry(m, t, i) == Pte(c, PTE_V)
    requires forall j :: 0 <= j < NPTE ==> Entry(m, c, j) == 0
    ensures Inv(Pruned(m, t, i, c))
  {
    hide FreeListOk, Pte, FrameOf, Flags;
    PointerPtes();
    var m' := Pruned(m, t, i, c);
    PteParts(c, PTE_V);
    assert EntryOk(m, t, i);
    SameFree(m, m');
    Index(m.role[t].prefix, i);
    forall g ensures FrameOk(m', g) {
      assert FrameOk(m, g);
    }
    forall u, j ensures EntryOk(m', u, j) {
      assert EntryOk(m, u, j);
    }
  }

  // ----- How the steps show in the address spaces -----

  /** Two memories whose page-table pages for a page agree on its entry map it alike. */
  lemma SameLookup(m: Mem, m': Mem, root: nat, vpn: nat)
    requires Inv(m) && Inv(m') && IsRoot(m, root) && IsRoot(m', root) && vpn < MAXVPN
    requires forall t :: Covers(m, t, root, vpn) && Entry(m, t, vpn % NPTE) != 0 ==>
               Covers(m', t, root, vpn) && Entry(m', t, vpn % NPTE) == Entry(m, t, vpn % NPTE)
    requires forall t :: Covers(m', t, root, vpn) && Entry(m', t, vpn % NPTE) != 0 ==>
               Covers(m, t, root, vpn) && Entry(m', t, vpn % NPTE) == Entry(m, t, vpn % NPTE)
    ensures Lookup(m', root, vpn) == Lookup(m, root, vpn)
  {
    hide Inv, LastTable, Covers;
    if Lookup(m, root, vpn) != 0 {
      WalkCovers(m, root, vpn);
      CoverWalks(m', LastTable(m, root, vpn), root, vpn);
    } else if Lookup(m', root, vpn) != 0 {
      WalkCovers(m', root, vpn);
      CoverWalks(m, LastTable(m', root, vpn), root, vpn);
    }
  }

  lemma GrownView(m: Mem, t: nat, i: nat, f: nat)
    requires Inv(m) && IsNode(m, t) && m.role[t].level > 0 && t in m.tables && i < NPTE && Entry(m, t, i) == 0
    requires f in m.role && m.role[f].Held? && Inv(Grown(m, t, i, f))
    ensures SameView(m, Grown(m, t, i, f))
  {
    hide Inv, LastTable, Lookup;
    var m' := Grown(m, t, i, f);
    forall r: nat, v: nat | IsRoot(m, r) && v < MAXVPN ensures Lookup(m', r, v) == Lookup(m, r, v) {
      SameLookup(m, m', r, v);
    }
  }

  lemma MappedView(m: Mem, t: nat, i: nat, f: nat, flags: nat)
    requires Inv(m) && IsNode(m, t) && m.role[t].level == 0 && t in m.tables && i < NPTE
    requires PageOf(m, t, i) < USERTOP ==> f in m.role && m.role[f].Held?
    requires Inv(Mapped(m, t, i, f, flags))
    ensures ViewOutside(m, Mapped(m, t, i, f, flags), m.role[t].root, PageOf(m, t, i), 1)
    ensures IsRoot(Mapped(m, t, i, f, flags), m.role[t].root)
    ensures Lookup(Mapped(m, t, i, f, flags), m.role[t].root, PageOf(m, t, i)) == Pte(f, flags)
  {
    hide Inv, LastTable, Lookup;
    var m', root, page := Mapped(m, t, i, f, flags), m.role[t].root, PageOf(m, t, i);
    Index(m.role[t].prefix, i);
    CoverWalks(m', t, root, page);
    forall r: nat, v: nat | IsRoot(m, r) && v < MAXVPN && !(r == root && page <= v < page + 1)
      ensures Lookup(m', r, v) == Lookup(m, r, v)
    {
      Digits(v);
      SameLookup(m, m', r, v);
    }
  }

  lemma UnmappedView(m: Mem, t: nat, i: nat)
    requires Inv(m) && IsNode(m, t) && m.role[t].level == 0 && t in m.tables && i < NPTE && IsValid(Entry(m, t, i))
    requires Inv(Unmapped(m, t, i))
    ensures ViewOutside(m, Unmapped(m, t, i), m.role[t].root, PageOf(m, t, i), 1)
    ensures IsRoot(Unmapped(m, t, i), m.role[t].root)
    ensures Lookup(Unmapped(m, t, i), m.role[t].root, PageOf(m, t, i)) == 0
  {
    hide FreeListOk, FramesOk, LastTable, Lookup;
    var m', root, page := Unmapped(m, t, i), m.role[t].root, PageOf(m, t, i);
    assert EntryOk(m, t, i);
    Index(m.role[t].prefix, i);
    CoverWalks(m', t, root, page);
    forall r: nat, v: nat | IsRoot(m, r) && v < MAXVPN && !(r == root && page <= v < page + 1)
      ensures Lookup(m', r, v) == Lookup(m, r, v)
    {
      Digits(v);
      SameLookup(m, m', r, v);
    }
  }
}
