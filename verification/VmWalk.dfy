/** kalloc, kfree and walk: kernel/kalloc.c and the page-table walk of kernel/vm.c. */
module VmWalk {
  import opened VmModel
  import opened VmSteps

  const MAXVA: nat := 0x40_0000_0000

  /** PX(level, va): nine bits of the address. */
  function PX(level: nat, va: nat): (i: nat)
    requires level <= 2
    ensures i < NPTE
  {
    va / (if level == 0 then 0x1000 else if level == 1 then 0x20_0000 else 0x4000_0000) % NPTE
  }

  lemma PXDigits(va: nat)
    requires va < MAXVA
    ensures PX(2, va) == va / PGSIZE / NPTE / NPTE && PX(1, va) == va / PGSIZE / NPTE % NPTE
            && PX(0, va) == va / PGSIZE % NPTE
    ensures va / PGSIZE < MAXVPN
  {
  }

  lemma NodeHasTable(m: Mem, t: nat)
    requires Inv(m) && IsNode(m, t)
    ensures t in m.tables && t != 0
  {
    assert FrameOk(m, t);
  }

  /** Frame numbers start above zero, so a null result means that memory is exhausted. */
  method Kalloc(m: Mem) returns (f: nat, m': Mem)
    requires Inv(m)
    ensures Inv(m') && m'.role.Keys == m.role.Keys && m'.tables == m.tables
    ensures m.free == [] ==> f == 0 && m' == m
    ensures m.free != [] ==>
              f != 0 && f in m.role && m.role[f].Free? && m'.role[f].Held? && m'.free == m.free[1..] && f in m'.data
    ensures forall g :: g != f ==> Untouched(m, m', g)
  {
    hide FreeListOk, FramesOk, EntriesOk;
    if m.free == [] {
      return 0, m;
    }
    TakenKeeps(m);
    f, m' := m.free[0], Taken(m);
  }

  method Kfree(m: Mem, f: nat) returns (m': Mem)
    requires Inv(m) && f in m.role && m.role[f].Held?
    ensures Inv(m') && m'.role.Keys == m.role.Keys && m'.tables == m.tables && m'.role[f].Free?
            && m'.free == [f] + m.free
    ensures forall g :: g != f ==> Untouched(m, m', g)
  {
    hide Inv;
    GivenKeeps(m, f);
    m' := Given(m, f);
  }

  lemma EntryLeadsOn(m: Mem, t: nat, i: nat)
    requires Inv(m) && IsNode(m, t) && m.role[t].level > 0 && i < NPTE && IsValid(Entry(m, t, i))
    ensures Next(m, t, i) != 0
    ensures var c := Next(m, t, i);
            IsNode(m, c) && m.role[c] == Node(m.role[t].root, m.role[t].level - 1, m.role[t].prefix * NPTE + i, t)
  {
    assert EntryOk(m, t, i);
    assert FrameOk(m, FrameOf(Entry(m, t, i)));
  }

  /** An entry that is not valid is zero. */
  lemma InvalidIsZero(m: Mem, t: nat, i: nat)
    requires Inv(m) && IsNode(m, t) && i < NPTE && !IsValid(Entry(m, t, i))
    ensures Entry(m, t, i) == 0
  {
    assert EntryOk(m, t, i);
  }

  /** The walk's new page-table page: m1 is m after kalloc returned f. */
  lemma Extend(m0: Mem, m: Mem, root: nat, m1: Mem, f: nat, t: nat, i: nat)
    requires Inv(m) && Inv(m1) && SameView(m0, m) && Grew(m0, m, root, 0, 0) && f != 0 && f in m.role && m.role[f].Free?
    requires m1.role.Keys == m.role.Keys && m1.role[f].Held? && m1.tables == m.tables
    requires forall g :: g != f ==> Untouched(m, m1, g)
    requires IsNode(m, t) && m.role[t].level > 0 && t in m.tables && i < NPTE && m.role[t].root == root
    requires !IsValid(Entry(m, t, i)) && m.role[t].prefix * NPTE + i < Width(m.role[t].level - 1)
    ensures t != f && IsNode(m1, t) && m1.role[t] == m.role[t] && t in m1.tables
    ensures var m' := Grown(m1, t, i, f);
            Inv(m') && SameView(m0, m') && Grew(m0, m', root, 0, 0)
  {
    hide Inv, Lookup;
    assert Untouched(m, m1, t);
    InvalidIsZero(m1, t, i);
    GrownKeeps(m1, t, i, f);
    GrownView(m1, t, i, f);
    forall r | IsRoot(m, r) ensures IsRoot(m1, r) {
      assert Untouched(m, m1, r);
    }
    SameTables(m, m1);
    GrownGrew(m0, m, root, m1, f, t, i);
  }

  lemma GrownGrew(m0: Mem, m: Mem, root: nat, m1: Mem, f: nat, t: nat, i: nat)
    requires Inv(m) && Grew(m0, m, root, 0, 0) && f != 0 && f in m.role && m.role[f].Free?
    requires m1.role.Keys == m.role.Keys && m1.role[f].Held? && m1.tables == m.tables
    requires forall g :: g != f ==> Untouched(m, m1, g)
    requires IsNode(m1, t) && m1.role[t].level > 0 && t in m1.tables && i < NPTE && m1.role[t].root == root
    ensures Grew(m0, Grown(m1, t, i, f), root, 0, 0)
  {
    hide Inv;
    var m' := Grown(m1, t, i, f);
    forall g ensures GrewAt(m0, m', root, 0, 0, g) {
      assert g != f ==> Untouched(m, m1, g);
      assert GrewAt(m0, m, root, 0, 0, g) && GrewAt(m0, m, root, 0, 0, f);
    }
  }

  lemma SameTables(m: Mem, m': Mem)
    requires m'.tables == m.tables && RootsStay(m, m')
    ensures SameView(m, m')
  {
  }

  method Walk(m: Mem, root: nat, va: nat, alloc: bool) returns (t: nat, m': Mem)
    requires Inv(m) && IsRoot(m, root) && va < MAXVA
    ensures Inv(m') && SameView(m, m') && Grew(m, m', root, 0, 0)
    ensures t != 0 ==> Covers(m', t, root, va / PGSIZE) && t in m'.tables
    ensures !alloc ==> m' == m && t == LastTable(m, root, va / PGSIZE)
    ensures alloc && t == 0 ==> m'.free == [] && |m.free| < 2
    ensures |m'.free| <= |m.free| <= |m'.free| + 2
  {
    hide Inv, Lookup, PX;
    ghost var vpn := va / PGSIZE;
    PXDigits(va);
    Digits(vpn);
    Digits(vpn / NPTE);
    m', t := m, root;
    var level := 2;
    while level > 0
      invariant 0 <= level <= 2
      invariant Inv(m') && SameView(m, m') && Grew(m, m', root, 0, 0)
      invariant IsNode(m', t) && m'.role[t].root == root && m'.role[t].level == level
      invariant m'.role[t].prefix == if level == 2 then 0 else if level == 1 then vpn / NPTE / NPTE else vpn / NPTE
      invariant |m'.free| <= |m.free| <= |m'.free| + 2 - level && (!alloc ==> m' == m)
      invariant level == 2 ==> t == root
      invariant !alloc && level == 1 ==> t == Next(m, root, vpn / NPTE / NPTE)
      invariant !alloc && level == 0 ==> t == LastTable(m, root, vpn)
    {
      var i := PX(level, va);
      NodeHasTable(m', t);
      var pte := m'.tables[t][i];
      if IsValid(pte) {
        EntryLeadsOn(m', t, i);
        t := FrameOf(pte);
      } else {
        if !alloc {
          return 0, m';
        }
        var f, m1 := Kalloc(m');
        if f == 0 {
          return 0, m';
        }
        Extend(m, m', root, m1, f, t, i);
        m' := Grown(m1, t, i, f);
        t := f;
      }
      level := level - 1;
    }
    NodeHasTable(m', t);
  }
}
