/** The page table of a process: uvmcreate of kernel/vm.c, proc_pagetable and
    proc_freepagetable of kernel/proc.c. */
module VmProc {
  import opened VmModel
  import opened VmSteps
  import opened VmWalk
  import opened VmMap
  import opened VmUser
  import opened VmFree

  const TRAMPOLINE: nat := 0x3F_FFFF_F000
  const TRAPFRAME: nat := 0x3F_FFFF_E000

  /** A zeroed frame becomes a root. */
  function Rooted(m: Mem, f: nat): Mem {
    m.(tables := m.tables[f := ZeroTable()], role := m.role[f := Node(f, 2, 0, 0)])
  }

  lemma RootedKeeps(m: Mem, f: nat)
    requires Inv(m) && f != 0 && f in m.role && m.role[f].Held?
    ensures Inv(Rooted(m, f)) && IsRoot(Rooted(m, f), f) && SameView(m, Rooted(m, f))
    ensures forall v: nat :: v < MAXVPN ==> Lookup(Rooted(m, f), f, v) == 0
  {
    hide FreeListOk, Pte, FrameOf;
    var m' := Rooted(m, f);
    SameFree(m, m');
    forall g ensures FrameOk(m', g) {
      assert FrameOk(m, g);
    }
    forall u, j ensures EntryOk(m', u, j) {
      assert EntryOk(m, u, j);
    }
    forall r: nat, v: nat | IsRoot(m, r) && v < MAXVPN ensures Lookup(m', r, v) == Lookup(m, r, v) {
      SameLookup(m, m', r, v);
    }
  }

  method Uvmcreate(m: Mem) returns (root: nat, m': Mem)
    requires Inv(m)
    ensures Inv(m') && SameView(m, m') && Grew(m, m', root, 0, 0)
    ensures (root == 0 <==> m.free == []) && (root == 0 ==> m' == m) && |m.free| <= |m'.free| + 1
    ensures root != 0 ==> IsRoot(m', root) && !IsRoot(m, root) && forall v: nat :: v < MAXVPN ==>
              Lookup(m', root, v) == 0
  {
    hide Inv, Lookup;
    GrewNothing(m, 0);
    var f, m1 := Kalloc(m);
    if f == 0 {
      return 0, m;
    }
    RootedKeeps(m1, f);
    forall r | IsRoot(m, r) ensures IsRoot(m1, r) {
      assert Untouched(m, m1, r);
    }
    SameTables(m, m1);
    root, m' := f, Rooted(m1, f);
    forall g ensures GrewAt(m, m', root, 0, 0, g) {
      assert g != f ==> Untouched(m, m1, g);
    }
  }

  /** Mapping pages at or above USERTOP uses no frame but page-table pages. */
  lemma AboveGrew(m: Mem, m': Mem, root: nat, f0: nat, n: nat)
    requires Inv(m') && Grew(m, m', root, f0, n)
    requires forall v: nat :: v < USERTOP ==> Lookup(m', root, v) == 0
    ensures Grew(m, m', root, 0, 0)
  {
    hide Inv, Lookup;
    var zero := 0;
    forall f ensures GrewAt(m, m', root, zero, zero, f) {
      assert GrewAt(m, m', root, f0, n, f);
      if f in m'.role && m'.role[f].User? {
        OwnerLooksUp(m', f);
      }
    }
  }

  lemma AboveShrank(m: Mem, m': Mem, root: nat, lo: nat, n: nat, r: Role)
    requires Inv(m) && Shrank(m, m', root, lo, n, r) && lo >= USERTOP
    ensures m'.role.Keys == m.role.Keys && forall f :: Untouched(m, m', f)
  {
    hide Inv, Lookup;
    forall f ensures Untouched(m, m', f) {
      assert ShrankAt(m, m', root, lo, n, r, f);
      if f in m.role && m.role[f].User? {
        OwnerLooksUp(m, f);
      }
    }
  }

  /** A root that was built and then freed leaves every frame as it was. */
  lemma GrewReclaimed(m: Mem, m1: Mem, m2: Mem, m3: Mem, root: nat)
    requires Inv(m) && !IsRoot(m, root) && Grew(m, m1, root, 0, 0)
    requires m2.role.Keys == m1.role.Keys && (forall f :: Untouched(m1, m2, f)) && Reclaimed(m2, m3, root)
    ensures m3.role == m.role && forall f :: Untouched(m, m3, f)
  {
    hide Inv, Lookup;
    var zero := 0;
    forall f ensures Untouched(m, m3, f) {
      assert GrewAt(m, m1, root, zero, zero, f) && Untouched(m1, m2, f) && ReclaimedAt(m2, m3, root, f);
      NodesUnder(m, f, root);
    }
    forall f | f in m.role ensures f in m3.role && m3.role[f] == m.role[f] {
      assert Untouched(m, m3, f);
    }
  }

  /** The address space of a process of size sz: its memory and the two pages on top. */
  ghost predicate HasSpace(m: Mem, root: nat, sz: nat) {
    IsRoot(m, root) && forall v: nat :: v < MAXVPN ==> (Lookup(m, root, v) != 0 <==> v < Pages(sz) || v >= USERTOP)
  }

  /** mappages of one of the two pages on top. */
  method MapTop(m: Mem, root: nat, va: nat, frame: nat, perm: nat) returns (ok: bool, m': Mem)
    requires Inv(m) && IsRoot(m, root) && va in {TRAMPOLINE, TRAPFRAME} && perm < 1024 && IsLeaf(perm) && !IsUser(perm)
    requires Lookup(m, root, va / PGSIZE) == 0 && forall v: nat :: v < USERTOP ==> Lookup(m, root, v) == 0
    ensures Inv(m') && IsRoot(m', root) && Grew(m, m', root, 0, 0)
    ensures if ok then ViewOutside(m, m', root, va / PGSIZE, 1)
            && Lookup(m', root, va / PGSIZE) == Pte(frame, WithV(perm)) && Lookup(m', root, va / PGSIZE) != 0
            else SameView(m, m') && |m.free| < 2
    ensures |m.free| <= |m'.free| + 2
  {
    hide Inv, Lookup, Pte, Grew, IsLeaf, IsUser, WithV, Flags;
    assert frame * PGSIZE / PGSIZE == frame;
    ghost var done;
    ok, done, m' := Mappages(m, root, va, PGSIZE, frame * PGSIZE, perm);
    AboveGrew(m, m', root, frame, done);
    WithVFlags(perm);
    PteParts(frame, WithV(perm));
    ValidIsNonzero(Pte(frame, WithV(perm)));
  }

  method ProcPagetable(m: Mem, trampoline: nat, trapframe: nat) returns (root: nat, m': Mem)
    requires Inv(m)
    ensures Inv(m') && SameView(m, m')
    ensures root != 0 ==> && HasSpace(m', root, 0) && !IsRoot(m, root) && Grew(m, m', root, 0, 0)
                          && Lookup(m', root, TRAMPOLINE / PGSIZE) == Pte(trampoline, PTE_V + PTE_R + PTE_X)
                          && Lookup(m', root, TRAPFRAME / PGSIZE) == Pte(trapframe, PTE_V + PTE_R + PTE_W)
    ensures root == 0 ==> (m'.role == m.role && forall f :: Untouched(m, m', f)) && |m.free| < 5
    ensures root != 0 ==> |m.free| <= |m'.free| + 5
  {
    hide Inv, Lookup, Pte, Grew, Shrank, Reclaimed;
    root, m' := Uvmcreate(m);
    if root == 0 {
      return;
    }
    ghost var m0 := m';
    assert IsLeaf(PTE_R + PTE_X) && !IsUser(PTE_R + PTE_X) && IsLeaf(PTE_R + PTE_W) && !IsUser(PTE_R + PTE_W);
    var ok;
    ok, m' := MapTop(m', root, TRAMPOLINE, trampoline, PTE_R + PTE_X);
    GrewThen(m, m0, m', root, 0, 0);
    if !ok {
      ghost var m1 := m';
      m' := Uvmfree(m', root, 0);
      GrewReclaimed(m, m1, m1, m', root);
      return 0, m';
    }
    ghost var m1 := m';
    ok, m' := MapTop(m', root, TRAPFRAME, trapframe, PTE_R + PTE_W);
    GrewThen(m, m1, m', root, 0, 0);
    if !ok {
      ghost var m2 := m';
      m' := Uvmunmap(m', root, TRAMPOLINE, 1, false);
      ghost var m3 := m';
      AboveShrank(m2, m3, root, TRAMPOLINE / PGSIZE, 1, Held);
      m' := Uvmfree(m', root, 0);
      GrewReclaimed(m, m2, m3, m', root);
      return 0, m';
    }
  }

  /** Everything the process had is free again. */
  method ProcFreepagetable(m: Mem, root: nat, sz: nat) returns (m': Mem)
    requires Inv(m) && HasSpace(m, root, sz) && Pages(sz) <= USERTOP
    ensures Inv(m') && Reclaimed(m, m', root) && OthersStay(m, m', root)
  {
    hide Inv, Lookup, Shrank;
    ghost var v1, v2 := TRAMPOLINE / PGSIZE, TRAPFRAME / PGSIZE;
    var m1 := Uvmunmap(m, root, TRAMPOLINE, 1, false);
    AboveShrank(m, m1, root, v1, 1, Held);
    var m2 := Uvmunmap(m1, root, TRAPFRAME, 1, false);
    AboveShrank(m1, m2, root, v2, 1, Held);
    m' := Uvmfree(m2, root, sz);
    forall f ensures ReclaimedAt(m, m', root, f) {
      assert Untouched(m, m1, f) && Untouched(m1, m2, f) && ReclaimedAt(m2, m', root, f);
    }
  }
}
