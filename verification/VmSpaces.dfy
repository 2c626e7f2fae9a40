/** The address spaces of all processes over one physical memory: what allocproc, fork,
    growproc and freeproc of kernel/proc.c do to memory, for every sequence of them. */
module VmSpaces {
  import opened Basics
  import opened VmModel
  import opened VmSteps
  import opened VmWalk
  import opened VmMap
  import opened VmUser
  import opened VmCopy
  import opened VmFree
  import opened VmProc
  import opened VmAccess

  // ----- Counting frames -----

  /** The first n pages have n frames. */
  ghost function FramesOf(m: Mem, root: nat, n: nat): (s: set<nat>)
    requires Inv(m) && IsRoot(m, root) && n <= USERTOP && forall v: nat :: v < n ==> Lookup(m, root, v) != 0
    ensures |s| == n
            && forall f :: f in s ==> f in m.role && m.role[f].User? && m.role[f].root == root && m.role[f].vpn < n
  {
    if n == 0 then {} else
      LookupOwns(m, root, n - 1);
      FramesOf(m, root, n - 1) + {FrameOf(Lookup(m, root, n - 1))}
  }

  lemma {:induction false} FreeSet(m: Mem, k: nat) returns (s: set<nat>)
    requires Inv(m) && k <= |m.free|
    ensures |s| == k && forall f :: f in s <==> f in m.free[..k]
  {
    hide FramesOk, EntriesOk;
    if k == 0 {
      s := {};
    } else {
      var r := FreeSet(m, k - 1);
      s := r + {m.free[k - 1]};
      assert m.free[..k] == m.free[..k - 1] + [m.free[k - 1]];
      assert m.free[k - 1] !in m.free[..k - 1];
    }
  }

  /** A process cannot have more pages than there are frames that are not free. */
  lemma PagesBound(m: Mem, root: nat, n: nat)
    requires Inv(m) && IsRoot(m, root) && n <= USERTOP && forall v: nat :: v < n ==> Lookup(m, root, v) != 0
    ensures n + |m.free| <= |m.role|
  {
    hide FramesOk, EntriesOk, Lookup;
    var a := FramesOf(m, root, n);
    var b := FreeSet(m, |m.free|);
    assert m.free[..|m.free|] == m.free;
    assert a !! b && a + b <= m.role.Keys;
    SubsetSize(a + b, m.role.Keys);
    assert |a + b| == |a| + |b|;
  }

  lemma {:induction false} SizeBelow(s: set<nat>, n: nat)
    requires n > 0 && forall x :: x in s ==> 0 < x < n
    ensures |s| < n
    decreases n
  {
    if n > 1 {
      SizeBelow(s - {n - 1}, n - 1);
    } else {
      assert s == {};
    }
  }

  // ----- One process at a time -----

  /** Free, or a frame of `root`. */
  ghost predicate Own(m: Mem, f: nat, root: nat) {
    f in m.role && (m.role[f].Free? || Mine(m, f, root))
  }

  ghost predicate OnlyAt(m: Mem, m': Mem, root: nat, f: nat) {
    (Own(m, f, root) && Own(m', f, root)) || Untouched(m, m', f)
  }

  /** Frames moved only between the free list and `root`, and only their data changed. */
  ghost predicate Only(m: Mem, m': Mem, root: nat) {
    m'.role.Keys == m.role.Keys && forall f :: OnlyAt(m, m', root, f)
  }

  lemma ExtendedOnly(m: Mem, m': Mem, root: nat)
    requires Extended(m, m', root)
    ensures Only(m, m', root)
  {
    forall f ensures OnlyAt(m, m', root, f) {
      assert ExtendedAt(m, m', root, f);
    }
  }

  lemma ShrankOnly(m: Mem, m': Mem, root: nat, lo: nat, n: nat)
    requires Shrank(m, m', root, lo, n, Free)
    ensures Only(m, m', root)
  {
    forall f ensures OnlyAt(m, m', root, f) {
      assert ShrankAt(m, m', root, lo, n, Free, f);
    }
  }

  lemma ReclaimedOnly(m: Mem, m': Mem, root: nat)
    requires Reclaimed(m, m', root)
    ensures Only(m, m', root)
  {
    forall f ensures OnlyAt(m, m', root, f) {
      assert ReclaimedAt(m, m', root, f);
    }
  }

  /** Another process keeps its root, its entries and its memory. */
  lemma OnlyOthers(m: Mem, m': Mem, root: nat, r: nat, v: nat)
    requires Inv(m) && Inv(m') && Only(m, m', root) && OthersStay(m, m', root) && r != root
    ensures IsRoot(m, r) <==> IsRoot(m', r)
    ensures IsRoot(m, r) && v < USERTOP && Lookup(m, r, v) != 0 ==>
              Lookup(m', r, v) == Lookup(m, r, v) && PageAt(m', r, v) == PageAt(m, r, v)
  {
    hide Inv, Lookup;
    assert OnlyAt(m, m', root, r);
    if IsRoot(m, r) && v < USERTOP && Lookup(m, r, v) != 0 {
      LookupOwns(m, r, v);
      assert OnlyAt(m, m', root, FrameOf(Lookup(m, r, v)));
    }
  }

  /** Frames in other hands stay there. */
  ghost predicate HeldAre(m: Mem, held: set<nat>) {
    forall f :: f in held <==> f in m.role && m.role[f].Held?
  }

  lemma OnlyHeld(m: Mem, m': Mem, root: nat, held: set<nat>)
    requires Only(m, m', root) && HeldAre(m, held)
    ensures HeldAre(m', held)
  {
    forall f ensures f in held <==> f in m'.role && m'.role[f].Held? {
      assert OnlyAt(m, m', root, f);
    }
  }

  // ----- All processes -----

  /** Every root is the page table of a process, which has exactly the pages of its size. */
  ghost predicate Spaces(m: Mem, size: map<nat, nat>, held: set<nat>) {
    && Inv(m) && |m.role| < USERTOP && HeldAre(m, held)
    && (forall r :: IsRoot(m, r) <==> r in size)
    && (forall r :: r in size ==> Pages(size[r]) <= USERTOP && HasSpace(m, r, size[r]))
  }

  /** A step of one process keeps all others. */
  lemma SpacesStep(m: Mem, m': Mem, size: map<nat, nat>, held: set<nat>, root: nat, size': map<nat, nat>)
    requires Spaces(m, size, held) && Inv(m') && Only(m, m', root) && OthersStay(m, m', root)
    requires root in size' <==> IsRoot(m', root)
    requires root in size' ==> Pages(size'[root]) <= USERTOP && HasSpace(m', root, size'[root])
    requires forall r :: r != root ==> (r in size' <==> r in size) && (r in size ==> size'[r] == size[r])
    ensures Spaces(m', size', held)
  {
    hide Inv, Lookup, Only, HeldAre;
    OnlyHeld(m, m', root, held);
    KeysSize(m, m', root);
    forall r ensures IsRoot(m', r) <==> r in size' {
      if r != root {
        OnlyOthers(m, m', root, r, 0);
      }
    }
  }

  lemma KeysSize(m: Mem, m': Mem, root: nat)
    requires Only(m, m', root)
    ensures |m'.role| == |m.role|
  {
    assert |m.role.Keys| == |m.role| && |m'.role.Keys| == |m'.role|;
  }

  /** When no process is left, every frame that is not in other hands is free: none leaked. */
  lemma NoLeak(m: Mem, held: set<nat>, f: nat)
    requires Spaces(m, map[], held) && f in m.role
    ensures f in m.free <==> f !in held
  {
    hide FramesOk, EntriesOk, Lookup;
    if m.role[f].Node? || m.role[f].User? {
      NodesUnder(m, f, m.role[f].root);
    }
  }

  lemma SameViewOthers(m: Mem, m': Mem, root: nat)
    requires SameView(m, m')
    ensures OthersStay(m, m', root)
  {
    hide Lookup;
  }

  lemma OutsideOthers(m: Mem, m': Mem, root: nat, lo: nat, n: nat)
    requires ViewOutside(m, m', root, lo, n)
    ensures OthersStay(m, m', root)
  {
    hide Lookup;
  }

  lemma GrownSpace(m: Mem, m': Mem, root: nat, sz: nat, sz': nat)
    requires HasSpace(m, root, sz) && Pages(sz) <= Pages(sz') <= USERTOP
             && ViewOutside(m, m', root, Pages(sz), Pages(sz') - Pages(sz))
    requires forall v :: Pages(sz) <= v < Pages(sz') ==> Lookup(m', root, v) != 0
    ensures HasSpace(m', root, sz')
  {
    hide Lookup, Pages;
  }

  lemma ShrunkSpace(m: Mem, m': Mem, root: nat, sz: nat, sz': nat)
    requires HasSpace(m, root, sz) && Pages(sz') <= Pages(sz) <= USERTOP
             && ViewOutside(m, m', root, Pages(sz'), Pages(sz) - Pages(sz'))
    requires forall v :: Pages(sz') <= v < Pages(sz) ==> Lookup(m', root, v) == 0
    ensures HasSpace(m', root, sz')
  {
    hide Lookup, Pages;
  }

  /** The first n pages of `root` are as they were. */
  ghost predicate SamePages(m: Mem, m': Mem, root: nat, n: nat)
    requires Inv(m) && Inv(m') && IsRoot(m, root) && IsRoot(m', root) && n <= USERTOP
  {
    forall v: nat :: v < n ==>
        Lookup(m', root, v) == Lookup(m, root, v) != 0 && PageAt(m', root, v) == PageAt(m, root, v)
  }

  const TWO64: int := 0x1_0000_0000_0000_0000

  // ----- The trapframe of a process -----

  /** Like Only, but for frame tf. */
  ghost predicate OnlyBut(m: Mem, m': Mem, root: nat, tf: nat) {
    m'.role.Keys == m.role.Keys && forall f :: f != tf ==> OnlyAt(m, m', root, f)
  }

  ghost predicate NewlyHeld(m: Mem, m': Mem, f: nat) {
    f in m.role && m.role[f].Free? && f in m'.role && m'.role[f].Held?
  }

  /** Another process keeps its root, its entries and its memory when one gets a trapframe. */
  lemma OthersKept(m: Mem, m': Mem, root: nat, tf: nat, r: nat, v: nat)
    requires Inv(m) && Inv(m') && OnlyBut(m, m', root, tf) && NewlyHeld(m, m', tf) && OthersStay(m, m', root)
             && r != root
    ensures IsRoot(m, r) <==> IsRoot(m', r)
    ensures IsRoot(m, r) && v < USERTOP && Lookup(m, r, v) != 0 ==>
              Lookup(m', r, v) == Lookup(m, r, v) && PageAt(m', r, v) == PageAt(m, r, v)
  {
    hide Inv, Lookup;
    assert r != tf ==> OnlyAt(m, m', root, r);
    if IsRoot(m, r) && v < USERTOP && Lookup(m, r, v) != 0 {
      LookupOwns(m, r, v);
      assert OnlyAt(m, m', root, FrameOf(Lookup(m, r, v)));
    }
  }

  /** What kalloc and kfree of frame f do: nothing to any other frame, nor to a page table. */
  ghost predicate OneFrame(m: Mem, m': Mem, f: nat) {
    && Inv(m) && Inv(m') && f in m.role && m'.role.Keys == m.role.Keys && m'.tables == m.tables
    && (m.role[f].Free? || m.role[f].Held?) && (m'.role[f].Free? || m'.role[f].Held?)
    && forall g :: g != f ==> Untouched(m, m', g)
  }

  /** No frame changed hands, and no page its contents. */
  ghost predicate Unchanged(m: Mem, m': Mem) {
    m'.role == m.role && forall f :: Untouched(m, m', f)
  }

  /** Free frames have become the trapframe tf and page-table pages of `root`. */
  ghost predicate Created(m: Mem, m': Mem, root: nat, tf: nat) {
    && m'.role.Keys == m.role.Keys && tf in m.role && m.role[tf].Free? && m'.role[tf].Held?
    && forall f :: f != tf ==> GrewAt(m, m', root, 0, 0, f)
  }

  /** Every frame of `root` and its trapframe are free, and nothing happened to any other. */
  ghost predicate GaveBack(m: Mem, m': Mem, root: nat, tf: nat) {
    && m'.role.Keys == m.role.Keys && tf in m'.role && m'.role[tf].Free?
    && forall f :: f != tf ==> ReclaimedAt(m, m', root, f)
  }

  lemma OneFrameKeeps(m: Mem, m': Mem, f: nat, size: map<nat, nat>, held: set<nat>)
    requires OneFrame(m, m', f) && Spaces(m, size, held)
    ensures Spaces(m', size, if m'.role[f].Held? then held + {f} else held - {f})
    ensures SameView(m, m') && forall r :: IsRoot(m, r) <==> IsRoot(m', r)
  {
    hide Inv, Lookup;
    assert forall r :: IsRoot(m, r) <==> IsRoot(m', r) by {
      forall r ensures IsRoot(m, r) <==> IsRoot(m', r) { assert r != f ==> Untouched(m, m', r); }
    }
    SameTables(m, m');
    assert |m.role.Keys| == |m.role| && |m'.role.Keys| == |m'.role|;
    var held' := if m'.role[f].Held? then held + {f} else held - {f};
    forall g ensures g in held' <==> g in m'.role && m'.role[g].Held? {
      assert g != f ==> Untouched(m, m', g);
    }
  }

  /** The page below the trampoline maps to the trapframe, without access for user code. */
  ghost predicate HasTrapframe(m: Mem, root: nat, tf: nat) {
    IsRoot(m, root) && Lookup(m, root, TRAPFRAME / PGSIZE) == Pte(tf, PTE_V + PTE_R + PTE_W)
  }

  /** Every process has a trapframe of its own, and nothing else is in other hands. */
  ghost predicate Trapframes(m: Mem, size: map<nat, nat>, trapframe: map<nat, nat>, held: set<nat>) {
    && trapframe.Keys == size.Keys
    && (forall f :: f in held <==> exists r :: r in trapframe && trapframe[r] == f)
    && (forall r, q :: r in trapframe && q in trapframe && r != q ==> trapframe[r] != trapframe[q])
    && (forall r :: r in trapframe ==> HasTrapframe(m, r, trapframe[r]))
  }

  lemma TrapframesStay(m: Mem, m': Mem, size: map<nat, nat>, size': map<nat, nat>, trapframe: map<nat, nat>,
                       held: set<nat>, root: nat)
    requires Trapframes(m, size, trapframe, held) && OthersStay(m, m', root) && size'.Keys == size.Keys
    requires root in trapframe ==> HasTrapframe(m', root, trapframe[root])
    ensures Trapframes(m', size', trapframe, held)
  {
    hide Lookup;
    forall r | r in trapframe ensures HasTrapframe(m', r, trapframe[r]) { assert HasTrapframe(m, r, trapframe[r]); }
  }

  lemma TrapframeAdded(m: Mem, m': Mem, size: map<nat, nat>, size': map<nat, nat>, trapframe: map<nat, nat>,
                       held: set<nat>,
                       root: nat, tf: nat)
    requires Trapframes(m, size, trapframe, held) && OthersStay(m, m', root) && root !in size && tf !in held
    requires HasTrapframe(m', root, tf) && size'.Keys == size.Keys + {root}
    ensures Trapframes(m', size', trapframe[root := tf], held + {tf}) && root !in trapframe
  {
    hide Lookup;
    var t := trapframe[root := tf];
    forall r | r in t ensures HasTrapframe(m', r, t[r]) { assert r != root ==> HasTrapframe(m, r, trapframe[r]); }
    forall f ensures f in held + {tf} <==> exists r :: r in t && t[r] == f {
      if f in held {
        var r :| r in trapframe && trapframe[r] == f;
        assert t[r] == f;
      }
      assert t[root] == tf;
    }
  }

  lemma TrapframeDropped(m: Mem, m': Mem, size: map<nat, nat>, trapframe: map<nat, nat>, held: set<nat>, root: nat)
    requires Trapframes(m, size, trapframe, held) && OthersStay(m, m', root) && root in trapframe
    ensures Trapframes(m', size - {root}, trapframe - {root}, held - {trapframe[root]})
  {
    hide Lookup;
    var t, tf := trapframe - {root}, trapframe[root];
    forall r | r in t ensures HasTrapframe(m', r, t[r]) { assert HasTrapframe(m, r, trapframe[r]); }
    forall f ensures f in held - {tf} <==> exists r :: r in t && t[r] == f {
      if f in held - {tf} {
        var r :| r in trapframe && trapframe[r] == f;
        assert r in t && t[r] == f;
      }
    }
  }

  // ----- What user code may do -----

  /** User code may read and write every page of every process, and execute none. */
  ghost predicate AllUser(m: Mem, size: map<nat, nat>) {
    forall r, v: nat :: r in size && v < Pages(size[r]) ==> UserEntry(Lookup(m, r, v), PTE_W)
  }

  lemma UserStays(m: Mem, m': Mem, size: map<nat, nat>, size': map<nat, nat>, held: set<nat>, root: nat)
    requires Spaces(m, size, held) && AllUser(m, size) && OthersStay(m, m', root)
    requires forall r :: r in size' && r != root ==> r in size && size'[r] == size[r]
    requires root in size' ==> forall v: nat :: v < Pages(size'[root]) ==> UserEntry(Lookup(m', root, v), PTE_W)
    ensures AllUser(m', size')
  {
    hide Inv, Lookup, Pages, HasSpace, UserEntry;
  }

  lemma UserOutside(m: Mem, m': Mem, size: map<nat, nat>, root: nat, lo: nat, n: nat, top: nat)
    requires AllUser(m, size) && root in size && IsRoot(m, root) && ViewOutside(m, m', root, lo, n) && top <= USERTOP
    requires forall v: nat :: v < top ==>
               UserEntry(Lookup(m', root, v), PTE_W) || (v < Pages(size[root]) && !(lo <= v < lo + n))
    ensures forall v: nat :: v < top ==> UserEntry(Lookup(m', root, v), PTE_W)
  {
    hide Lookup, Pages, UserEntry;
    forall v: nat | v < top ensures UserEntry(Lookup(m', root, v), PTE_W) {
      assert v < Pages(size[root]) ==> UserEntry(Lookup(m, root, v), PTE_W);
    }
  }

  lemma UserCopied(m: Mem, m': Mem, size: map<nat, nat>, parent: nat, child: nat)
    requires Inv(m) && IsRoot(m, parent) && Inv(m') && IsRoot(m', child)
    requires AllUser(m, size) && parent in size && Pages(size[parent]) <= USERTOP
    requires forall v: nat :: v < Pages(size[parent]) ==> Copied(m, parent, m', child, v)
    ensures forall v: nat :: v < Pages(size[parent]) ==> UserEntry(Lookup(m', child, v), PTE_W)
  {
    hide Inv, Lookup, Pages, PageAt;
    forall v: nat | v < Pages(size[parent]) ensures UserEntry(Lookup(m', child, v), PTE_W) {
      assert Copied(m, parent, m', child, v) && UserEntry(Lookup(m, parent, v), PTE_W);
    }
  }

  /** Every address below its size is one a process may use. */
  lemma SizeAccessible(m: Mem, size: map<nat, nat>, held: set<nat>, root: nat)
    requires Spaces(m, size, held) && AllUser(m, size) && root in size
    ensures forall a: nat :: a < size[root] ==> Accessible(m, root, a)
  {
    hide Inv, Lookup, HasSpace, HeldAre;
    forall a: nat | a < size[root] ensures Accessible(m, root, a) {
      assert UserEntry(Lookup(m, root, a / PGSIZE), PTE_W);
    }
  }

  class AddressSpaces {
    var mem: Mem
    /** The size of each process, by its page table. */
    var size: map<nat, nat>
    /** The trapframe of each process. */
    var trapframe: map<nat, nat>
    ghost var held: set<nat>

    ghost predicate Valid()
      reads this
    {
      Spaces(mem, size, held) && Trapframes(mem, size, trapframe, held) && AllUser(mem, size)
    }

    /** After boot, with every frame free. */
    constructor (start: nat, end: nat)
      requires 0 < start && end <= USERTOP * PGSIZE
      ensures Valid() && size == map[]
      ensures forall f: nat :: f in mem.role <==> Pages(start) <= f && (f + 1) * PGSIZE <= end
    {
      var m := Freerange(start, end);
      SizeBelow(m.role.Keys, USERTOP);
      mem, size, trapframe, held := m, map[], map[], {};
    }

    /** allocproc: a trapframe and a page table for a process without memory. */
    method Create(trampoline: nat) returns (root: nat)
      requires Valid()
      modifies this
      ensures Valid() && SameView(old(mem), mem)
      ensures root == 0 ==>
                size == old(size) && trapframe == old(trapframe) && Unchanged(old(mem), mem) && |old(mem).free| < 6
      ensures root != 0 ==> root !in old(size) && size == old(size)[root := 0] && root in trapframe
      ensures root != 0 ==> root !in old(trapframe) && trapframe == old(trapframe)[root := trapframe[root]]
      ensures root != 0 ==> Created(old(mem), mem, root, trapframe[root]) && |old(mem).free| <= |mem.free| + 6
    {
      hide Inv, Lookup, Only, Untouched, Grew, HeldAre, Trapframes, AllUser;
      ghost var m := mem;
      var tf, m1 := Kalloc(mem);
      if tf == 0 {
        NothingMoved(m);
        return 0;
      }
      OneFrameKeeps(m, m1, tf, size, held);
      FreeNotHeld(m, held, tf);
      var m2;
      root, m2 := ProcPagetable(m1, trampoline, tf);
      if root == 0 {
        NothingChanged(m1, m2, size, held + {tf});
        mem := Kfree(m2, tf);
        OneFrameKeeps(m2, mem, tf, size, held + {tf});
        assert held + {tf} - {tf} == held;
        TakenBack(m, m1, m2, mem, tf);
        ThreeViews(m, m1, m2, mem);
        SameViewOthers(m, mem, 0);
        NoTrapframe(m, size, trapframe, held);
        HasKeys(m, size, trapframe, held);
        TrapframesStay(m, mem, size, size, trapframe, held, 0);
        UserStays(m, mem, size, size, held, 0);
      } else {
        ThreeViews(m, m1, m2, m2);
        SameViewOthers(m1, m2, root);
        SameViewOthers(m, m2, root);
        GrewExtended(m1, m2, root);
        ExtendedOnly(m1, m2, root);
        SpacesStep(m1, m2, size, held + {tf}, root, size[root := 0]);
        CreatedBoth(m, m1, m2, root, tf);
        TrapframeAdded(m, m2, size, size[root := 0], trapframe, held, root, tf);
        UserStays(m, m2, size, size[root := 0], held, root);
        mem, size, trapframe, held := m2, size[root := 0], trapframe[root := tf], held + {tf};
      }
    }

    /** growproc: n is the signed argument of sbrk, added to a 64-bit size. */
    method Grow(root: nat, n: int) returns (r: int)
      requires Valid() && root in size && -0x8000_0000 <= n < 0x8000_0000
      modifies this
      ensures Valid() && trapframe == old(trapframe) && root in size
      ensures Only(old(mem), mem, root) && OthersStay(old(mem), mem, root)
      ensures size == old(size)[root := size[root]]
      ensures r == -1 ==> n > 0 && SameView(old(mem), mem) && size == old(size)
      ensures r == -1 ==> |old(mem).free| < 3 * (Pages(size[root] + n) - Pages(size[root]))
      ensures r == 0 && n > 0 ==> size[root] == old(size)[root] + n && KeepsPages(old(mem), mem)
      ensures r == 0 && n > 0 ==> forall v :: Pages(old(size)[root]) <= v < Pages(size[root]) ==>
                HasPage(mem, root, v, UserPerm(PTE_W), FilledPage(0)) && UserEntry(Lookup(mem, root, v), PTE_W)
      ensures forall a: nat :: a < size[root] ==> Accessible(mem, root, a)
      ensures r == 0 && n <= 0 ==>
                size[root] == if n < 0 && 0 <= old(size)[root] + n then old(size)[root] + n else old(size)[root]
      ensures r == 0 && n <= 0 ==> SamePages(old(mem), mem, root, Pages(size[root]))
      ensures r == 0 || r == -1
    {
      hide Inv, Lookup, Only, Grew, Extended, Shrank, PageAt, Pages, HasPage, HeldAre, KeepsPages, Trapframes,
        AllUser, UserEntry, Accessible, ViewOutside, SameView, OthersStay;
      ghost var m := mem;
      var sz := size[root];
      PagesBound(m, root, Pages(sz));
      if n > 0 {
        ghost var ok;
        sz, ok, mem := Uvmalloc(mem, root, sz, sz + n, PTE_W);
        if sz == 0 {
          GrewExtended(m, mem, root);
          ExtendedOnly(m, mem, root);
          SameSpaces(m, mem, size, trapframe, held, root);
          return -1;
        }
        ExtendedOnly(m, mem, root);
        GrownSpaces(m, mem, size, trapframe, held, root, sz);
      } else if n < 0 {
        var newsz := if sz + n < 0 then sz + n + TWO64 else sz + n;
        PagesUp(newsz, sz);
        sz, mem := Uvmdealloc(mem, root, sz, newsz);
        ShrunkSpaces(m, mem, size, trapframe, held, root, newsz);
      } else {
        UntouchedOnly(m, mem, root);
        NothingMoved(m);
        SameSpaces(m, mem, size, trapframe, held, root);
        assert size[root := sz] == size;
      }
      size := size[root := sz];
      return 0;
    }

    /** The memory of `parent` into a process that has none: all of it, or nothing. */
    method CopyMemory(parent: nat, child: nat) returns (ok: bool)
      requires Valid() && parent in size && child in size && size[child] == 0
      modifies this
      ensures Valid() && trapframe == old(trapframe) && OthersStay(old(mem), mem, child) && Only(old(mem), mem, child)
      ensures ok ==> size == old(size)[child := old(size)[parent]]
      ensures ok ==> forall v: nat :: v < Pages(old(size)[parent]) ==> Copied(old(mem), parent, mem, child, v)
      ensures !ok ==> size == old(size) && SameView(old(mem), mem) && Grew(old(mem), mem, child, 0, 0)
      ensures !ok ==> |old(mem).free| < 3 * Pages(size[parent])
    {
      hide Inv, Lookup, Only, Grew, Extended, PageAt, Pages, HeldAre, KeepsPages, Copied, Pte, Untouched, SameView,
        ViewOutside, OthersStay, Trapframes, AllUser, UserEntry;
      ghost var m := mem;
      var sz := size[parent];
      BeforeCopy(m, parent, child, sz);
      ok, mem := Uvmcopy(mem, parent, child, sz);
      if ok {
        AfterCopy(m, mem, parent, child, sz);
        SpacesStep(m, mem, size, held, child, size[child := sz]);
        TrapframeKept(m, mem, size, size[child := sz], trapframe, held, child, 0, Pages(sz));
        UserCopied(m, mem, size, parent, child);
        UserStays(m, mem, size, size[child := sz], held, child);
        size := size[child := sz];
      } else {
        SameViewOthers(m, mem, child);
        GrewExtended(m, mem, child);
        ExtendedOnly(m, mem, child);
        EmptySpace(m, mem, child);
        SpacesStep(m, mem, size, held, child, size);
        SameOutside(m, mem, child);
        TrapframeKept(m, mem, size, size, trapframe, held, child, 0, 0);
        PagesUp(0, 0);
        UserStays(m, mem, size, size, held, child);
      }
    }

    /** The memory of fork: a trapframe and a page table for the child and a copy of the parent's
        memory in it, or nothing at all. */
    method Fork(parent: nat, trampoline: nat) returns (child: nat)
      requires Valid() && parent in size
      modifies this
      ensures Valid() && OthersStay(old(mem), mem, child)
      ensures child == 0 ==> size == old(size) && trapframe == old(trapframe) && Unchanged(old(mem), mem)
      ensures child == 0 ==> |old(mem).free| < 6 + 3 * Pages(size[parent])
      ensures child != 0 ==> child !in old(size) && size == old(size)[child := old(size)[parent]] && child in trapframe
      ensures child != 0 ==> trapframe == old(trapframe)[child := trapframe[child]]
      ensures child != 0 ==>
                OnlyBut(old(mem), mem, child, trapframe[child]) && NewlyHeld(old(mem), mem, trapframe[child])
      ensures child != 0 ==> forall v: nat :: v < Pages(old(size)[parent]) ==> Copied(old(mem), parent, mem, child, v)
    {
      hide Inv, Lookup, Only, Grew, PageAt, Pages, HeldAre, Copied, Pte, Untouched, SameView, OthersStay, Trapframes,
        Created, Unchanged, GaveBack, OnlyBut, NewlyHeld, AllUser;
      ghost var m, size0, trapframe0 := mem, size, trapframe;
      PagesUp(0, size[parent]);
      child := Create(trampoline);
      ghost var m1 := mem;
      SameViewOthers(m, m1, child);
      if child == 0 {
        return;
      }
      ghost var tf := trapframe[child];
      var ok := CopyMemory(parent, child);
      ghost var m2 := mem;
      if ok {
        AfterFork(m, m1, m2, parent, child, Pages(size0[parent]), tf);
      } else {
        Free(child);
        ForkUndone(m, m1, m2, mem, child, tf);
        OthersThen(m, m1, m2, mem, child);
        assert size == size0 && trapframe == trapframe0;
        child := 0;
      }
    }

    /** freeproc: the process gives everything back. */
    method Free(root: nat)
      requires Valid() && root in size
      modifies this
      ensures Valid() && root in old(trapframe) && size == old(size) - {root} && trapframe == old(trapframe) - {root}
      ensures GaveBack(old(mem), mem, root, old(trapframe)[root]) && OthersStay(old(mem), mem, root)
    {
      hide Inv, Lookup, Only, Pages, HeldAre, Trapframes, AllUser;
      ghost var m := mem;
      HasKeys(m, size, trapframe, held);
      var tf := trapframe[root];
      TrapframeIsHeld(m, size, trapframe, held, root);
      var m1 := Kfree(mem, tf);
      OneFrameKeeps(m, m1, tf, size, held);
      mem := ProcFreepagetable(m1, root, size[root]);
      ReclaimedOnly(m1, mem, root);
      assert ReclaimedAt(m1, mem, root, root);
      SpacesStep(m1, mem, size, held - {tf}, root, size - {root});
      FreedBoth(m, m1, mem, root, tf);
      TrapframeDropped(m, mem, size, trapframe, held, root);
      UserStays(m, mem, size, size - {root}, held, root);
      size, trapframe, held := size - {root}, trapframe - {root}, held - {tf};
    }

    /** copyout into a process: it succeeds exactly when user code may use every address. */
    method Write(root: nat, va: nat, src: seq<Byte>) returns (ok: bool)
      requires Valid() && root in size
      modifies this`mem
      ensures Valid() && Inv(old(mem)) && IsRoot(mem, root)
      ensures ok <==> forall a :: va <= a < va + |src| ==> Accessible(old(mem), root, a)
      ensures exists done ::
                0 <= done <= |src| && (ok <==> done == |src|) && Wrote(old(mem), mem, root, va, src[..done])
    {
      hide Inv, Lookup, HeldAre, Trapframes, AllUser, Accessible, Wrote, HasSpace;
      ghost var m, done := mem, 0;
      ok, done, mem := Copyout(mem, root, va, src);
      WroteKeeps(m, mem, size, trapframe, held, root, va, src[..done]);
    }

    /** When the last process is gone, every frame is free: none leaked. */
    lemma NoneLeaked(f: nat)
      requires Valid() && size == map[] && f in mem.role
      ensures f in mem.free
    {
      NoLeak(mem, held, f);
    }
  }

  lemma WroteKeeps(m: Mem, m': Mem, size: map<nat, nat>, trapframe: map<nat, nat>, held: set<nat>, root: nat, va: nat,
                   src: seq<Byte>)
    requires Inv(m) && Inv(m') && Wrote(m, m', root, va, src)
    requires Spaces(m, size, held) && Trapframes(m, size, trapframe, held) && AllUser(m, size)
    ensures Spaces(m', size, held) && Trapframes(m', size, trapframe, held) && AllUser(m', size)
  {
    hide Inv, Lookup, ByteAt, UserEntry, Pages, Pte;
    SameTables(m, m');
    NullRoot(m);
    SameViewOthers(m, m', 0);
    TrapframesStay(m, m', size, size, trapframe, held, 0);
    UserStays(m, m', size, size, held, 0);
  }

  /** Memory that sbrk gave can be written at once, and read back. */
  method GrowThenUse(s: AddressSpaces, root: nat, src: seq<Byte>) returns (r: int, ok: bool, dst: seq<Byte>)
    requires s.Valid() && root in s.size && 0 < |src| < 0x8000_0000
    modifies s
    ensures s.Valid() && (r == 0 ==> ok && dst == src)
  {
    hide Inv, Lookup, HeldAre, HasSpace, Trapframes, AllUser, Wrote, Reads, Only, HasPage, KeepsPages, Accessible;
    ok, dst := false, [];
    var va := s.size[root];
    r := s.Grow(root, |src|);
    if r == 0 {
      ghost var m := s.mem;
      ok := s.Write(root, va, src);
      assert src[..|src|] == src;
      ghost var done :| 0 <= done <= |src| && (ok <==> done == |src|) && Wrote(m, s.mem, root, va, src[..done]);
      SizeAccessible(s.mem, s.size, s.held, root);
      var read;
      read, dst := Copyin(s.mem, root, va, |src|);
      WroteReads(m, s.mem, root, va, src, dst);
    }
  }

  // ----- The steps of growproc -----

  lemma SameSpaces(m: Mem, m': Mem, size: map<nat, nat>, trapframe: map<nat, nat>, held: set<nat>, root: nat)
    requires Spaces(m, size, held) && Trapframes(m, size, trapframe, held) && AllUser(m, size) && root in size
    requires Inv(m') && Only(m, m', root) && SameView(m, m')
    ensures Spaces(m', size, held) && Trapframes(m', size, trapframe, held) && AllUser(m', size)
    ensures OthersStay(m, m', root) && forall a: nat :: a < size[root] ==> Accessible(m', root, a)
  {
    hide Inv, Lookup, Only, HeldAre, Trapframes, AllUser, UserEntry, Accessible, Pages;
    SameViewOthers(m, m', root);
    SpacesStep(m, m', size, held, root, size);
    TrapframeKept(m, m', size, size, trapframe, held, root, 0, 0);
    UserOutside(m, m', size, root, 0, 0, Pages(size[root]));
    UserStays(m, m', size, size, held, root);
    SizeAccessible(m', size, held, root);
  }

  lemma GrownSpaces(m: Mem, m': Mem, size: map<nat, nat>, trapframe: map<nat, nat>, held: set<nat>, root: nat, sz: nat)
    requires Spaces(m, size, held) && Trapframes(m, size, trapframe, held) && AllUser(m, size) && root in size
    requires Inv(m') && Only(m, m', root) && Pages(size[root]) <= Pages(sz) <= USERTOP && IsRoot(m', root)
    requires ViewOutside(m, m', root, Pages(size[root]), Pages(sz) - Pages(size[root]))
    requires forall v :: Pages(size[root]) <= v < Pages(sz) ==>
               HasPage(m', root, v, UserPerm(PTE_W), FilledPage(0)) && UserEntry(Lookup(m', root, v), PTE_W)
    ensures var size' := size[root := sz];
            Spaces(m', size', held) && Trapframes(m', size', trapframe, held) && AllUser(m', size')
    ensures OthersStay(m, m', root) && forall a: nat :: a < sz ==> Accessible(m', root, a)
  {
    hide Inv, Lookup, Only, HeldAre, Trapframes, AllUser, UserEntry, Accessible, Pages, HasPage;
    var lo, n := Pages(size[root]), Pages(sz) - Pages(size[root]);
    OutsideOthers(m, m', root, lo, n);
    PagesThere(m', root, lo, Pages(sz), UserPerm(PTE_W), FilledPage(0));
    GrownSpace(m, m', root, size[root], sz);
    SpacesStep(m, m', size, held, root, size[root := sz]);
    TrapframeKept(m, m', size, size[root := sz], trapframe, held, root, lo, n);
    UserOutside(m, m', size, root, lo, n, Pages(sz));
    UserStays(m, m', size, size[root := sz], held, root);
    SizeAccessible(m', size[root := sz], held, root);
  }

  lemma ShrunkSpaces(m: Mem, m': Mem, size: map<nat, nat>, trapframe: map<nat, nat>, held: set<nat>, root: nat,
                     newsz: nat)
    requires Spaces(m, size, held) && Trapframes(m, size, trapframe, held) && AllUser(m, size) && root in size
    requires Inv(m')
    requires var n := if Pages(newsz) < Pages(size[root]) then Pages(size[root]) - Pages(newsz) else 0;
             && ViewOutside(m, m', root, Pages(newsz), n) && Shrank(m, m', root, Pages(newsz), n, Free)
             && forall v :: Pages(newsz) <= v < Pages(newsz) + n ==> Lookup(m', root, v) == 0
    ensures var size' := size[root := if newsz < size[root] then newsz else size[root]];
            && Spaces(m', size', held) && Trapframes(m', size', trapframe, held) && AllUser(m', size')
            && SamePages(m, m', root, Pages(size'[root]))
            && forall a: nat :: a < size'[root] ==> Accessible(m', root, a)
    ensures OthersStay(m, m', root) && Only(m, m', root)
  {
    hide Inv, Lookup, Only, HeldAre, Trapframes, AllUser, UserEntry, Accessible, Pages, Shrank;
    var n := if Pages(newsz) < Pages(size[root]) then Pages(size[root]) - Pages(newsz) else 0;
    var sz := if newsz < size[root] then newsz else size[root];
    PagesUp(size[root], newsz);
    PagesUp(newsz, size[root]);
    Dealloced(m, m', root, size[root], newsz);
    SpacesStep(m, m', size, held, root, size[root := sz]);
    TrapframeKept(m, m', size, size[root := sz], trapframe, held, root, Pages(newsz), n);
    UserOutside(m, m', size, root, Pages(newsz), n, Pages(sz));
    UserStays(m, m', size, size[root := sz], held, root);
    SizeAccessible(m', size[root := sz], held, root);
  }

  // ----- The steps of fork -----

  lemma NothingChanged(m: Mem, m': Mem, size: map<nat, nat>, held: set<nat>)
    requires Spaces(m, size, held) && Inv(m') && SameView(m, m') && m'.role == m.role && forall f :: Untouched(m, m', f)
    ensures Spaces(m', size, held) && Only(m, m', 0) && OthersStay(m, m', 0)
  {
    hide Inv, Lookup, Only, HeldAre;
    UntouchedOnly(m, m', 0);
    SameViewOthers(m, m', 0);
    NullRoot(m);
    NullRoot(m');
    SpacesStep(m, m', size, held, 0, size);
  }

  lemma BeforeCopy(m: Mem, parent: nat, child: nat, sz: nat)
    requires HasSpace(m, parent, sz) && Pages(sz) <= USERTOP && HasSpace(m, child, 0)
    ensures forall v: nat :: v < Pages(sz) ==> Lookup(m, parent, v) != 0 && Lookup(m, child, v) == 0
  {
    hide Lookup;
  }

  lemma EmptySpace(m: Mem, m': Mem, root: nat)
    requires SameView(m, m') && HasSpace(m, root, 0)
    ensures HasSpace(m', root, 0)
  {
    hide Lookup, Pages;
  }

  lemma SameOutside(m: Mem, m': Mem, root: nat)
    requires SameView(m, m')
    ensures ViewOutside(m, m', root, 0, 0)
  {
    hide Lookup;
  }

  lemma OthersThen(m: Mem, m1: Mem, m2: Mem, m3: Mem, root: nat)
    requires SameView(m, m1) && SameView(m1, m2) && OthersStay(m2, m3, root) && !IsRoot(m, root)
    ensures OthersStay(m, m3, 0)
  {
    hide Lookup;
  }

  lemma ThreeViews(m: Mem, m1: Mem, m2: Mem, m3: Mem)
    requires SameView(m, m1) && SameView(m1, m2) && SameView(m2, m3)
    ensures SameView(m, m3) && SameView(m, m2)
  {
    hide Lookup;
  }

  /** A child that could not get its memory leaves no trace. */
  lemma ForkUndone(m: Mem, m1: Mem, m2: Mem, m3: Mem, child: nat, tf: nat)
    requires Inv(m) && !IsRoot(m, child) && Created(m, m1, child, tf) && Grew(m1, m2, child, 0, 0)
             && GaveBack(m2, m3, child, tf)
    ensures Unchanged(m, m3)
  {
    hide Inv;
    forall f ensures Untouched(m, m3, f) && (f in m.role <==> f in m3.role) {
      NodesUnder(m, f, child);
      assert GrewAt(m1, m2, child, 0, 0, f);
      if f != tf {
        assert GrewAt(m, m1, child, 0, 0, f) && ReclaimedAt(m2, m3, child, f);
      }
    }
  }

  /** A trapframe that was taken and given back leaves no trace. */
  lemma TakenBack(m: Mem, m1: Mem, m2: Mem, m3: Mem, tf: nat)
    requires OneFrame(m, m1, tf) && m.role[tf].Free? && m3.role.Keys == m2.role.Keys && m2.role == m1.role
    requires (forall f :: Untouched(m1, m2, f)) && OneFrame(m2, m3, tf) && m3.role[tf].Free?
    ensures Unchanged(m, m3)
  {
    hide Inv;
    forall f ensures Untouched(m, m3, f) && (f in m.role <==> f in m3.role) {
      assert f != tf ==> Untouched(m, m1, f) && Untouched(m1, m2, f) && Untouched(m2, m3, f);
    }
  }

  lemma NothingMoved(m: Mem)
    ensures Unchanged(m, m) && SameView(m, m)
  {
  }

  lemma CreatedBoth(m: Mem, m1: Mem, m2: Mem, root: nat, tf: nat)
    requires OneFrame(m, m1, tf) && m.role[tf].Free? && m1.role[tf].Held? && Grew(m1, m2, root, 0, 0)
    ensures Created(m, m2, root, tf)
  {
    hide Inv;
    assert GrewAt(m1, m2, root, 0, 0, tf);
    forall f | f != tf ensures GrewAt(m, m2, root, 0, 0, f) {
      assert Untouched(m, m1, f) && GrewAt(m1, m2, root, 0, 0, f);
    }
  }

  lemma FreedBoth(m: Mem, m1: Mem, m2: Mem, root: nat, tf: nat)
    requires OneFrame(m, m1, tf) && m1.role[tf].Free? && Reclaimed(m1, m2, root) && SameView(m, m1)
             && OthersStay(m1, m2, root)
    ensures GaveBack(m, m2, root, tf) && OthersStay(m, m2, root)
  {
    hide Inv, Lookup;
    assert ReclaimedAt(m1, m2, root, tf);
    forall f | f != tf ensures ReclaimedAt(m, m2, root, f) {
      assert Untouched(m, m1, f) && ReclaimedAt(m1, m2, root, f);
    }
  }

  lemma CreatedKeepsPages(m: Mem, m': Mem, root: nat, tf: nat)
    requires Inv(m) && Inv(m') && Created(m, m', root, tf) && SameView(m, m')
    ensures KeepsPages(m, m')
  {
    hide Inv, Lookup, KeepsPages;
    forall f | f in m.role && m.role[f].User? ensures Untouched(m, m', f) {
      assert f != tf ==> GrewAt(m, m', root, 0, 0, f);
    }
    PagesStay(m, m');
  }

  lemma FreeNotHeld(m: Mem, held: set<nat>, f: nat)
    requires HeldAre(m, held) && f in m.role && m.role[f].Free?
    ensures f !in held
  {
  }

  lemma NoTrapframe(m: Mem, size: map<nat, nat>, trapframe: map<nat, nat>, held: set<nat>)
    requires Inv(m) && Trapframes(m, size, trapframe, held)
    ensures 0 !in trapframe
  {
    NullRoot(m);
    assert 0 in trapframe ==> HasTrapframe(m, 0, trapframe[0]);
  }

  lemma HasKeys(m: Mem, size: map<nat, nat>, trapframe: map<nat, nat>, held: set<nat>)
    requires Trapframes(m, size, trapframe, held)
    ensures trapframe.Keys == size.Keys
  {
  }

  lemma TrapframeIsHeld(m: Mem, size: map<nat, nat>, trapframe: map<nat, nat>, held: set<nat>, root: nat)
    requires Trapframes(m, size, trapframe, held) && HeldAre(m, held) && root in trapframe
    ensures trapframe[root] in m.role && m.role[trapframe[root]].Held?
  {
    assert trapframe[root] in held;
  }

  lemma TrapframeKept(m: Mem, m': Mem, size: map<nat, nat>, size': map<nat, nat>, trapframe: map<nat, nat>,
                      held: set<nat>,
                      root: nat, lo: nat, n: nat)
    requires Trapframes(m, size, trapframe, held) && ViewOutside(m, m', root, lo, n) && size'.Keys == size.Keys
    requires n == 0 || lo + n <= USERTOP
    ensures Trapframes(m', size', trapframe, held)
  {
    hide Lookup, Pte;
    OutsideOthers(m, m', root, lo, n);
    if root in trapframe { assert HasTrapframe(m, root, trapframe[root]); }
    TrapframesStay(m, m', size, size', trapframe, held, root);
  }

  lemma AfterCopy(m: Mem, m': Mem, parent: nat, child: nat, sz: nat)
    requires Inv(m) && Inv(m') && IsRoot(m, parent) && HasSpace(m, child, 0) && Pages(sz) <= USERTOP
    requires Extended(m, m', child) && ViewOutside(m, m', child, 0, Pages(sz)) && IsRoot(m', child)
    requires forall v: nat :: v < Pages(sz) ==> Lookup(m, parent, v) != 0 && Copied(m, parent, m', child, v)
    ensures HasSpace(m', child, sz) && Only(m, m', child) && OthersStay(m, m', child)
  {
    hide Inv, Lookup, Extended, Only, PageAt;
    ExtendedOnly(m, m', child);
    OutsideOthers(m, m', child, 0, Pages(sz));
    forall v: nat | v < Pages(sz) ensures Lookup(m', child, v) != 0 {
      assert Copied(m, parent, m', child, v);
    }
    GrownSpace(m, m', child, 0, sz);
  }

  lemma AfterFork(m: Mem, m1: Mem, m2: Mem, parent: nat, child: nat, n: nat, tf: nat)
    requires Inv(m) && Inv(m1) && Inv(m2) && n <= USERTOP
    requires IsRoot(m, parent) && IsRoot(m1, parent) && IsRoot(m2, child)
    requires SameView(m, m1) && Created(m, m1, child, tf) && Only(m1, m2, child) && OthersStay(m1, m2, child)
    requires forall v: nat :: v < n ==> Lookup(m, parent, v) != 0 && Copied(m1, parent, m2, child, v)
    ensures OnlyBut(m, m2, child, tf) && NewlyHeld(m, m2, tf) && OthersStay(m, m2, child)
    ensures forall v: nat :: v < n ==> Copied(m, parent, m2, child, v)
  {
    hide Inv, Lookup, Only, PageAt, Created, OnlyBut, NewlyHeld;
    CreatedKeepsPages(m, m1, child, tf);
    CreatedThen(m, m1, m2, child, tf);
    CreatedHeld(m, m1, m2, child, tf);
    forall v: nat | v < n ensures Copied(m, parent, m2, child, v) {
      assert Copied(m1, parent, m2, child, v);
    }
  }

  lemma CreatedHeld(m: Mem, m1: Mem, m2: Mem, root: nat, tf: nat)
    requires Created(m, m1, root, tf) && Only(m1, m2, root)
    ensures NewlyHeld(m, m2, tf)
  {
    assert OnlyAt(m1, m2, root, tf);
  }

  lemma CreatedThen(m: Mem, m1: Mem, m2: Mem, root: nat, tf: nat)
    requires Created(m, m1, root, tf) && Only(m1, m2, root)
    ensures OnlyBut(m, m2, root, tf)
  {
    forall f | f != tf ensures OnlyAt(m, m2, root, f) {
      assert GrewAt(m, m1, root, 0, 0, f) && OnlyAt(m1, m2, root, f);
    }
  }

  lemma Dealloced(m: Mem, m': Mem, root: nat, sz: nat, newsz: nat)
    requires Inv(m) && Inv(m') && HasSpace(m, root, sz) && Pages(sz) <= USERTOP
    requires var n := if Pages(newsz) < Pages(sz) then Pages(sz) - Pages(newsz) else 0;
             && ViewOutside(m, m', root, Pages(newsz), n) && Shrank(m, m', root, Pages(newsz), n, Free)
             && forall v :: Pages(newsz) <= v < Pages(newsz) + n ==> Lookup(m', root, v) == 0
    ensures HasSpace(m', root, if newsz < sz then newsz else sz) && Only(m, m', root) && OthersStay(m, m', root)
    ensures IsRoot(m', root) && SamePages(m, m', root, Pages(if newsz < sz then newsz else sz))
  {
    hide Inv, Lookup, Pages, Only;
    PagesUp(newsz, sz);
    PagesUp(sz, newsz);
    var n := if Pages(newsz) < Pages(sz) then Pages(sz) - Pages(newsz) else 0;
    ShrankOnly(m, m', root, Pages(newsz), n);
    OutsideOthers(m, m', root, Pages(newsz), n);
    if newsz < sz {
      ShrunkSpace(m, m', root, sz, newsz);
    }
    forall v: nat | v < Pages(if newsz < sz then newsz else sz)
      ensures Lookup(m', root, v) == Lookup(m, root, v) != 0 && PageAt(m', root, v) == PageAt(m, root, v)
    {
      LookupOwns(m, root, v);
      assert ShrankAt(m, m', root, Pages(newsz), n, Free, FrameOf(Lookup(m, root, v)));
    }
  }

  lemma PagesThere(m: Mem, root: nat, lo: nat, hi: nat, perm: nat, page: Page)
    requires Inv(m) && IsRoot(m, root) && hi <= USERTOP && forall v :: lo <= v < hi ==> HasPage(m, root, v, perm, page)
    ensures forall v :: lo <= v < hi ==> Lookup(m, root, v) != 0
  {
    hide Inv, Lookup;
    forall v | lo <= v < hi ensures Lookup(m, root, v) != 0 {
      assert HasPage(m, root, v, perm, page);
    }
  }

  lemma NullRoot(m: Mem)
    requires Inv(m)
    ensures !IsRoot(m, 0)
  {
  }

  lemma UntouchedOnly(m: Mem, m': Mem, root: nat)
    requires m'.role == m.role && forall f :: Untouched(m, m', f)
    ensures Only(m, m', root)
  {
  }
}
