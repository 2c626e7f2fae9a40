/** Sv39 page tables (kernel/vm.c) over the frames of kernel/kalloc.c, as a value.

    A frame is named by its physical page number and a page by its virtual page number. A
    role map records what each frame is used for; the invariant says that it agrees with the
    page-table entries and with the free list, so that no frame has two uses. */
module VmModel {
  const PGSIZE: nat := 4096
  const NPTE: nat := 512
  /** Pages below MAXVA, and pages below TRAPFRAME, which is where user memory ends. */
  const MAXVPN: nat := 0x400_0000
  const USERTOP: nat := 0x3FF_FFFE

  type Byte = b: int | 0 <= b < 256
  type Page = p: seq<Byte> | |p| == PGSIZE witness seq(PGSIZE, _ => 0)
  type Table = t: seq<nat> | |t| == NPTE witness seq(NPTE, _ => 0)

  function ZeroTable(): (t: Table)
    ensures forall i :: 0 <= i < NPTE ==> t[i] == 0
  {
    seq(NPTE, _ => 0)
  }

  function FilledPage(b: Byte): (p: Page)
    ensures forall i :: 0 <= i < PGSIZE ==> p[i] == b
  {
    seq(PGSIZE, _ => b)
  }

  // ----- Page-table entries: the frame above ten bits of flags -----

  const PTE_V: nat := 1
  const PTE_R: nat := 2
  const PTE_W: nat := 4
  const PTE_X: nat := 8
  const PTE_U: nat := 16

  function Pte(frame: nat, flags: nat): nat { frame * 1024 + flags }

  function FrameOf(pte: nat): nat { pte / 1024 }

  function Flags(pte: nat): nat { pte % 1024 }

  predicate IsValid(pte: nat) { Flags(pte) % 2 == 1 }

  /** pte & (PTE_R|PTE_W|PTE_X) */
  predicate IsLeaf(pte: nat) { Flags(pte) / 2 % 8 != 0 }

  predicate IsReadable(pte: nat) { Flags(pte) / 2 % 2 == 1 }

  predicate IsWritable(pte: nat) { Flags(pte) / 4 % 2 == 1 }

  predicate IsExecutable(pte: nat) { Flags(pte) / 8 % 2 == 1 }

  predicate IsUser(pte: nat) { Flags(pte) / 16 % 2 == 1 }

  lemma PteParts(frame: nat, flags: nat)
    requires flags < 1024
    ensures FrameOf(Pte(frame, flags)) == frame && Flags(Pte(frame, flags)) == flags && Flags(flags) == flags
  {
  }

  lemma PointerPtes()
    ensures forall f: nat :: FrameOf(Pte(f, PTE_V)) == f && Flags(Pte(f, PTE_V)) == PTE_V
    ensures Flags(0) == 0
  {
  }

  // ----- Memory -----

  /** What a frame is for: a page-table page of `root` at a level (2 is the top), covering the
      pages whose numbers start with `prefix`; the memory of page `vpn` of `root`, mapped by the
      page-table page `table`; or, when Held, a frame in other hands, such as one just
      returned by kalloc. */
  datatype Role =
    | Free
    | Node(root: nat, level: nat, prefix: nat, parent: nat)
    | User(root: nat, vpn: nat, table: nat)
    | Held

  datatype Mem = Mem(tables: map<nat, Table>, data: map<nat, Page>, free: seq<nat>, role: map<nat, Role>)

  function Entry(m: Mem, t: nat, i: nat): nat {
    if t in m.tables && i < NPTE then m.tables[t][i] else 0
  }

  function Next(m: Mem, t: nat, i: nat): nat {
    if IsValid(Entry(m, t, i)) then FrameOf(Entry(m, t, i)) else 0
  }

  /** The level-0 page-table page for a page, or 0 when the walk stops before it. */
  function LastTable(m: Mem, root: nat, vpn: nat): nat {
    var l1 := Next(m, root, vpn / NPTE / NPTE);
    if l1 == 0 then 0 else Next(m, l1, vpn / NPTE % NPTE)
  }

  /** The entry for a page, zero when there is none. */
  function Lookup(m: Mem, root: nat, vpn: nat): nat {
    var l0 := LastTable(m, root, vpn);
    if l0 == 0 then 0 else Entry(m, l0, vpn % NPTE)
  }

  ghost predicate IsRoot(m: Mem, root: nat) {
    root in m.role && m.role[root] == Node(root, 2, 0, 0)
  }

  // ----- Invariant -----

  ghost predicate FreeListOk(m: Mem) {
    && (forall i, j :: 0 <= i < j < |m.free| ==> m.free[i] != m.free[j])
    && (forall f :: f in m.free <==> f in m.role && m.role[f].Free?)
  }

  /** How many page-table pages of a level it takes to cover the pages below MAXVA. */
  function Width(level: nat): nat {
    if level == 0 then MAXVPN / NPTE else if level == 1 then MAXVPN / NPTE / NPTE else 1
  }

  ghost predicate IsNode(m: Mem, t: nat) {
    t in m.role && m.role[t].Node?
  }

  /** A page-table page other than a root is pointed at by the page above it; a user frame
      holds data and is mapped where its role says. */
  ghost predicate FrameOk(m: Mem, f: nat) {
    f in m.role ==>
      match m.role[f]
      case Free => true
      case Held => true
      case Node(root, level, prefix, parent) =>
        && f != 0 && f in m.tables && level <= 2 && prefix < Width(level)
        && (level == 2 ==> m.role[f] == Node(f, 2, 0, 0))
        && (level < 2 ==>
              && IsNode(m, parent) && m.role[parent].root == root && m.role[parent].level == level + 1
              && m.role[parent].prefix == prefix / NPTE && Entry(m, parent, prefix % NPTE) == Pte(f, PTE_V))
      case User(root, vpn, table) =>
        && f in m.data && vpn < USERTOP
        && IsNode(m, table) && m.role[table].root == root && m.role[table].level == 0
        && m.role[table].prefix == vpn / NPTE
        && IsValid(Entry(m, table, vpn % NPTE)) && FrameOf(Entry(m, table, vpn % NPTE)) == f
  }

  /** An entry is zero or valid. A valid entry above level 0 points at the page-table page below
      it and has no flag but V. One at level 0 is a leaf, which below USERTOP owns its frame and
      only there can be user-accessible. */
  ghost predicate EntryOk(m: Mem, t: nat, i: nat) {
    IsNode(m, t) && i < NPTE && Entry(m, t, i) != 0 ==>
      var r, pte, f := m.role[t], Entry(m, t, i), FrameOf(Entry(m, t, i));
      IsValid(pte) &&
      if r.level > 0 then
        pte == Pte(f, PTE_V) && f in m.role && m.role[f] == Node(r.root, r.level - 1, r.prefix * NPTE + i, t)
      else
        && IsLeaf(pte) && (IsUser(pte) ==> r.prefix * NPTE + i < USERTOP)
        && (r.prefix * NPTE + i < USERTOP ==> f in m.role && m.role[f] == User(r.root, r.prefix * NPTE + i, t))
  }

  ghost predicate FramesOk(m: Mem) {
    forall f :: FrameOk(m, f)
  }

  ghost predicate EntriesOk(m: Mem) {
    forall t, i :: EntryOk(m, t, i)
  }

  ghost predicate Inv(m: Mem) {
    FreeListOk(m) && FramesOk(m) && EntriesOk(m) && 0 !in m.role
  }

  // ----- Walking -----

  lemma NextIsNode(m: Mem, t: nat, i: nat)
    requires Inv(m) && IsNode(m, t) && m.role[t].level > 0 && i < NPTE && Next(m, t, i) != 0
    ensures var c := Next(m, t, i);
            IsNode(m, c) && m.role[c] == Node(m.role[t].root, m.role[t].level - 1, m.role[t].prefix * NPTE + i, t)
  {
    assert EntryOk(m, t, i);
  }

  lemma Digits(vpn: nat)
    ensures vpn == vpn / NPTE * NPTE + vpn % NPTE
    ensures vpn < MAXVPN ==> vpn / NPTE / NPTE < NPTE
    ensures vpn < NPTE ==> vpn / NPTE == 0 && vpn % NPTE == vpn
  {
  }

  /** t is the level-0 page-table page of `root` for the page. */
  ghost predicate Covers(m: Mem, t: nat, root: nat, vpn: nat) {
    IsNode(m, t) && m.role[t].root == root && m.role[t].level == 0 && m.role[t].prefix == vpn / NPTE
  }

  /** A walk that gets to level 0 ends in the page-table page that covers the page. */
  lemma WalkCovers(m: Mem, root: nat, vpn: nat)
    requires Inv(m) && IsRoot(m, root) && vpn < MAXVPN && LastTable(m, root, vpn) != 0
    ensures Covers(m, LastTable(m, root, vpn), root, vpn)
  {
    hide Inv, Next;
    Digits(vpn);
    Digits(vpn / NPTE);
    NextIsNode(m, root, vpn / NPTE / NPTE);
    NextIsNode(m, Next(m, root, vpn / NPTE / NPTE), vpn / NPTE % NPTE);
  }

  /** Conversely, the page-table page that covers a page is where its walk ends. */
  lemma CoverWalks(m: Mem, t: nat, root: nat, vpn: nat)
    requires Inv(m) && Covers(m, t, root, vpn)
    ensures t != 0 && IsRoot(m, root) && LastTable(m, root, vpn) == t && Lookup(m, root, vpn) == Entry(m, t, vpn % NPTE)
  {
    hide FreeListOk, EntriesOk;
    var r := m.role[t];
    assert FrameOk(m, t) && FrameOk(m, r.parent);
    var p := m.role[r.parent];
    assert FrameOk(m, p.parent);
    PteParts(t, PTE_V);
    PteParts(r.parent, PTE_V);
    assert Next(m, r.parent, r.prefix % NPTE) == t;
    assert p.prefix / NPTE == 0;
    Digits(p.prefix);
    assert Next(m, r.root, p.prefix) == r.parent;
  }

  /** A mapped page below USERTOP owns its frame, and no other page has that frame. */
  lemma LookupOwns(m: Mem, root: nat, vpn: nat)
    requires Inv(m) && IsRoot(m, root) && vpn < MAXVPN && Lookup(m, root, vpn) != 0
    ensures IsValid(Lookup(m, root, vpn)) && IsLeaf(Lookup(m, root, vpn))
    ensures IsUser(Lookup(m, root, vpn)) ==> vpn < USERTOP
    ensures var f := FrameOf(Lookup(m, root, vpn));
            vpn < USERTOP ==> f in m.role && f in m.data && m.role[f] == User(root, vpn, LastTable(m, root, vpn))
  {
    hide FreeListOk, LastTable;
    WalkCovers(m, root, vpn);
    Digits(vpn);
    assert EntryOk(m, LastTable(m, root, vpn), vpn % NPTE);
    assert FrameOk(m, FrameOf(Lookup(m, root, vpn)));
  }

  /** A user frame is the one its page maps to. */
  lemma OwnerLooksUp(m: Mem, f: nat)
    requires Inv(m) && f in m.role && m.role[f].User?
    ensures var r := m.role[f];
            && f in m.data && r.vpn < USERTOP && IsRoot(m, r.root)
            && Lookup(m, r.root, r.vpn) != 0 && FrameOf(Lookup(m, r.root, r.vpn)) == f
  {
    hide FreeListOk, EntriesOk, LastTable;
    assert FrameOk(m, f);
    CoverWalks(m, m.role[f].table, m.role[f].root, m.role[f].vpn);
  }

  // ----- How a change shows in the address spaces -----

  ghost predicate RootsStay(m: Mem, m': Mem) {
    forall r :: IsRoot(m, r) ==> IsRoot(m', r)
  }

  /** Every page of every address space maps as before. */
  ghost predicate SameView(m: Mem, m': Mem) {
    RootsStay(m, m') && forall r: nat, v: nat :: IsRoot(m, r) && v < MAXVPN ==> Lookup(m', r, v) == Lookup(m, r, v)
  }

  /** Only pages lo..lo+n of `root` may map differently. */
  ghost predicate ViewOutside(m: Mem, m': Mem, root: nat, lo: nat, n: nat) {
    RootsStay(m, m')
      && forall r: nat, v: nat :: IsRoot(m, r) && v < MAXVPN && !(r == root && lo <= v < lo + n) ==>
          Lookup(m', r, v) == Lookup(m, r, v)
  }

  // ----- How a change shows in the use of frames -----

  /** The frame has the same role and, unless it is free, holds the same data. */
  ghost predicate Untouched(m: Mem, m': Mem, f: nat) {
    f in m.role ==>
      && f in m'.role && m'.role[f] == m.role[f]
      && (f in m.data && !m.role[f].Free? ==> f in m'.data && m'.data[f] == m.data[f])
  }

  /** Free frames may have become page-table pages of `root`, and the n frames from lo, that
      nobody had, pages of `root`. Nothing else happened to a frame. */
  ghost predicate GrewAt(m: Mem, m': Mem, root: nat, lo: nat, n: nat, f: nat) {
    || Untouched(m, m', f)
    || (f in m.role && f in m'.role && m.role[f].Free? && m'.role[f].Node? && m'.role[f].root == root)
    || (&& f in m.role && f in m'.role && lo <= f < lo + n && m.role[f].Held? && m'.role[f].User?
      && m'.role[f].root == root
        && f in m.data && f in m'.data && m'.data[f] == m.data[f])
  }

  ghost predicate Grew(m: Mem, m': Mem, root: nat, lo: nat, n: nat) {
    m'.role.Keys == m.role.Keys && forall f :: GrewAt(m, m', root, lo, n, f)
  }

  /** The frames of pages lo..lo+n of `root` now have the role r. Nothing happened to others. */
  ghost predicate ShrankAt(m: Mem, m': Mem, root: nat, lo: nat, n: nat, r: Role, f: nat) {
    if f in m.role && m.role[f].User? && m.role[f].root == root && lo <= m.role[f].vpn < lo + n then
      f in m'.role && m'.role[f] == r
    else
      Untouched(m, m', f)
  }

  ghost predicate Shrank(m: Mem, m': Mem, root: nat, lo: nat, n: nat, r: Role) {
    m'.role.Keys == m.role.Keys && forall f :: ShrankAt(m, m', root, lo, n, r, f)
  }

  /** Free frames may have become page-table pages and pages of `root`. */
  ghost predicate ExtendedAt(m: Mem, m': Mem, root: nat, f: nat) {
    || Untouched(m, m', f)
    || (f in m.role && f in m'.role && m.role[f].Free? && (m'.role[f].Node? || m'.role[f].User?)
      && m'.role[f].root == root)
  }

  ghost predicate Extended(m: Mem, m': Mem, root: nat) {
    m'.role.Keys == m.role.Keys && forall f :: ExtendedAt(m, m', root, f)
  }

  // ----- What user memory holds -----

  ghost function PageAt(m: Mem, root: nat, v: nat): Page
    requires Inv(m) && IsRoot(m, root) && v < USERTOP && Lookup(m, root, v) != 0
  {
    LookupOwns(m, root, v);
    m.data[FrameOf(Lookup(m, root, v))]
  }

  /** Every mapped page of every address space keeps its entry and its contents. */
  ghost predicate KeepsPages(m: Mem, m': Mem)
    requires Inv(m) && Inv(m')
  {
    && RootsStay(m, m')
    && forall r: nat, v: nat :: IsRoot(m, r) && v < USERTOP && Lookup(m, r, v) != 0 ==>
         Lookup(m', r, v) == Lookup(m, r, v) && PageAt(m', r, v) == PageAt(m, r, v)
  }
}
