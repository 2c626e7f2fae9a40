/** Access to user memory: walkaddr, copyout, copyin and copyinstr of kernel/vm.c. */
module VmAccess {
  import opened Basics
  import opened VmModel
  import opened VmSteps
  import opened VmWalk
  import opened VmMap
  import opened VmUser
  import opened VmCopy

  /** The page has an entry that user code may use. */
  predicate Accessible(m: Mem, root: nat, va: nat) {
    va < MAXVA && IsValid(Lookup(m, root, va / PGSIZE)) && IsUser(Lookup(m, root, va / PGSIZE))
  }

  lemma AccessibleIsMapped(m: Mem, root: nat, va: nat)
    requires Inv(m) && IsRoot(m, root) && Accessible(m, root, va)
    ensures va / PGSIZE < USERTOP && Lookup(m, root, va / PGSIZE) != 0
  {
    hide Inv, Lookup;
    LookupOwns(m, root, va / PGSIZE);
  }

  /** The byte of user memory at an address whose page is mapped. */
  ghost function ByteAt(m: Mem, root: nat, va: nat): Byte
    requires Inv(m) && IsRoot(m, root) && va / PGSIZE < USERTOP && Lookup(m, root, va / PGSIZE) != 0
  {
    PageAt(m, root, va / PGSIZE)[va % PGSIZE]
  }

  method Walkaddr(m: Mem, root: nat, va: nat) returns (pa: nat)
    requires Inv(m) && IsRoot(m, root)
    ensures pa != 0 <==> Accessible(m, root, va)
    ensures pa != 0 ==>
              pa == FrameOf(Lookup(m, root, va / PGSIZE)) * PGSIZE && pa / PGSIZE in m.role && m.role[pa / PGSIZE].User?
                        && pa / PGSIZE in m.data && va / PGSIZE < USERTOP
                          && m.data[pa / PGSIZE] == PageAt(m, root, va / PGSIZE)
  {
    hide Inv, IsValid, IsUser, FrameOf, PX;
    if va >= MAXVA {
      return 0;
    }
    PXDigits(va);
    var t, _ := Walk(m, root, va, false);
    if t == 0 {
      InvalidZero();
      return 0;
    }
    CoverWalks(m, t, root, va / PGSIZE);
    var pte := m.tables[t][PX(0, va)];
    if !IsValid(pte) {
      return 0;
    }
    if !IsUser(pte) {
      return 0;
    }
    InvalidZero();
    LookupOwns(m, root, va / PGSIZE);
    FrameNonzero(m, FrameOf(pte));
    pa := FrameOf(pte) * PGSIZE;
    assert pa / PGSIZE == FrameOf(pte);
  }

  lemma InvalidZero()
    ensures !IsValid(0)
  {
  }

  lemma FrameNonzero(m: Mem, f: nat)
    requires Inv(m) && f in m.role
    ensures f != 0
  {
  }

  // ----- Writing part of a page -----

  lemma StoredPage(m: Mem, root: nat, v: nat, page: Page)
    requires Inv(m) && IsRoot(m, root) && v < USERTOP && Lookup(m, root, v) != 0
    ensures var m' := Stored(m, FrameOf(Lookup(m, root, v)), page);
            && Inv(m') && SameView(m, m') && IsRoot(m', root)
            && PageAt(m', root, v) == page
            && forall r: nat, u: nat ::
                IsRoot(m, r) && u < USERTOP && Lookup(m, r, u) != 0 && !(r == root && u == v) ==>
                    PageAt(m', r, u) == PageAt(m, r, u)
  {
    hide Inv, Lookup, FrameOf;
    var f := FrameOf(Lookup(m, root, v));
    var m' := Stored(m, f, page);
    StoredKeeps(m, f, page);
    LookupOwns(m, root, v);
    forall r: nat, u: nat | IsRoot(m, r) && u < USERTOP && Lookup(m, r, u) != 0 && !(r == root && u == v)
      ensures PageAt(m', r, u) == PageAt(m, r, u)
    {
      NoSharing(m, r, u, root, v);
      LookupOwns(m, r, u);
    }
  }

  /** Only the bytes of `root` at va.. are written, with src; every entry stays. */
  ghost predicate Wrote(m: Mem, m': Mem, root: nat, va: nat, src: seq<Byte>)
    requires Inv(m) && Inv(m')
  {
    && m'.role == m.role && m'.tables == m.tables && m'.free == m.free
    && forall r: nat, a: nat :: IsRoot(m, r) && a / PGSIZE < USERTOP && Lookup(m, r, a / PGSIZE) != 0 ==>
         ByteAt(m', r, a) == if r == root && va <= a < va + |src| then src[a - va] else ByteAt(m, r, a)
  }

  lemma SplicedAt(page: Page, o: nat, bytes: seq<Byte>, j: nat)
    requires o + |bytes| <= PGSIZE && j < PGSIZE
    ensures Spliced(page, o, bytes)[j] == if o <= j < o + |bytes| then bytes[j - o] else page[j]
  {
  }

  /** Storing the bytes at address a, all in one page. */
  lemma StoredBytes(m: Mem, root: nat, a: nat, bytes: seq<Byte>)
    requires Inv(m) && IsRoot(m, root) && a / PGSIZE < USERTOP && Lookup(m, root, a / PGSIZE) != 0
    requires a % PGSIZE + |bytes| <= PGSIZE
    ensures var m' := Stored(m, FrameOf(Lookup(m, root, a / PGSIZE)),
              Spliced(PageAt(m, root, a / PGSIZE), a % PGSIZE, bytes));
            Inv(m') && IsRoot(m', root) && Wrote(m, m', root, a, bytes)
  {
    hide Inv, Lookup, FrameOf, PageAt, Spliced;
    var page := Spliced(PageAt(m, root, a / PGSIZE), a % PGSIZE, bytes);
    var m' := Stored(m, FrameOf(Lookup(m, root, a / PGSIZE)), page);
    StoredPage(m, root, a / PGSIZE, page);
    forall r: nat, b: nat | IsRoot(m, r) && b / PGSIZE < USERTOP && Lookup(m, r, b / PGSIZE) != 0
      ensures ByteAt(m', r, b) == if r == root && a <= b < a + |bytes| then bytes[b - a] else ByteAt(m, r, b)
    {
      SplicedAt(PageAt(m, root, a / PGSIZE), a % PGSIZE, bytes, b % PGSIZE);
      SamePage(a, b, |bytes|);
    }
  }

  /** Addresses from a on that do not leave its page. */
  lemma SamePage(a: nat, b: nat, n: nat)
    requires a % PGSIZE + n <= PGSIZE
    ensures a <= b < a + n <==> b / PGSIZE == a / PGSIZE && a % PGSIZE <= b % PGSIZE < a % PGSIZE + n
    ensures b / PGSIZE == a / PGSIZE ==> b % PGSIZE - a % PGSIZE == b - a
  {
  }

  lemma WroteThen(m0: Mem, m1: Mem, m2: Mem, root: nat, va: nat, src: seq<Byte>, more: seq<Byte>)
    requires Inv(m0) && Inv(m1) && Inv(m2) && Wrote(m0, m1, root, va, src) && Wrote(m1, m2, root, va + |src|, more)
    ensures Wrote(m0, m2, root, va, src + more)
  {
    hide Inv, Lookup, ByteAt;
    SameTables(m0, m1);
    SameTables(m0, m2);
    forall r: nat, a: nat | IsRoot(m0, r) && a / PGSIZE < USERTOP && Lookup(m0, r, a / PGSIZE) != 0
      ensures ByteAt(m2, r, a) == if r == root && va <= a < va + |src + more| then (src + more)[a - va]
                                  else ByteAt(m0, r, a)
    {
      assert ByteAt(m1, r, a) == if r == root && va <= a < va + |src| then src[a - va] else ByteAt(m0, r, a);
    }
  }

  /** Writes src up to the first byte of it that user code may not access. */
  method Copyout(m: Mem, root: nat, dstva: nat, src: seq<Byte>) returns (ok: bool, ghost done: nat, m': Mem)
    requires Inv(m) && IsRoot(m, root)
    ensures Inv(m') && IsRoot(m', root) && done <= |src| && Wrote(m, m', root, dstva, src[..done])
    ensures forall k :: dstva <= k < dstva + done ==> Accessible(m, root, k)
    ensures if ok then done == |src| else done < |src| && !Accessible(m, root, dstva + done)
  {
    hide Inv, Lookup, IsValid, IsUser, FrameOf, PageAt, Spliced, ByteAt;
    var len: nat, dst := |src|, dstva;
    done, m' := 0, m;
    while len > 0
      invariant done + len == |src| && (len > 0 ==> dst == dstva + done)
      invariant Inv(m') && IsRoot(m', root) && Wrote(m, m', root, dstva, src[..done])
      invariant forall k :: dstva <= k < dstva + done ==> Accessible(m, root, k)
    {
      var va0 := dst / PGSIZE * PGSIZE;
      assert va0 / PGSIZE == dst / PGSIZE;
      var pa0 := Walkaddr(m', root, va0);
      SameTables(m, m');
      if pa0 == 0 {
        return false, done, m';
      }
      var n := PGSIZE - (dst - va0);
      if n > len {
        n := len;
      }
      var bytes := src[|src| - len..|src| - len + n];
      AccessibleIsMapped(m', root, va0);
      StoredBytes(m', root, dst, bytes);
      ghost var m1 := m';
      m' := Stored(m', pa0 / PGSIZE, Spliced(m'.data[pa0 / PGSIZE], dst - va0, bytes));
      WroteThen(m, m1, m', root, dstva, src[..done], bytes);
      assert src[..done] + bytes == src[..done + n];
      forall k | dst <= k < dst + n ensures Accessible(m, root, k) {
        SamePage(dst, k, n);
      }
      len := len - n;
      done := done + n;
      dst := va0 + PGSIZE;
    }
    return true, done, m';
  }

  /** dst is what user memory holds from va on. */
  ghost predicate Reads(m: Mem, root: nat, va: nat, dst: seq<Byte>)
    requires Inv(m) && IsRoot(m, root)
  {
    forall k :: va <= k < va + |dst| ==>
      && Accessible(m, root, k) && k / PGSIZE < USERTOP && Lookup(m, root, k / PGSIZE) != 0
      && dst[k - va] == ByteAt(m, root, k)
  }

  /** A run of bytes of the accessible page at pa. */
  lemma ReadsPiece(m: Mem, root: nat, a: nat, n: nat, page: Page)
    requires Inv(m) && IsRoot(m, root) && Accessible(m, root, a / PGSIZE * PGSIZE) && a % PGSIZE + n <= PGSIZE
    requires a / PGSIZE < USERTOP && Lookup(m, root, a / PGSIZE) != 0 && page == PageAt(m, root, a / PGSIZE)
    ensures Reads(m, root, a, page[a % PGSIZE..a % PGSIZE + n])
  {
    hide Inv, Lookup, IsValid, IsUser, PageAt;
    forall k | a <= k < a + n
      ensures Accessible(m, root, k) && k / PGSIZE == a / PGSIZE && page[a % PGSIZE + (k - a)] == page[k % PGSIZE]
    {
      SamePage(a, k, n);
    }
  }

  lemma ReadsThen(m: Mem, root: nat, va: nat, dst: seq<Byte>, more: seq<Byte>)
    requires Inv(m) && IsRoot(m, root) && Reads(m, root, va, dst) && Reads(m, root, va + |dst|, more)
    ensures Reads(m, root, va, dst + more)
  {
    hide Inv, Lookup, Accessible, ByteAt;
  }

  method Copyin(m: Mem, root: nat, srcva: nat, count: nat) returns (ok: bool, dst: seq<Byte>)
    requires Inv(m) && IsRoot(m, root)
    ensures |dst| <= count && Reads(m, root, srcva, dst)
    ensures if ok then |dst| == count else |dst| < count && !Accessible(m, root, srcva + |dst|)
  {
    hide Inv, Lookup, IsValid, IsUser, FrameOf, PageAt, Reads, ByteAt;
    var len: nat, src := count, srcva;
    dst := [];
    ReadsNothing(m, root, srcva);
    while len > 0
      invariant |dst| + len == count && (len > 0 ==> src == srcva + |dst|) && Reads(m, root, srcva, dst)
    {
      var va0 := src / PGSIZE * PGSIZE;
      assert va0 / PGSIZE == src / PGSIZE;
      var pa0 := Walkaddr(m, root, va0);
      if pa0 == 0 {
        return false, dst;
      }
      var n := PGSIZE - (src - va0);
      if n > len {
        n := len;
      }
      AccessibleIsMapped(m, root, va0);
      ReadsPiece(m, root, src, n, m.data[pa0 / PGSIZE]);
      ReadsThen(m, root, srcva, dst, m.data[pa0 / PGSIZE][src - va0..src - va0 + n]);
      len := len - n;
      dst := dst + m.data[pa0 / PGSIZE][src - va0..src - va0 + n];
      src := va0 + PGSIZE;
    }
    return true, dst;
  }

  lemma ReadsNothing(m: Mem, root: nat, va: nat)
    requires Inv(m) && IsRoot(m, root)
    ensures Reads(m, root, va, [])
  {
  }

  /** What copyout wrote is what copyin reads. */
  lemma WroteReads(m: Mem, m': Mem, root: nat, va: nat, src: seq<Byte>, dst: seq<Byte>)
    requires Inv(m) && Inv(m') && IsRoot(m, root) && IsRoot(m', root) && Wrote(m, m', root, va, src)
    requires Reads(m', root, va, dst) && |dst| == |src|
    ensures dst == src
  {
    hide Inv, Lookup, ByteAt;
    SameTables(m, m');
    forall i | 0 <= i < |src| ensures dst[i] == src[i] {
      assert dst[va + i - va] == ByteAt(m', root, va + i);
    }
  }

  ghost predicate NoNull(s: seq<Byte>) {
    forall i :: 0 <= i < |s| ==> s[i] != 0
  }

  /** Copies up to and including the first null byte within max. */
  method Copyinstr(m: Mem, root: nat, srcva: nat, max: nat) returns (ok: bool, dst: seq<Byte>)
    requires Inv(m) && IsRoot(m, root)
    ensures |dst| <= max && Reads(m, root, srcva, dst)
    ensures ok ==> |dst| > 0 && dst[|dst| - 1] == 0 && NoNull(dst[..|dst| - 1])
    ensures !ok ==> NoNull(dst) && (|dst| == max || !Accessible(m, root, srcva + |dst|))
  {
    hide Inv, Lookup, IsValid, IsUser, FrameOf, PageAt, Reads, ByteAt;
    var left: nat, src, gotNull := max, srcva, false;
    dst := [];
    ReadsNothing(m, root, srcva);
    while !gotNull && left > 0
      invariant |dst| <= max && Reads(m, root, srcva, dst)
      invariant !gotNull ==> |dst| + left == max && (left > 0 ==> src == srcva + |dst|) && NoNull(dst)
      invariant gotNull ==> |dst| > 0 && dst[|dst| - 1] == 0 && NoNull(dst[..|dst| - 1])
      decreases !gotNull, left
    {
      var va0 := src / PGSIZE * PGSIZE;
      assert va0 / PGSIZE == src / PGSIZE;
      var pa0 := Walkaddr(m, root, va0);
      if pa0 == 0 {
        return false, dst;
      }
      var n := PGSIZE - (src - va0);
      if n > left {
        n := left;
      }
      AccessibleIsMapped(m, root, va0);
      var page, o := m.data[pa0 / PGSIZE], src - va0;
      var p := 0;
      ghost var before := dst;
      while p < n
        invariant 0 <= p <= n && !gotNull && dst == before + page[o..o + p] && NoNull(page[o..o + p])
      {
        dst := dst + [page[o + p]];
        assert page[o..o + (p + 1)] == page[o..o + p] + [page[o + p]];
        if page[o + p] == 0 {
          gotNull := true;
          break;
        }
        p := p + 1;
      }
      ghost var taken := if gotNull then p + 1 else p;
      assert dst == before + page[o..o + taken];
      ReadsPiece(m, root, src, taken, page);
      ReadsThen(m, root, srcva, before, page[o..o + taken]);
      left := left - p;
      src := va0 + PGSIZE;
    }
    return gotNull, dst;
  }
}
