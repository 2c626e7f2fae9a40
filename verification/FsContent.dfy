/** How block-level changes read as changes of a file's byte sequence, and what they log. */
module FsContent {
  import opened Basics
  import opened FsBytes
  import opened FsModel
  import opened Params

  /** c with d in place of the bytes from off on; it grows when d reaches past the end. */
  function Overwrite(c: seq<Byte>, off: nat, d: seq<Byte>): (r: seq<Byte>)
    requires off <= |c|
  {
    c[..off] + d + if off + |d| <= |c| then c[off + |d|..] else []
  }

  function Min(a: nat, b: nat): nat { if a < b then a else b }

  function Max(a: int, b: nat): nat { if a < b then b else a }

  /** min(n, BSIZE - off % BSIZE): how much of n bytes at off falls in one block. */
  function PieceSize(off: nat, n: nat): (m: nat)
    requires 0 < n
    ensures 0 < m <= n && off % BSIZE + m <= BSIZE
  {
    Min(n, BSIZE - off % BSIZE)
  }

  /** How many of `readable` bytes at off are in blocks that all of them fill up: what writei()
      counts when the next byte cannot be read. */
  function Kept(off: nat, readable: nat): (k: nat)
    ensures k <= readable
  {
    if (off + readable) / BSIZE == off / BSIZE then 0 else (off + readable) / BSIZE * BSIZE - off
  }

  lemma KeptIs(off: nat, tot: nat, m: nat, readable: nat)
    requires tot <= readable < tot + m && (tot == 0 || (off + tot) % BSIZE == 0) && (off + tot) % BSIZE + m <= BSIZE
    ensures tot == Kept(off, readable)
  {
    assert (off + readable) / BSIZE == (off + tot) / BSIZE;
  }

  lemma KeptAtLeast(off: nat, tot: nat, readable: nat)
    requires tot <= readable && (tot == 0 || (off + tot) % BSIZE == 0)
    ensures tot <= Kept(off, readable)
  {
    if tot > 0 {
      assert (off + tot) / BSIZE <= (off + readable) / BSIZE;
    }
  }

  // ----- From blocks to contents -----

  function Resized(f: Fs, n: nat, size: nat): Fs
    requires n in f.inode
  {
    f.(inode := f.inode[n := f.inode[n].(size := size)])
  }

  /** No file but n has changed. */
  ghost predicate OthersSame(sb: Superblock, f: Fs, f': Fs, n: nat)
    requires Shape(sb, f) && Shape(sb, f')
  {
    && (forall m :: m in f.inode <==> m in f'.inode)
    && (forall m :: m in f.inode && m != n ==> Content(sb, f', m) == Content(sb, f, m))
  }

  lemma ResizedSame(sb: Superblock, f: Fs, n: nat, size: nat)
    requires Inv(sb, f) && n in f.inode && size <= MAXBYTES
    ensures var f' := Resized(f, n, size);
            && Inv(sb, f')
            && (forall m, bn: nat :: m in f.inode && bn < MAXFILE ==> MapOf(sb, f', m, bn) == MapOf(sb, f, m, bn))
            && (forall m, k: nat :: m in f.inode ==> ByteAt(sb, f', m, k) == ByteAt(sb, f, m, k))
  {
    var f' := Resized(f, n, size);
    assert Shape(sb, f');
    assert forall t :: IsSlot(f', t) <==> IsSlot(f, t);
    forall t | IsSlot(f, t) ensures Ptr(sb, f', t) == Ptr(sb, f, t) {
    }
  }

  lemma OverwriteSize(c: seq<Byte>, off: nat, d: seq<Byte>)
    requires off <= |c|
    ensures off + |d| <= |Overwrite(c, off, d)| == Max(|c|, off + |d|)
  {
  }

  /** `now` is c overwritten at off with the first `copied` bytes of src, the file's size
      having been brought to `end` at least. */
  ghost predicate Reached(c: seq<Byte>, off: nat, src: seq<Byte>, copied: nat, end: nat, now: seq<Byte>) {
    && off <= |c| && copied <= |src| && off <= end <= off + copied
    && now == Overwrite(c, off, src[..copied])[..Max(|c|, end)]
  }

  lemma ReachedAtStart(c: seq<Byte>, off: nat, src: seq<Byte>)
    requires off <= |c|
    ensures Reached(c, off, src, 0, off, c)
  {
  }

  lemma ReachedSize(c: seq<Byte>, off: nat, src: seq<Byte>, i: nat, now: seq<Byte>)
    requires Reached(c, off, src, i, off + i, now)
    ensures off + i <= |now| && |c| <= |now|
  {
    OverwriteSize(c, off, src[..i]);
  }

  lemma ReachedAll(c: seq<Byte>, off: nat, src: seq<Byte>, now: seq<Byte>)
    requires Reached(c, off, src, |src|, off + |src|, now)
    ensures off + |src| <= |now| && now[off..off + |src|] == src
  {
    assert src[..|src|] == src;
  }

  /** A write that took all of the first i bytes, followed by one of the next n1. */
  lemma ReachedTwice(c: seq<Byte>, off: nat, src: seq<Byte>, i: nat, n1: nat, x: seq<Byte>, copied: nat, end: nat,
                     now: seq<Byte>)
    requires i + n1 <= |src|
    requires Reached(c, off, src, i, off + i, x) && Reached(x, off + i, src[i..i + n1], copied, end, now)
    ensures Reached(c, off, src, i + copied, end, now)
  {
    OverwriteSize(c, off, src[..i]);
    assert x == Overwrite(c, off, src[..i]);
    OverwriteTwice(c, off, src[..i], src[i..i + n1][..copied]);
    SliceJoin(src, i, n1, copied);
  }

  lemma OverwriteTwice(c: seq<Byte>, off: nat, a: seq<Byte>, b: seq<Byte>)
    requires off <= |c|
    ensures off + |a| <= |Overwrite(c, off, a)| == Max(|c|, off + |a|)
    ensures Overwrite(Overwrite(c, off, a), off + |a|, b) == Overwrite(c, off, a + b)
  {
  }

  lemma OverwriteAt(c: seq<Byte>, off: nat, d: seq<Byte>, k: nat)
    requires off <= |c| && k < Max(|c|, off + |d|)
    ensures |Overwrite(c, off, d)| == Max(|c|, off + |d|)
    ensures Overwrite(c, off, d)[k] == if off <= k < off + |d| then d[k - off] else c[k]
  {
  }

  lemma FinishOthers(sb: Superblock, f0: Fs, f: Fs, n: nat, off: nat, data: seq<Byte>, m: nat)
    requires Written(sb, f0, f, n, off, data) && Covered(sb, f0) && m in f0.inode && m != n
    ensures Content(sb, f, m) == Content(sb, f0, m)
  {
    forall k | 0 <= k < f0.inode[m].size ensures Content(sb, f, m)[k] == Content(sb, f0, m)[k] {
      BelowSizeMapped(sb, f0, m, k);
    }
  }

  lemma FinishByte(sb: Superblock, f0: Fs, f: Fs, n: nat, off: nat, data: seq<Byte>, k: nat)
    requires Written(sb, f0, f, n, off, data) && Covered(sb, f0)
    requires off <= f0.inode[n].size && k < Max(f0.inode[n].size, off + |data|)
    ensures ByteAt(sb, f, n, k) == Overwrite(Content(sb, f0, n), off, data)[k]
  {
    OverwriteAt(Content(sb, f0, n), off, data, k);
    if k < off || off + |data| <= k {
      BelowSizeMapped(sb, f0, n, k);
    }
  }

  /** After a write, with the size brought up to date, the file's content is the old one
      overwritten, and no other file has changed. */
  lemma FinishWrite(sb: Superblock, f0: Fs, f: Fs, n: nat, off: nat, src: seq<Byte>, copied: nat, tot: nat)
    requires copied <= |src| && Written(sb, f0, f, n, off, src[..copied]) && Covered(sb, f0)
    requires off <= f0.inode[n].size && tot <= copied && off + tot <= MAXBYTES
    ensures FileWritten(sb, f0, Resized(f, n, Max(f0.inode[n].size, off + tot)), n, off, src, copied, off + tot)
  {
    var data := src[..copied];
    var size := Max(f0.inode[n].size, off + tot);
    var f' := Resized(f, n, size);
    ResizedSame(sb, f, n, size);
    FinishCovered(sb, f0, f, n, off, data, tot);
    forall k | 0 <= k < size ensures Content(sb, f', n)[k] == Overwrite(Content(sb, f0, n), off, data)[k] {
      FinishByte(sb, f0, f, n, off, data, k);
    }
    forall m | m in f0.inode && m != n ensures Content(sb, f', m) == Content(sb, f0, m) {
      FinishOthers(sb, f0, f, n, off, data, m);
      assert forall k: nat :: ByteAt(sb, f', m, k) == ByteAt(sb, f, m, k);
    }
  }

  lemma FinishCovered(sb: Superblock, f0: Fs, f: Fs, n: nat, off: nat, data: seq<Byte>, tot: nat)
    requires Written(sb, f0, f, n, off, data) && Covered(sb, f0)
    requires off <= f0.inode[n].size && tot <= |data| && off + tot <= MAXBYTES
    ensures var f' := Resized(f, n, Max(f0.inode[n].size, off + tot)); Inv(sb, f') && Covered(sb, f')
  {
    var f' := Resized(f, n, Max(f0.inode[n].size, off + tot));
    ResizedSame(sb, f, n, Max(f0.inode[n].size, off + tot));
    forall m, bn: nat | m in f'.inode && bn < MAXFILE && bn * BSIZE < f'.inode[m].size
      ensures MapOf(sb, f', m, bn) != 0
    {
      var k := bn * BSIZE;
      assert k / BSIZE == bn;
      if k < f0.inode[m].size { BelowSizeMapped(sb, f0, m, k); }
      assert Mapped(sb, f, m, k);
    }
  }

  // ----- Whole writes -----

  ghost predicate Sound(sb: Superblock, f: Fs) {
    Inv(sb, f) && Covered(sb, f)
  }

  /** f' is f with file n written from off on, `copied` bytes of src having been put in place
      and the size brought to `end` at least; both are consistent. */
  ghost predicate FileWritten(sb: Superblock, f: Fs, f': Fs, n: nat, off: nat, src: seq<Byte>, copied: nat, end: nat) {
    && Sound(sb, f) && Sound(sb, f') && n in f.inode && n in f'.inode
    && Reached(Content(sb, f, n), off, src, copied, end, Content(sb, f', n))
    && OthersSame(sb, f, f', n)
  }

  /** The same but for the contents of block a. */
  ghost predicate OneBlock(f: Fs, g: Fs, a: nat) {
    && f.inode == g.inode && f.owner == g.owner && |f.blocks| == |g.blocks|
    && forall b :: 0 <= b < |f.blocks| && b != a ==> f.blocks[b] == g.blocks[b]
  }

  lemma FileWrittenAtStart(sb: Superblock, f: Fs, n: nat, off: nat, src: seq<Byte>)
    requires Sound(sb, f) && n in f.inode && off <= f.inode[n].size
    ensures FileWritten(sb, f, f, n, off, src, 0, off) && off <= MAXBYTES
  {
    ReachedAtStart(Content(sb, f, n), off, src);
  }

  lemma FileWrittenTwice(sb: Superblock, f: Fs, f1: Fs, f2: Fs, n: nat, off: nat, src: seq<Byte>, i: nat, n1: nat,
                         copied: nat, end: nat)
    requires i + n1 <= |src|
    requires FileWritten(sb, f, f1, n, off, src, i, off + i)
             && FileWritten(sb, f1, f2, n, off + i, src[i..i + n1], copied, end)
    ensures FileWritten(sb, f, f2, n, off, src, i + copied, end)
  {
    hide BitsAgree, PointersOwned, OwnersPoint, Covered, Reached, Content;
    ReachedTwice(Content(sb, f, n), off, src, i, n1, Content(sb, f1, n), copied, end, Content(sb, f2, n));
  }

  lemma FileWrittenSize(sb: Superblock, f: Fs, f': Fs, n: nat, off: nat, src: seq<Byte>, i: nat)
    requires FileWritten(sb, f, f', n, off, src, i, off + i)
    ensures Sound(sb, f') && n in f'.inode && off + i <= f'.inode[n].size && f.inode[n].size <= f'.inode[n].size
  {
    ReachedSize(Content(sb, f, n), off, src, i, Content(sb, f', n));
  }

  /** A write inside a file is never stopped by a full disk. */
  lemma UnmappedPastEnd(sb: Superblock, f: Fs, n: nat, k: nat)
    requires Sound(sb, f) && n in f.inode && !Mapped(sb, f, n, k)
    ensures f.inode[n].size <= k
  {
    if k < f.inode[n].size { BelowSizeMapped(sb, f, n, k); }
  }

  // ----- Filling a slot -----

  ghost predicate AllUsed(sb: Superblock, blocks: seq<Block>, lo: nat, hi: nat)
    requires sb.Valid() && |blocks| == sb.size && hi <= sb.size
  {
    forall x: nat :: lo <= x < hi ==> InUse(sb, blocks, x)
  }

  /** A slot was full, or has been given a block, or the disk is full. */
  ghost predicate Filled(sb: Superblock, f: Fs, f': Fs, s: Slot, addr: nat) {
    && Inv(sb, f) && IsSlot(f, s) && (s.Entry? ==> f.inode[s.inum].addrs[NDIRECT] != 0)
    && if Ptr(sb, f, s) != 0 then addr == Ptr(sb, f, s) && f' == f
       else if addr == 0 then f' == f && AllUsed(sb, f.blocks, 0, sb.size)
       else CanAllocate(sb, f, s, addr) && f' == Allocated(sb, f, s, addr)
  }

  lemma AfterFill(sb: Superblock, f: Fs, f': Fs, s: Slot, addr: nat)
    requires Filled(sb, f, f', s, addr)
    ensures Written(sb, f, f', s.inum, 0, []) && IsSlot(f', s) && addr == Ptr(sb, f', s) && addr < sb.size
  {
    WrittenNothing(sb, f, s.inum, 0);
    if f' != f {
      WrittenByAlloc(sb, f, s.inum, s, addr, 0);
      AllocPtr(sb, f, s, addr, s);
    }
  }

  /** The indirect block, found or allocated; an allocated one is empty. */
  lemma IndirectFilled(sb: Superblock, f: Fs, f': Fs, n: nat, ind: nat, j: nat)
    requires Filled(sb, f, f', Addr(n, NDIRECT), ind) && ind != 0 && j < NINDIRECT
    ensures Inv(sb, f') && n in f'.inode && |f.inode[n].addrs| == |f'.inode[n].addrs| == NDIRECT + 1
    ensures f'.inode[n].addrs[NDIRECT] == ind && (f' == f <==> f.inode[n].addrs[NDIRECT] != 0)
    ensures IsSlot(f, Entry(n, j)) && IsSlot(f', Entry(n, j)) && Ptr(sb, f', Entry(n, j)) == Ptr(sb, f, Entry(n, j))
    ensures Ptr(sb, f, Entry(n, j)) != 0 ==> f' == f
  {
    hide BitsAgree, PointersOwned, OwnersPoint;
    if f' != f {
      AllocKeeps(sb, f, Addr(n, NDIRECT), ind);
      AllocPtr(sb, f, Addr(n, NDIRECT), ind, Entry(n, j));
    }
  }

  lemma NoIndirect(sb: Superblock, f: Fs, f': Fs, n: nat, j: nat)
    requires Filled(sb, f, f', Addr(n, NDIRECT), 0) && j < NINDIRECT
    ensures f' == f && AllUsed(sb, f.blocks, 0, sb.size)
    ensures |f.inode[n].addrs| == NDIRECT + 1 && f.inode[n].addrs[NDIRECT] == 0
    ensures IsSlot(f, Entry(n, j)) && Ptr(sb, f, Entry(n, j)) == 0
  {
    hide BitsAgree, PointersOwned, OwnersPoint;
  }

  lemma EntryFilled(sb: Superblock, f: Fs, f': Fs, n: nat, j: nat, addr: nat)
    requires Filled(sb, f, f', Entry(n, j), addr)
    ensures f'.inode == f.inode && (Ptr(sb, f, Entry(n, j)) != 0 ==> f' == f)
    ensures addr == 0 ==> f' == f && AllUsed(sb, f.blocks, 0, sb.size)
  {
    hide BitsAgree, PointersOwned, OwnersPoint;
  }

  // ----- What is logged -----

  /** Every block that changed is in `log`. */
  ghost predicate LogsChanges(f: Fs, f': Fs, log: set<nat>) {
    |f'.blocks| == |f.blocks| && forall b :: 0 <= b < |f.blocks| && f'.blocks[b] != f.blocks[b] ==> b in log
  }

  lemma LogsNothing(f: Fs)
    ensures LogsChanges(f, f, {})
  {
  }

  lemma LogsThen(f: Fs, f1: Fs, f2: Fs, log1: set<nat>, log2: set<nat>)
    requires LogsChanges(f, f1, log1) && LogsChanges(f1, f2, log2)
    ensures LogsChanges(f, f2, log1 + log2)
  {
  }

  lemma FillLogs(sb: Superblock, f: Fs, f': Fs, s: Slot, addr: nat, log: set<nat>)
    requires Filled(sb, f, f', s, addr)
    requires f' != f ==> sb.BBlock(addr) in log && addr in log
    requires f' != f && s.Entry? ==> f.inode[s.inum].addrs[NDIRECT] in log
    ensures LogsChanges(f, f', log)
  {
    hide BitsAgree, PointersOwned, OwnersPoint;
  }

  /** What one bmap logs: bitmap blocks, its block and the indirect block. */
  ghost predicate Charged(ip: Inode, ip': Inode, log: set<nat>, maps: set<nat>, addr: nat, added: nat) {
    && |ip.addrs| == |ip'.addrs| == NDIRECT + 1
    && log <= maps + {addr} + Indirect(ip')
    && |maps| <= added + NewIndirect(ip, ip')
    && (ip.addrs[NDIRECT] != 0 ==> ip'.addrs[NDIRECT] == ip.addrs[NDIRECT])
  }

  lemma ChargedBoth(ip: Inode, ip': Inode, log: set<nat>, m1: set<nat>, m2: set<nat>, addr: nat, added: nat)
    requires |ip.addrs| == |ip'.addrs| == NDIRECT + 1 && log <= m1 + m2 + {addr} + Indirect(ip')
    requires |m1| <= NewIndirect(ip, ip') && |m2| <= added
    requires ip.addrs[NDIRECT] != 0 ==> ip'.addrs[NDIRECT] == ip.addrs[NDIRECT]
    ensures Charged(ip, ip', log, m1 + m2, addr, added)
  {
    hide Indirect, NewIndirect;
    assert |m1 + m2| == |m1| + |m2| - |m1 * m2|;
  }

  /** What bmap logs for an entry: the bitmap block of the indirect block when that is new, and the
      bitmap block of the entry's block and the indirect block when that is. */
  lemma ChargedEntry(ip: Inode, ip': Inode, ind: nat, addr: nat, map1: nat, map2: nat, new1: bool, new2: bool)
    requires |ip.addrs| == |ip'.addrs| == NDIRECT + 1 && ip'.addrs[NDIRECT] == ind != 0
    requires if new1 then ip.addrs[NDIRECT] == 0 else ip.addrs[NDIRECT] == ind
    ensures var log1: set<nat>, log2: set<nat> :=
              if new1 then {map1, ind} else {}, if new2 then {map2, addr, ind} else {};
            var m1: set<nat>, m2: set<nat> := if new1 then {map1} else {}, if new2 then {map2} else {};
            Charged(ip, ip', log2 + log1, m1 + m2, addr, if new2 then 1 else 0)
  {
    hide Charged;
    var log1: set<nat>, log2: set<nat> := if new1 then {map1, ind} else {}, if new2 then {map2, addr, ind} else {};
    var m1: set<nat>, m2: set<nat> := if new1 then {map1} else {}, if new2 then {map2} else {};
    ChargedBoth(ip, ip', log2 + log1, m1, m2, addr, if new2 then 1 else 0);
  }

  lemma ChargedLess(ip: Inode, ip': Inode, log: set<nat>, maps: set<nat>, addr: nat, added: nat, more: nat)
    requires Charged(ip, ip', log, maps, addr, added) && added <= more
    ensures Charged(ip, ip', log, maps, addr, more)
  {
  }

  /** How many blocks the n bytes at off touch. */
  function Span(off: nat, n: nat): nat {
    if n == 0 then 0 else (off + n - 1) / BSIZE - off / BSIZE + 1
  }

  lemma NextPiece(off: nat, tot: nat, n: nat)
    requires tot < n && (tot == 0 || (off + tot) % BSIZE == 0)
    ensures var m := PieceSize(off + tot, n - tot);
            && (tot + m < n ==> (off + tot + m) % BSIZE == 0)
            && Span(off, tot + m) == Span(off, tot) + 1
            && (off + n <= MAXBYTES ==> (off + tot) / BSIZE < MAXFILE)
  {
  }

  /** The indirect block, when there is one. */
  function Indirect(ip: Inode): set<nat>
    requires |ip.addrs| == NDIRECT + 1
  {
    if ip.addrs[NDIRECT] == 0 then {} else {ip.addrs[NDIRECT]}
  }

  /** What a write has logged over the first `tried` bytes: all blocks, its data blocks, and
      its bitmap blocks. */
  datatype Tally = Tally(tried: nat, log: set<nat>, data: set<nat>, maps: set<nat>) {
    function Add(m: nat, log2: set<nat>, addr: nat, maps2: set<nat>): Tally {
      Tally(tried + m, log + log2, data + {addr}, maps + maps2)
    }
  }

  /** Everything logged is a data block, a bitmap block or the indirect block, with bounds on
      how many of each. */
  ghost predicate Accounted(sb: Superblock, f0: Fs, f: Fs, n: nat, off: nat, t: Tally) {
    && Shape(sb, f0) && n in f0.inode && n in f.inode && |f.inode[n].addrs| == NDIRECT + 1
    && t.log <= t.data + t.maps + Indirect(f.inode[n])
    && |t.data| <= Span(off, t.tried)
    && (f0.inode[n].addrs[NDIRECT] != 0 ==> f.inode[n].addrs[NDIRECT] == f0.inode[n].addrs[NDIRECT])
    && |t.maps| <= Span(off, t.tried) - FirstMapped(sb, f0, n, off, t.tried) + NewIndirect(f0.inode[n], f.inode[n])
  }

  lemma AccountStep(sb: Superblock, f0: Fs, f1: Fs, f2: Fs, n: nat, off: nat, m: nat, t: Tally,
                    log: set<nat>, addr: nat, maps: set<nat>, added: nat)
    requires Accounted(sb, f0, f1, n, off, t)
    requires n in f2.inode && 0 < m && Span(off, t.tried + m) == Span(off, t.tried) + 1
    requires Charged(f1.inode[n], f2.inode[n], log, maps, addr, added) && added <= 1
    requires t.tried == 0 && Mapped(sb, f0, n, off) ==> added == 0
    ensures Accounted(sb, f0, f2, n, off, t.Add(m, log, addr, maps))
  {
    UnionSize(t.data, {addr});
    UnionSize(t.maps, maps);
  }

  /** The state of writei()'s loop after `tot` bytes. */
  ghost predicate Going(sb: Superblock, f0: Fs, f: Fs, n: nat, off: nat, src: seq<Byte>, readable: nat, tot: nat,
                        t: Tally) {
    && tot == t.tried <= |src| && tot <= readable
    && Written(sb, f0, f, n, off, src[..tot]) && Accounted(sb, f0, f, n, off, t)
    && (tot < |src| ==> tot == 0 || (off + tot) % BSIZE == 0)
  }

  lemma StartWrite(sb: Superblock, f: Fs, n: nat, off: nat, src: seq<Byte>, readable: nat)
    requires Inv(sb, f) && n in f.inode
    ensures Going(sb, f, f, n, off, src, readable, 0, Tally(0, {}, {}, {}))
  {
    WrittenNothing(sb, f, n, off);
    assert src[..0] == [];
  }

  lemma WriteStep(sb: Superblock, f0: Fs, f1: Fs, f2: Fs, n: nat, off: nat, src: seq<Byte>, readable: nat,
                  tot: nat, put: nat, t: Tally, log: set<nat>, addr: nat, maps: set<nat>)
    requires Going(sb, f0, f1, n, off, src, readable, tot, t) && tot < |src| && off + |src| <= MAXBYTES
    requires var m := PieceSize(off + tot, |src| - tot);
             && put <= m && (off + tot) / BSIZE < MAXFILE
             && Written(sb, f1, f2, n, off + tot, src[tot..tot + m][..put])
             && Charged(f1.inode[n], f2.inode[n], log, maps, addr,
                        if MapOf(sb, f1, n, (off + tot) / BSIZE) != 0 then 0 else 1)
    ensures var m := PieceSize(off + tot, |src| - tot);
            && Written(sb, f0, f2, n, off, src[..tot + put])
            && Accounted(sb, f0, f2, n, off, t.Add(m, log, addr, maps))
            && (put == m <= readable - tot ==>
                Going(sb, f0, f2, n, off, src, readable, tot + m, t.Add(m, log, addr, maps)))
  {
    hide Written, Inv, Shape, Accounted, Charged, MapOf;
    var m := PieceSize(off + tot, |src| - tot);
    WrittenFrame(sb, f0, f1, n, off, src[..tot]);
    WrittenFrame(sb, f1, f2, n, off + tot, src[tot..tot + m][..put]);
    NextPiece(off, tot, |src|);
    WrittenMore(sb, f0, f1, f2, n, off, src, tot, m, put);
    AccountStep(sb, f0, f1, f2, n, off, m, t, log, addr, maps, if MapOf(sb, f1, n, (off + tot) / BSIZE) != 0 then 0
                                                               else 1);
  }

  lemma WrittenFrame(sb: Superblock, f0: Fs, f: Fs, n: nat, off: nat, d: seq<Byte>)
    requires Written(sb, f0, f, n, off, d)
    ensures Inv(sb, f0) && Inv(sb, f) && Shape(sb, f0) && Shape(sb, f) && n in f0.inode && n in f.inode
    ensures |f0.inode[n].addrs| == |f.inode[n].addrs| == NDIRECT + 1
    ensures Mapped(sb, f0, n, off) ==> Mapped(sb, f, n, off)
  {
  }

  lemma StaysMapped(sb: Superblock, f0: Fs, f: Fs, n: nat, off: nat, d: seq<Byte>, k: nat)
    requires Written(sb, f0, f, n, off, d)
    ensures Mapped(sb, f0, n, k) ==> Mapped(sb, f, n, k)
  {
  }

  /** Putting d in a block that the file has. */
  lemma RewrittenPiece(sb: Superblock, f: Fs, n: nat, off: nat, b: nat, d: seq<Byte>)
    requires Inv(sb, f) && n in f.inode && off / BSIZE < MAXFILE && off % BSIZE + |d| <= BSIZE
    requires b == MapOf(sb, f, n, off / BSIZE) && 0 < b < sb.size
    ensures var f' := f.(blocks := f.blocks[b := Spliced(f.blocks[b], off % BSIZE, d)]);
            Written(sb, f, f', n, off, d) && b == MapOf(sb, f', n, off / BSIZE) && OneBlock(f', f, b)
  {
    hide Written, BitsAgree, PointersOwned, OwnersPoint;
    WrittenByRewrite(sb, f, n, off, d);
    RewritePtr(sb, f, n, off / BSIZE, Spliced(f.blocks[b], off % BSIZE, d), DataSlot(n, off / BSIZE));
  }

  lemma UnionSize(a: set<nat>, b: set<nat>)
    ensures |a + b| <= |a| + |b|
  {
    assert |a + b| == |a| + |b - a|;
    assert b - a <= b;
  }

  /** 1 when the bytes start in a block the file already has. */
  ghost function FirstMapped(sb: Superblock, f: Fs, k: nat, off: nat, n: nat): nat
    requires Shape(sb, f) && k in f.inode
  {
    if n > 0 && Mapped(sb, f, k, off) then 1 else 0
  }

  /** 1 when the file got its indirect block in between. */
  function NewIndirect(before: Inode, after: Inode): nat
    requires |before.addrs| == |after.addrs| == NDIRECT + 1
  {
    if before.addrs[NDIRECT] == 0 && after.addrs[NDIRECT] != 0 then 1 else 0
  }

  lemma WrapsIff(off: nat, cnt: nat)
    requires off < WORD && cnt < WORD
    ensures (off + cnt) % WORD < off <==> off + cnt >= WORD
  {
  }

  lemma WrittenMoved(sb: Superblock, f0: Fs, f: Fs, n: nat, off: nat)
    requires Written(sb, f0, f, n, 0, [])
    ensures Written(sb, f0, f, n, off, [])
  {
  }

  /** Allocating first and then putting bytes in place. */
  lemma WrittenThen(sb: Superblock, f0: Fs, f1: Fs, f2: Fs, n: nat, off: nat, d: seq<Byte>)
    requires Written(sb, f0, f1, n, 0, []) && Written(sb, f1, f2, n, off, d)
    ensures Written(sb, f0, f2, n, off, d)
  {
    hide Written, Inv;
    WrittenMoved(sb, f0, f1, n, off);
    assert [] + d == d;
    WrittenTwice(sb, f0, f1, f2, n, off, [], d);
  }

  lemma SliceJoin(s: seq<Byte>, a: nat, m: nat, p: nat)
    requires a + m <= |s| && p <= m
    ensures s[..a] + s[a..a + m][..p] == s[..a + p]
  {
  }

  lemma WrittenMore(sb: Superblock, f0: Fs, f1: Fs, f2: Fs, n: nat, off: nat, src: seq<Byte>, tot: nat, m: nat,
                    put: nat)
    requires tot + m <= |src| && put <= m
    requires Written(sb, f0, f1, n, off, src[..tot]) && Written(sb, f1, f2, n, off + tot, src[tot..tot + m][..put])
    ensures Written(sb, f0, f2, n, off, src[..tot + put])
  {
    hide Written, Inv;
    SliceJoin(src, tot, m, put);
    WrittenTwice(sb, f0, f1, f2, n, off, src[..tot], src[tot..tot + m][..put]);
  }

  /** d is what the file holds from off on. */
  ghost predicate Matches(file: seq<Byte>, off: nat, d: seq<Byte>) {
    off + |d| <= |file| && forall i :: 0 <= i < |d| ==> d[i] == file[off + i]
  }

  lemma MatchesNothing(file: seq<Byte>, off: nat)
    requires off <= |file|
    ensures Matches(file, off, [])
  {
  }

  lemma MatchesPart(file: seq<Byte>, off: nat, d: seq<Byte>, k: nat)
    requires Matches(file, off, d) && k <= |d|
    ensures Matches(file, off, d[..k])
  {
  }

  lemma MatchesMore(file: seq<Byte>, off: nat, d: seq<Byte>, e: seq<Byte>)
    requires Matches(file, off, d) && Matches(file, off + |d|, e)
    ensures Matches(file, off, d + e)
  {
  }

  /** m bytes of a file that lie in one block. */
  lemma PieceOfFile(sb: Superblock, f: Fs, n: nat, off: nat, m: nat)
    requires Inv(sb, f) && n in f.inode && off + m <= f.inode[n].size && off % BSIZE + m <= BSIZE
    requires Mapped(sb, f, n, off)
    ensures var a := MapOf(sb, f, n, off / BSIZE);
            a < sb.size && Content(sb, f, n)[off..off + m] == f.blocks[a][off % BSIZE..off % BSIZE + m]
  {
    MappedInRange(sb, f, n, off / BSIZE);
    var a := MapOf(sb, f, n, off / BSIZE);
    forall k | off <= k < off + m ensures Content(sb, f, n)[k] == f.blocks[a][off % BSIZE + k - off] {
      InBlock(off, k);
    }
  }

  lemma AllUsedJoin(sb: Superblock, blocks: seq<Block>, mid: nat, hi: nat)
    requires sb.Valid() && |blocks| == sb.size && mid <= hi <= sb.size
    requires AllUsed(sb, blocks, 0, mid) && AllUsed(sb, blocks, mid, hi)
    ensures AllUsed(sb, blocks, 0, hi)
  {
  }

  lemma NextGroup(b: nat)
    requires b % BPB == 0
    ensures (b + BPB) % BPB == 0
  {
  }

  lemma BitInGroup(sb: Superblock, blocks: seq<Block>, b: nat, bi: nat)
    requires sb.Valid() && |blocks| == sb.size && b % BPB == 0 && bi < BPB && b + bi < sb.size
    ensures sb.BBlock(b + bi) == sb.BBlock(b) < sb.datastart && (b + bi) % BPB == bi
    ensures InUse(sb, blocks, b + bi) == BitAt(blocks[sb.BBlock(b)], bi)
  {
    BitmapIsMeta(sb, b);
  }

  // ----- The size of a transaction -----

  /** filewrite()'s limit on one transaction: (MAXOPBLOCKS - 1 - 1 - 2) / 2 blocks. */
  const CHUNK: nat := 3072

  /** The same as Kept for filewrite(), whose chunks start anew. */
  function KeptChunks(off: nat, readable: nat): nat {
    var i := readable / CHUNK * CHUNK;
    i + Kept(off + i, readable - i)
  }

  /** Why writei() stopped short of `len` bytes at off: the disk is full at a block that the
      file did not have, or the source cannot be read any further. */
  ghost predicate Stopped(sb: Superblock, f: Fs, f': Fs, n: nat, off: nat, len: nat, readable: nat, r: nat, copied: nat)
    requires Inv(sb, f) && Inv(sb, f') && n in f.inode
  {
    || (copied == r <= Kept(off, readable) && AllUsed(sb, f'.blocks, 0, sb.size) && !Mapped(sb, f, n, off + r))
    || (copied == readable < len && r == Kept(off, readable))
  }

  lemma WriteStops(sb: Superblock, f: Fs, f1: Fs, f': Fs, logged: Fs, n: nat, off: nat, src: seq<Byte>, readable: nat,
                   tot: nat, put: nat, t: Tally)
    requires Going(sb, f, f1, n, off, src, readable, tot, t) && tot < |src| && Inv(sb, f')
    requires Written(sb, f1, logged, n, off + tot, [])
    requires || (put == 0 && AllUsed(sb, f'.blocks, 0, sb.size) && !Mapped(sb, f1, n, off + tot))
             || put == readable - tot < PieceSize(off + tot, |src| - tot)
    ensures Written(sb, f, logged, n, off, src[..tot]) && Inv(sb, f)
    ensures Stopped(sb, f, f', n, off, |src|, readable, tot, tot + put)
  {
    hide Written, Accounted, BitsAgree, PointersOwned, OwnersPoint, AllUsed, MapOf, Kept;
    var m := PieceSize(off + tot, |src| - tot);
    WrittenFrame(sb, f, f1, n, off, src[..tot]);
    WrittenMore(sb, f, f1, logged, n, off, src, tot, m, 0);
    StaysMapped(sb, f, f1, n, off, src[..tot], off + tot);
    KeptAtLeast(off, tot, readable);
    if readable - tot < m { KeptIs(off, tot, m, readable); }
  }

  /** The chunk in which the source becomes unreadable, and so each one before it, ends within
      the largest file: writei() does not refuse it. */
  predicate Fits(off: nat, cnt: int, readable: nat) {
    off + Min(Max(cnt, 0), readable / CHUNK * CHUNK + CHUNK) <= MAXBYTES
  }

  /** The same for filewrite(), which now stands at `end`: it was asked for a negative count, or
      the disk is full, or the source cannot be read any further, or the next chunk would go
      beyond the largest file. */
  ghost predicate StoppedChunks(sb: Superblock, f: Fs, f': Fs, n: nat, off: nat, cnt: int, readable: nat, end: nat,
                                copied: nat)
    requires Inv(sb, f) && Inv(sb, f') && n in f.inode
  {
    || cnt < 0
    || (copied == end - off <= KeptChunks(off, readable) && AllUsed(sb, f'.blocks, 0, sb.size)
      && f.inode[n].size <= end)
    || (copied == readable < cnt && end == off + KeptChunks(off, readable) && Fits(off, cnt, readable))
    || (&& copied == end - off && copied % CHUNK == 0 && copied <= readable && copied < cnt
        && end + Min(cnt - copied, CHUNK) > MAXBYTES)
  }

  lemma ChunkStops(sb: Superblock, f: Fs, f1: Fs, f': Fs, n: nat, off: nat, src: seq<Byte>, readable: nat, i: nat,
                   r: nat, copied: nat)
    requires FileWritten(sb, f, f1, n, off, src, i, off + i) && i < |src| && i % CHUNK == 0 && i <= readable
    requires FileWritten(sb, f1, f', n, off + i, src[i..i + Min(|src| - i, CHUNK)], copied, off + i + r)
    requires Stopped(sb, f1, f', n, off + i, Min(|src| - i, CHUNK), readable - i, r, copied)
    requires off + i + Min(|src| - i, CHUNK) <= MAXBYTES
    ensures StoppedChunks(sb, f, f', n, off, |src|, readable, off + i + r, i + copied)
  {
    hide Covered, BitsAgree, PointersOwned, OwnersPoint, FileWritten, AllUsed, MapOf, KeptChunks, Kept;
    FileWrittenSize(sb, f, f1, n, off, src, i);
    if !Mapped(sb, f1, n, off + i + r) {
      UnmappedPastEnd(sb, f1, n, off + i + r);
    }
    CopiedBound(sb, f1, f', n, off + i, src[i..i + Min(|src| - i, CHUNK)], copied, off + i + r);
    ChunkKept(off, readable, i);
  }

  lemma CopiedBound(sb: Superblock, f: Fs, f': Fs, n: nat, off: nat, src: seq<Byte>, copied: nat, end: nat)
    requires FileWritten(sb, f, f', n, off, src, copied, end)
    ensures copied <= |src|
  {
  }

  lemma ChunkKept(off: nat, readable: nat, i: nat)
    requires i % CHUNK == 0 && i <= readable
    ensures readable - i < CHUNK ==> KeptChunks(off, readable) == i + Kept(off + i, readable - i)
    ensures readable - i < CHUNK ==> readable / CHUNK * CHUNK == i
    ensures readable - i >= CHUNK ==> KeptChunks(off, readable) >= i + CHUNK
  {
    hide Kept;
    if readable - i < CHUNK {
      assert readable / CHUNK * CHUNK == i;
    } else {
      assert readable / CHUNK * CHUNK >= i + CHUNK;
    }
  }

  /** src[lo..hi] is what the file holds at off + lo, as far as the file goes. */
  ghost predicate Agrees(c: seq<Byte>, off: nat, src: seq<Byte>, lo: nat, hi: nat)
    requires hi <= |src|
  {
    forall k :: lo <= k < hi && off + k < |c| ==> src[k] == c[off + k]
  }

  /** A write leaves alone what is past its count exactly when the bytes copied on top of that
      count are in the file already. */
  lemma CleanIff(c: seq<Byte>, off: nat, src: seq<Byte>, copied: nat, r: nat, now: seq<Byte>)
    requires r <= copied && Reached(c, off, src, copied, off + r, now)
    ensures now == Overwrite(c, off, src[..r]) <==> Agrees(c, off, src, r, copied)
  {
    hide Overwrite;
    var y := Overwrite(c, off, src[..r]);
    OverwriteSize(c, off, src[..copied]);
    OverwriteSize(c, off, src[..r]);
    forall k | 0 <= k < |y| ensures now[k] == y[k] <==> r <= k - off < copied ==> src[k - off] == c[k] {
      OverwriteAt(c, off, src[..copied], k);
      OverwriteAt(c, off, src[..r], k);
    }
    forall k | r <= k < copied && off + k < |c| ensures now[off + k] == y[off + k] <==> src[k] == c[off + k] {
    }
  }

  lemma SpanBound(off: nat, m: nat)
    requires m <= CHUNK
    ensures Span(off, m) <= if off % BSIZE == 0 then 3 else 4
  {
  }

  /** A write that starts inside a block starts in one the file already has. */
  lemma StartsMapped(sb: Superblock, f: Fs, n: nat, off: nat)
    requires Shape(sb, f) && Covered(sb, f) && n in f.inode && off <= f.inode[n].size && off % BSIZE != 0
    ensures Mapped(sb, f, n, off)
  {
    BelowSizeMapped(sb, f, n, off - 1);
    assert (off - 1) / BSIZE == off / BSIZE;
  }

  /** One chunk logs at most MAXOPBLOCKS blocks, wherever it starts and however the free
      blocks are spread over the bitmap. */
  lemma LogBound(sb: Superblock, f0: Fs, f: Fs, n: nat, off: nat, t: Tally, ib: nat)
    requires Accounted(sb, f0, f, n, off, t) && Covered(sb, f0) && off <= f0.inode[n].size && t.tried <= CHUNK
    ensures |t.log + {ib}| <= MAXOPBLOCKS
  {
    SpanBound(off, t.tried);
    if off % BSIZE != 0 { StartsMapped(sb, f0, n, off); }
    var ind := Indirect(f.inode[n]);
    var all := t.data + t.maps + ind + {ib};
    UnionSize(t.data, t.maps);
    UnionSize(t.data + t.maps, ind);
    UnionSize(t.data + t.maps + ind, {ib});
    SubsetSize(t.log + {ib}, all);
  }

  /** One call of writei() leaves alone what is past its count exactly when the readable bytes past
      the last block that they fill up are in the file already. */
  lemma WriteCleanIff(sb: Superblock, f: Fs, f': Fs, n: nat, off: nat, src: seq<Byte>, readable: nat, r: nat,
                      copied: nat)
    requires FileWritten(sb, f, f', n, off, src, copied, off + r) && readable < |src|
    requires Stopped(sb, f, f', n, off, |src|, readable, r, copied)
    ensures off <= f.inode[n].size && r <= |src|
    ensures Content(sb, f', n) == Overwrite(Content(sb, f, n), off, src[..r]) <==>
            Agrees(Content(sb, f, n), off, src, Kept(off, readable), readable)
  {
    hide BitsAgree, PointersOwned, OwnersPoint, Covered, AllUsed, Overwrite, Kept, MapOf;
    var c, now := Content(sb, f, n), Content(sb, f', n);
    CleanIff(c, off, src, copied, r, now);
    if copied == r && !Mapped(sb, f, n, off + r) {
      UnmappedPastEnd(sb, f, n, off + r);
    }
  }

  /** filewrite() of a source that cannot be read to its end leaves alone what is past its count
      exactly when it is refused for its size before it gets there, or the readable bytes past
      the last block that they fill up are in the file already. */
  lemma ShortWriteCleanIff(sb: Superblock, f: Fs, f': Fs, n: nat, off: nat, src: seq<Byte>, readable: nat, end: nat,
                           copied: nat)
    requires FileWritten(sb, f, f', n, off, src, copied, end) && readable < |src|
    requires StoppedChunks(sb, f, f', n, off, |src|, readable, end, copied)
    ensures off <= f.inode[n].size && off <= end <= off + |src|
    ensures Content(sb, f', n) == Overwrite(Content(sb, f, n), off, src[..end - off]) <==>
            !Fits(off, |src|, readable) || Agrees(Content(sb, f, n), off, src, KeptChunks(off, readable), readable)
  {
    hide BitsAgree, PointersOwned, OwnersPoint, Covered, AllUsed, Overwrite, KeptChunks;
    CleanIff(Content(sb, f, n), off, src, copied, end - off, Content(sb, f', n));
    if copied % CHUNK == 0 && copied <= readable {
      StopsBefore(off, |src|, readable, copied);
    }
  }

  /** A chunk that is refused for its size comes no later than the one that cannot be read. */
  lemma StopsBefore(off: nat, cnt: nat, readable: nat, i: nat)
    requires i % CHUNK == 0 && i <= readable && i < cnt
    ensures off + i + Min(cnt - i, CHUNK) > MAXBYTES ==> !Fits(off, cnt, readable)
  {
    assert i <= readable / CHUNK * CHUNK;
  }

  // ----- Truncation, block by block -----

  /** The blocks of addrs[..d] and of the first e entries. */
  ghost predicate Gone(f: Fs, n: nat, d: nat, e: nat, x: nat) {
    x in f.owner && f.owner[x].inum == n && if f.owner[x].Addr? then f.owner[x].i < d else f.owner[x].j < e
  }

  /** `blocks` is f.blocks with those bits cleared. */
  ghost predicate Partly(sb: Superblock, f: Fs, n: nat, d: nat, e: nat, blocks: seq<Block>) {
    && Inv(sb, f) && n in f.inode && |blocks| == sb.size
    && (forall x: nat :: sb.datastart <= x < sb.size ==> blocks[x] == f.blocks[x])
    && (forall x: nat :: x < sb.size ==> (InUse(sb, blocks, x) <==> InUse(sb, f.blocks, x) && !Gone(f, n, d, e, x)))
  }

  lemma NothingGone(sb: Superblock, f: Fs, n: nat)
    requires Inv(sb, f) && n in f.inode
    ensures Partly(sb, f, n, 0, 0, f.blocks)
  {
  }

  /** Visiting slot s adds just its own block to those gone. */
  lemma GoneStep(sb: Superblock, f: Fs, n: nat, d: nat, e: nat, s: Slot, x: nat)
    requires Inv(sb, f) && IsSlot(f, s) && (s == Addr(n, d) || s == Entry(n, e))
    ensures var (d', e') := if s.Addr? then (d + 1, e) else (d, e + 1);
            Gone(f, n, d', e', x) <==> Gone(f, n, d, e, x) || (Ptr(sb, f, s) != 0 && x == Ptr(sb, f, s))
    ensures Ptr(sb, f, s) != 0 ==>
              var b := Ptr(sb, f, s);
              b < sb.size && b in f.owner && f.owner[b] == s && !Gone(f, n, d, e, b) && InUse(sb, f.blocks, b)
  {
  }

  /** Freeing the block in the next slot: its bit is set, so bfree() does not panic. */
  lemma FreeStep(sb: Superblock, f: Fs, n: nat, d: nat, e: nat, blocks: seq<Block>, s: Slot)
    requires Partly(sb, f, n, d, e, blocks) && IsSlot(f, s)
    requires s == Addr(n, d) || s == Entry(n, e)
    ensures var b := Ptr(sb, f, s);
            var (d', e') := if s.Addr? then (d + 1, e) else (d, e + 1);
            if b == 0 then Partly(sb, f, n, d', e', blocks)
            else b < sb.size && InUse(sb, blocks, b) && Partly(sb, f, n, d', e', Released(sb, blocks, b))
  {
    hide BitsAgree, PointersOwned, OwnersPoint, Gone, Ptr;
    var b := Ptr(sb, f, s);
    var (d', e') := if s.Addr? then (d + 1, e) else (d, e + 1);
    GoneStep(sb, f, n, d, e, s, b);
    var blocks' := if b == 0 then blocks else Released(sb, blocks, b);
    if b != 0 { BitmapIsMeta(sb, b); }
    forall x: nat | x < sb.size
      ensures InUse(sb, blocks', x) <==> InUse(sb, f.blocks, x) && !Gone(f, n, d', e', x)
    {
      GoneStep(sb, f, n, d, e, s, x);
      if b != 0 { ReleasedBits(sb, blocks, b, x); }
    }
  }

  /** A file without an indirect block has no entries to free. */
  lemma NoEntries(sb: Superblock, f: Fs, n: nat, blocks: seq<Block>)
    requires Partly(sb, f, n, NDIRECT, 0, blocks) && f.inode[n].addrs[NDIRECT] == 0
    ensures Partly(sb, f, n, NDIRECT + 1, NINDIRECT, blocks)
  {
    forall x ensures Gone(f, n, NDIRECT + 1, NINDIRECT, x) <==> Gone(f, n, NDIRECT, 0, x) {
      if x in f.owner && f.owner[x].inum == n { assert Ptr(sb, f, f.owner[x]) == x; }
    }
  }

  /** When every slot was visited, exactly the file's own bits are cleared. */
  lemma AllFreed(sb: Superblock, f: Fs, n: nat, blocks: seq<Block>)
    requires Partly(sb, f, n, NDIRECT + 1, NINDIRECT, blocks) && Covered(sb, f)
    ensures BitsCleared(sb, f, n, blocks)
    ensures var f' := Emptied(f, n, blocks);
            && Inv(sb, f') && Covered(sb, f') && Content(sb, f', n) == []
            && OthersSame(sb, f, f', n)
  {
    forall x ensures Gone(f, n, NDIRECT + 1, NINDIRECT, x) <==> OwnedBy(f, n, x) {
    }
    EmptiedKeeps(sb, f, n, blocks);
    var f' := Emptied(f, n, blocks);
    forall m, bn: nat | m in f'.inode && bn < MAXFILE && bn * BSIZE < f'.inode[m].size
      ensures MapOf(sb, f', m, bn) != 0
    {
      assert m != n && MapOf(sb, f, m, bn) != 0;
      EmptiedPtr(sb, f, n, blocks, DataSlot(m, bn));
    }
    forall m | m in f.inode && m != n ensures Content(sb, f', m) == Content(sb, f, m) {
      forall k | 0 <= k < f.inode[m].size ensures Content(sb, f', m)[k] == Content(sb, f, m)[k] {
        EmptiedBytes(sb, f, n, blocks, m, k);
      }
    }
  }
}
