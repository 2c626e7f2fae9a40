/** The block and inode layers of kernel/fs.c as a value: disk blocks as the buffer cache
    shows them, and the inodes. An owner map records which pointer holds each data block in
    use; the invariant says it is the inverse of the pointers and agrees with the free map. */
module FsModel {
  import opened Basics
  import opened FsBytes

  const NDIRECT: nat := 12
  /** NDIRECT + NINDIRECT blocks, and as many bytes as they hold */
  const MAXFILE: nat := 268
  const MAXBYTES: nat := 274432
  const IPB: nat := 16

  datatype Superblock = Superblock(size: nat, ninodes: nat, inodestart: nat, bmapstart: nat, datastart: nat) {
    function BBlock(b: nat): nat { b / BPB + bmapstart }

    function IBlock(inum: nat): nat { inum / IPB + inodestart }

    predicate Valid() {
      && 0 < inodestart && 0 < size < WORD && datastart <= size
      && ninodes / IPB + inodestart < bmapstart
      && (size - 1) / BPB + bmapstart < datastart
    }
  }

  datatype Inode = Inode(size: nat, addrs: seq<nat>)

  /** A place that can hold a block number: addrs[i], or entry j of the indirect block. */
  datatype Slot = Addr(inum: nat, i: nat) | Entry(inum: nat, j: nat)

  datatype Fs = Fs(blocks: seq<Block>, inode: map<nat, Inode>, owner: map<nat, Slot>)

  // ----- Pointers -----

  ghost predicate Shape(sb: Superblock, f: Fs) {
    && sb.Valid() && |f.blocks| == sb.size
    && forall n :: n in f.inode ==> GoodInode(sb, f.inode[n])
  }

  predicate GoodInode(sb: Superblock, ip: Inode) {
    |ip.addrs| == NDIRECT + 1 && ip.addrs[NDIRECT] < sb.size && ip.size <= MAXBYTES
  }

  ghost predicate IsSlot(f: Fs, s: Slot) {
    s.inum in f.inode && if s.Addr? then s.i <= NDIRECT else s.j < NINDIRECT
  }

  /** The block number held in a slot; zero is "none". */
  ghost function Ptr(sb: Superblock, f: Fs, s: Slot): nat
    requires Shape(sb, f) && IsSlot(f, s)
  {
    match s
    case Addr(n, i) => f.inode[n].addrs[i]
    case Entry(n, j) =>
      var ind := f.inode[n].addrs[NDIRECT];
      if ind == 0 then 0 else WordAt(f.blocks[ind], j)
  }

  function DataSlot(n: nat, bn: nat): Slot {
    if bn < NDIRECT then Addr(n, bn) else Entry(n, bn - NDIRECT)
  }

  ghost function MapOf(sb: Superblock, f: Fs, n: nat, bn: nat): nat
    requires Shape(sb, f) && n in f.inode && bn < MAXFILE
  {
    Ptr(sb, f, DataSlot(n, bn))
  }

  // ----- Invariant -----

  ghost predicate InUse(sb: Superblock, blocks: seq<Block>, b: nat)
    requires sb.Valid() && |blocks| == sb.size && b < sb.size
  {
    BitAt(blocks[sb.BBlock(b)], b % BPB)
  }

  /** The bits set are those of the metadata blocks and of the owned blocks. */
  ghost predicate BitsAgree(sb: Superblock, f: Fs)
    requires sb.Valid() && |f.blocks| == sb.size
  {
    forall b: nat :: b < sb.size ==> (InUse(sb, f.blocks, b) <==> b < sb.datastart || b in f.owner)
  }

  /** Every pointer is recorded, so no block is held in two places. */
  ghost predicate PointersOwned(sb: Superblock, f: Fs)
    requires Shape(sb, f)
  {
    forall s :: IsSlot(f, s) && Ptr(sb, f, s) != 0 ==>
      Ptr(sb, f, s) in f.owner && f.owner[Ptr(sb, f, s)] == s
  }

  ghost predicate OwnersPoint(sb: Superblock, f: Fs)
    requires Shape(sb, f)
  {
    forall b :: b in f.owner ==>
      sb.datastart <= b < sb.size && IsSlot(f, f.owner[b]) && Ptr(sb, f, f.owner[b]) == b
  }

  /** Every block below a file's size is allocated. */
  ghost predicate Covered(sb: Superblock, f: Fs)
    requires Shape(sb, f)
  {
    forall n, bn: nat :: n in f.inode && bn < MAXFILE && bn * BSIZE < f.inode[n].size ==> MapOf(sb, f, n, bn) != 0
  }

  ghost predicate Inv(sb: Superblock, f: Fs) {
    && Shape(sb, f) && BitsAgree(sb, f) && PointersOwned(sb, f) && OwnersPoint(sb, f)
  }

  // ----- File contents -----

  ghost predicate Mapped(sb: Superblock, f: Fs, n: nat, k: nat)
    requires Shape(sb, f) && n in f.inode
  {
    k / BSIZE < MAXFILE && MapOf(sb, f, n, k / BSIZE) != 0
  }

  lemma MappedInRange(sb: Superblock, f: Fs, n: nat, bn: nat)
    requires Inv(sb, f) && n in f.inode && bn < MAXFILE && MapOf(sb, f, n, bn) != 0
    ensures var b := MapOf(sb, f, n, bn); b in f.owner && f.owner[b] == DataSlot(n, bn) && sb.datastart <= b < sb.size
  {
    assert IsSlot(f, DataSlot(n, bn));
  }

  /** Byte k of file n; bytes of blocks that are not allocated read as zero. */
  ghost function ByteAt(sb: Superblock, f: Fs, n: nat, k: nat): Byte
    requires Shape(sb, f) && n in f.inode
  {
    if Mapped(sb, f, n, k) && MapOf(sb, f, n, k / BSIZE) < sb.size
    then f.blocks[MapOf(sb, f, n, k / BSIZE)][k % BSIZE] else 0
  }

  /** A file is the sequence of its bytes. */
  ghost function Content(sb: Superblock, f: Fs, n: nat): (c: seq<Byte>)
    requires Shape(sb, f) && n in f.inode
    ensures |c| == f.inode[n].size
    ensures forall k :: 0 <= k < |c| ==> c[k] == ByteAt(sb, f, n, k)
  {
    seq(f.inode[n].size, k requires 0 <= k => ByteAt(sb, f, n, k))
  }

  lemma BelowSizeMapped(sb: Superblock, f: Fs, n: nat, k: nat)
    requires Shape(sb, f) && Covered(sb, f) && n in f.inode && k < f.inode[n].size
    ensures Mapped(sb, f, n, k)
  {
    assert k / BSIZE < MAXFILE && (k / BSIZE) * BSIZE < f.inode[n].size;
  }

  // ----- Allocating a block for a slot -----

  /** balloc's effect: the bit is set and the block is zeroed. */
  ghost function Taken(sb: Superblock, blocks: seq<Block>, b: nat): (r: seq<Block>)
    requires sb.Valid() && |blocks| == sb.size && b < sb.size
    ensures |r| == sb.size
  {
    blocks[sb.BBlock(b) := SetBitAt(blocks[sb.BBlock(b)], b % BPB, true)][b := ZeroBlock()]
  }

  /** Storing block number b in a slot. */
  ghost function Stored(sb: Superblock, f: Fs, s: Slot, b: nat): Fs
    requires Shape(sb, f) && IsSlot(f, s) && b < sb.size
    requires s.Entry? ==> f.inode[s.inum].addrs[NDIRECT] != 0
  {
    var ip := f.inode[s.inum];
    match s
    case Addr(n, i) => f.(inode := f.inode[n := ip.(addrs := ip.addrs[i := b])], owner := f.owner[b := s])
    case Entry(n, j) =>
      var ind := ip.addrs[NDIRECT];
      f.(blocks := f.blocks[ind := PutWord(f.blocks[ind], j, b)], owner := f.owner[b := s])
  }

  ghost predicate IsFree(sb: Superblock, f: Fs, b: nat)
    requires sb.Valid() && |f.blocks| == sb.size
  {
    b < sb.size && !InUse(sb, f.blocks, b)
  }

  ghost function Allocated(sb: Superblock, f: Fs, s: Slot, b: nat): Fs
    requires Shape(sb, f) && IsSlot(f, s) && b < sb.size
    requires s.Entry? ==> f.inode[s.inum].addrs[NDIRECT] != 0
  {
    Stored(sb, f.(blocks := Taken(sb, f.blocks, b)), s, b)
  }

  lemma BitmapIsMeta(sb: Superblock, x: nat)
    requires sb.Valid() && x < sb.size
    ensures sb.BBlock(x) < sb.datastart
  {
  }

  lemma TakenBits(sb: Superblock, blocks: seq<Block>, b: nat, x: nat)
    requires sb.Valid() && |blocks| == sb.size && sb.datastart <= b < sb.size && x < sb.size
    ensures InUse(sb, Taken(sb, blocks, b), x) == (x == b || InUse(sb, blocks, x))
  {
    BitmapIsMeta(sb, x);
    BitmapIsMeta(sb, b);
    SetBitAtBits(blocks[sb.BBlock(b)], b % BPB, true, x % BPB);
    SameDivMod(x, b);
  }

  /** What balloc may hand out for slot s: a free block, and a place to put its number. */
  ghost predicate CanAllocate(sb: Superblock, f: Fs, s: Slot, b: nat) {
    && Inv(sb, f) && IsFree(sb, f, b) && IsSlot(f, s) && Ptr(sb, f, s) == 0
    && (s.Entry? ==> f.inode[s.inum].addrs[NDIRECT] != 0)
  }

  lemma FreeIsUnowned(sb: Superblock, f: Fs, b: nat)
    requires Inv(sb, f) && IsFree(sb, f, b)
    ensures sb.datastart <= b < sb.size && b !in f.owner
  {
  }

  lemma IndirectOwned(sb: Superblock, f: Fs, n: nat)
    requires Inv(sb, f) && n in f.inode && f.inode[n].addrs[NDIRECT] != 0
    ensures var ind := f.inode[n].addrs[NDIRECT];
            ind in f.owner && f.owner[ind] == Addr(n, NDIRECT) && sb.datastart <= ind < sb.size
  {
    assert IsSlot(f, Addr(n, NDIRECT));
    assert Ptr(sb, f, Addr(n, NDIRECT)) != 0;
  }

  lemma AllocShape(sb: Superblock, f: Fs, s: Slot, b: nat)
    requires CanAllocate(sb, f, s, b)
    ensures var f' := Allocated(sb, f, s, b); Shape(sb, f') && forall t :: IsSlot(f', t) <==> IsSlot(f, t)
  {
  }

  /** The indirect block of any file, after slot s was given block b. */
  lemma AllocIndirect(sb: Superblock, f: Fs, s: Slot, b: nat, n: nat, j: nat)
    requires CanAllocate(sb, f, s, b) && n in f.inode && j < NINDIRECT && f.inode[n].addrs[NDIRECT] != 0
    ensures var f' := Allocated(sb, f, s, b);
            var ind := f.inode[n].addrs[NDIRECT];
            ind != b && ind < |f'.blocks| &&
            WordAt(f'.blocks[ind], j) == if s == Entry(n, j) then b else WordAt(f.blocks[ind], j)
  {
    var ind := f.inode[n].addrs[NDIRECT];
    TakenLeaves(sb, f, b, n);
    if s.Entry? {
      TakenLeaves(sb, f, b, s.inum);
      PutWordAt(f.blocks[ind], s.j, b, j);
    }
  }

  /** Taking a free block touches no indirect block, and indirect blocks are not shared. */
  lemma TakenLeaves(sb: Superblock, f: Fs, b: nat, n: nat)
    requires Inv(sb, f) && IsFree(sb, f, b) && n in f.inode && f.inode[n].addrs[NDIRECT] != 0
    ensures var ind := f.inode[n].addrs[NDIRECT];
            ind != b && ind < sb.size && Taken(sb, f.blocks, b)[ind] == f.blocks[ind] &&
            ind in f.owner && f.owner[ind] == Addr(n, NDIRECT)
  {
    FreeIsUnowned(sb, f, b);
    BitmapIsMeta(sb, b);
    IndirectOwned(sb, f, n);
  }

  lemma NewIndirectIsEmpty(sb: Superblock, f: Fs, n: nat, b: nat, j: nat)
    requires CanAllocate(sb, f, Addr(n, NDIRECT), b) && j < NINDIRECT
    ensures WordAt(Allocated(sb, f, Addr(n, NDIRECT), b).blocks[b], j) == 0
  {
    FreeIsUnowned(sb, f, b);
    ZeroWords(j);
  }

  /** The new pointer is set and every other one is as it was; in particular the entries of
      a new indirect block are all zero. */
  lemma AllocPtr(sb: Superblock, f: Fs, s: Slot, b: nat, t: Slot)
    requires CanAllocate(sb, f, s, b) && IsSlot(f, t)
    ensures var f' := Allocated(sb, f, s, b);
            Shape(sb, f') && IsSlot(f', t) && Ptr(sb, f', t) == if t == s then b else Ptr(sb, f, t)
  {
    AllocShape(sb, f, s, b);
    if t.Entry? {
      if f.inode[t.inum].addrs[NDIRECT] != 0 {
        AllocIndirect(sb, f, s, b, t.inum, t.j);
      } else if s == Addr(t.inum, NDIRECT) {
        NewIndirectIsEmpty(sb, f, t.inum, b, t.j);
      }
    }
  }

  /** Blocks owned by data slots keep their contents. */
  lemma AllocBlocks(sb: Superblock, f: Fs, s: Slot, b: nat, x: nat)
    requires CanAllocate(sb, f, s, b) && x in f.owner
    requires f.owner[x].Addr? ==> f.owner[x].i < NDIRECT
    ensures x < sb.size && Allocated(sb, f, s, b).blocks[x] == f.blocks[x]
  {
    FreeIsUnowned(sb, f, b);
    BitmapIsMeta(sb, b);
    assert Taken(sb, f.blocks, b)[x] == f.blocks[x];
    if s.Entry? { IndirectOwned(sb, f, s.inum); }
  }

  lemma AllocBitAt(sb: Superblock, f: Fs, s: Slot, b: nat, x: nat)
    requires CanAllocate(sb, f, s, b) && x < sb.size
    ensures var f' := Allocated(sb, f, s, b);
            |f'.blocks| == sb.size && InUse(sb, f'.blocks, x) == (x == b || InUse(sb, f.blocks, x))
  {
    FreeIsUnowned(sb, f, b);
    TakenBits(sb, f.blocks, b, x);
    if s.Entry? {
      IndirectOwned(sb, f, s.inum);
      BitmapIsMeta(sb, x);
    }
  }

  lemma AllocBits(sb: Superblock, f: Fs, s: Slot, b: nat)
    requires CanAllocate(sb, f, s, b)
    ensures var f' := Allocated(sb, f, s, b); |f'.blocks| == sb.size && BitsAgree(sb, f')
  {
    var f' := Allocated(sb, f, s, b);
    assert f'.owner == f.owner[b := s];
    forall x: nat | x < sb.size
      ensures InUse(sb, f'.blocks, x) <==> x < sb.datastart || x in f'.owner
    {
      AllocBitAt(sb, f, s, b, x);
    }
  }

  lemma AllocPointers(sb: Superblock, f: Fs, s: Slot, b: nat)
    requires CanAllocate(sb, f, s, b)
    ensures var f' := Allocated(sb, f, s, b); Shape(sb, f') && PointersOwned(sb, f')
  {
    var f' := Allocated(sb, f, s, b);
    AllocShape(sb, f, s, b);
    assert f'.owner == f.owner[b := s];
    FreeIsUnowned(sb, f, b);
    forall t | IsSlot(f', t) && Ptr(sb, f', t) != 0
      ensures Ptr(sb, f', t) in f'.owner && f'.owner[Ptr(sb, f', t)] == t
    {
      AllocPtr(sb, f, s, b, t);
    }
  }

  lemma AllocOwnerAt(sb: Superblock, f: Fs, s: Slot, b: nat, x: nat)
    requires CanAllocate(sb, f, s, b) && (x == b || x in f.owner)
    ensures var f' := Allocated(sb, f, s, b);
            && Shape(sb, f') && f'.owner == f.owner[b := s]
            && sb.datastart <= x < sb.size && IsSlot(f', f'.owner[x]) && Ptr(sb, f', f'.owner[x]) == x
  {
    hide BitsAgree, PointersOwned, Ptr, IsFree;
    FreeIsUnowned(sb, f, b);
    AllocPtr(sb, f, s, b, if x == b then s else f.owner[x]);
  }

  lemma AllocOwners(sb: Superblock, f: Fs, s: Slot, b: nat)
    requires CanAllocate(sb, f, s, b)
    ensures var f' := Allocated(sb, f, s, b); Shape(sb, f') && OwnersPoint(sb, f')
  {
    var f' := Allocated(sb, f, s, b);
    AllocShape(sb, f, s, b);
    assert f'.owner == f.owner[b := s];
    forall x | x in f'.owner
      ensures sb.datastart <= x < sb.size && IsSlot(f', f'.owner[x]) && Ptr(sb, f', f'.owner[x]) == x
    {
      AllocOwnerAt(sb, f, s, b, x);
    }
  }

  lemma AllocKeeps(sb: Superblock, f: Fs, s: Slot, b: nat)
    requires CanAllocate(sb, f, s, b)
    ensures Inv(sb, Allocated(sb, f, s, b))
  {
    AllocBits(sb, f, s, b);
    AllocPointers(sb, f, s, b);
    AllocOwners(sb, f, s, b);
  }

  /** Allocation changes no byte of any file's allocated blocks. */
  lemma AllocBytes(sb: Superblock, f: Fs, s: Slot, b: nat, n: nat, k: nat)
    requires CanAllocate(sb, f, s, b) && n in f.inode && Mapped(sb, f, n, k)
    ensures var f' := Allocated(sb, f, s, b);
            Shape(sb, f') && n in f'.inode && Mapped(sb, f', n, k) && ByteAt(sb, f', n, k) == ByteAt(sb, f, n, k)
  {
    var t := DataSlot(n, k / BSIZE);
    AllocPtr(sb, f, s, b, t);
    MappedInRange(sb, f, n, k / BSIZE);
    AllocBlocks(sb, f, s, b, Ptr(sb, f, t));
  }

  // ----- Writing file data -----

  /** Replacing the contents of data block bn of file n. */
  ghost function Rewritten(sb: Superblock, f: Fs, n: nat, bn: nat, data: Block): Fs
    requires Shape(sb, f) && n in f.inode && bn < MAXFILE && MapOf(sb, f, n, bn) < sb.size
  {
    f.(blocks := f.blocks[MapOf(sb, f, n, bn) := data])
  }

  ghost predicate CanRewrite(sb: Superblock, f: Fs, n: nat, bn: nat) {
    Inv(sb, f) && n in f.inode && bn < MAXFILE && MapOf(sb, f, n, bn) != 0 && MapOf(sb, f, n, bn) < sb.size
  }

  lemma RewritePtr(sb: Superblock, f: Fs, n: nat, bn: nat, data: Block, t: Slot)
    requires CanRewrite(sb, f, n, bn) && IsSlot(f, t)
    ensures var f' := Rewritten(sb, f, n, bn, data);
            Shape(sb, f') && IsSlot(f', t) && Ptr(sb, f', t) == Ptr(sb, f, t)
  {
    MappedInRange(sb, f, n, bn);
    if t.Entry? && f.inode[t.inum].addrs[NDIRECT] != 0 { IndirectOwned(sb, f, t.inum); }
  }

  lemma RewriteBits(sb: Superblock, f: Fs, n: nat, bn: nat, data: Block)
    requires CanRewrite(sb, f, n, bn)
    ensures BitsAgree(sb, Rewritten(sb, f, n, bn, data))
  {
    var f' := Rewritten(sb, f, n, bn, data);
    MappedInRange(sb, f, n, bn);
    forall x: nat | x < sb.size ensures InUse(sb, f'.blocks, x) <==> x < sb.datastart || x in f'.owner {
      BitmapIsMeta(sb, x);
      assert InUse(sb, f'.blocks, x) == InUse(sb, f.blocks, x);
    }
  }

  lemma RewriteKeeps(sb: Superblock, f: Fs, n: nat, bn: nat, data: Block)
    requires CanRewrite(sb, f, n, bn)
    ensures Inv(sb, Rewritten(sb, f, n, bn, data))
  {
    var f' := Rewritten(sb, f, n, bn, data);
    RewriteBits(sb, f, n, bn, data);
    forall t | IsSlot(f, t) ensures Ptr(sb, f', t) == Ptr(sb, f, t) {
      RewritePtr(sb, f, n, bn, data, t);
    }
  }

  /** Only block bn of file n reads differently. */
  lemma RewriteBytes(sb: Superblock, f: Fs, n: nat, bn: nat, data: Block, m: nat, k: nat)
    requires CanRewrite(sb, f, n, bn) && m in f.inode
    ensures var f' := Rewritten(sb, f, n, bn, data);
            Shape(sb, f') && Mapped(sb, f', m, k) == Mapped(sb, f, m, k) &&
            ByteAt(sb, f', m, k) == if m == n && k / BSIZE == bn then data[k % BSIZE] else ByteAt(sb, f, m, k)
  {
    MappedInRange(sb, f, n, bn);
    assert IsSlot(f, DataSlot(n, bn));
    RewritePtr(sb, f, n, bn, data, DataSlot(n, bn));
    if k / BSIZE < MAXFILE {
      RewritePtr(sb, f, n, bn, data, DataSlot(m, k / BSIZE));
      if MapOf(sb, f, m, k / BSIZE) != 0 { MappedInRange(sb, f, m, k / BSIZE); }
    }
  }

  // ----- Progress of a write -----

  /** f is f0 with `data` put at offset `off` of file n; sizes are as they were. */
  ghost predicate Written(sb: Superblock, f0: Fs, f: Fs, n: nat, off: nat, data: seq<Byte>) {
    && Inv(sb, f0) && Inv(sb, f) && n in f0.inode && n in f.inode
    && (forall m :: m in f0.inode ==> m in f.inode && (m != n ==> f.inode[m] == f0.inode[m]))
    && (forall m :: m in f.inode ==> m in f0.inode)
    && f.inode[n].size == f0.inode[n].size
    && (forall m, k: nat :: m in f0.inode && Mapped(sb, f0, m, k) ==>
          Mapped(sb, f, m, k) &&
          (m != n || k < off || off + |data| <= k ==> ByteAt(sb, f, m, k) == ByteAt(sb, f0, m, k)))
    && (forall k: nat :: off <= k < off + |data| ==> Mapped(sb, f, n, k) && ByteAt(sb, f, n, k) == data[k - off])
  }

  lemma WrittenNothing(sb: Superblock, f: Fs, n: nat, off: nat)
    requires Inv(sb, f) && n in f.inode
    ensures Written(sb, f, f, n, off, [])
  {
  }

  lemma WrittenTwice(sb: Superblock, f0: Fs, f1: Fs, f2: Fs, n: nat, off: nat, d1: seq<Byte>, d2: seq<Byte>)
    requires Written(sb, f0, f1, n, off, d1) && Written(sb, f1, f2, n, off + |d1|, d2)
    ensures Written(sb, f0, f2, n, off, d1 + d2)
  {
  }

  lemma WrittenByAlloc(sb: Superblock, f: Fs, n: nat, s: Slot, b: nat, off: nat)
    requires CanAllocate(sb, f, s, b) && s.inum == n
    ensures Written(sb, f, Allocated(sb, f, s, b), n, off, [])
  {
    var f' := Allocated(sb, f, s, b);
    AllocKeeps(sb, f, s, b);
    forall m, k: nat | m in f.inode && Mapped(sb, f, m, k)
      ensures Mapped(sb, f', m, k) && ByteAt(sb, f', m, k) == ByteAt(sb, f, m, k)
    {
      AllocBytes(sb, f, s, b, m, k);
    }
  }

  lemma WrittenByRewrite(sb: Superblock, f: Fs, n: nat, off: nat, d: seq<Byte>)
    requires CanRewrite(sb, f, n, off / BSIZE) && off % BSIZE + |d| <= BSIZE
    ensures var bn := off / BSIZE;
            var data := Spliced(f.blocks[MapOf(sb, f, n, bn)], off % BSIZE, d);
            Written(sb, f, Rewritten(sb, f, n, bn, data), n, off, d)
  {
    var bn := off / BSIZE;
    var data := Spliced(f.blocks[MapOf(sb, f, n, bn)], off % BSIZE, d);
    var f' := Rewritten(sb, f, n, bn, data);
    RewriteKeeps(sb, f, n, bn, data);
    forall m, k: nat | m in f.inode && Mapped(sb, f, m, k)
      ensures Mapped(sb, f', m, k)
      ensures m != n || k < off || off + |d| <= k ==> ByteAt(sb, f', m, k) == ByteAt(sb, f, m, k)
    {
      RewriteBytes(sb, f, n, bn, data, m, k);
      if m == n && k / BSIZE == bn { InBlock(off, k); }
    }
    forall k: nat | off <= k < off + |d|
      ensures Mapped(sb, f', n, k) && ByteAt(sb, f', n, k) == d[k - off]
    {
      InBlock(off, k);
      assert k / BSIZE == bn;
      RewriteBytes(sb, f, n, bn, data, n, k);
    }
  }

  lemma InBlock(off: nat, k: nat)
    ensures k / BSIZE == off / BSIZE ==> k % BSIZE - off % BSIZE == k - off
    ensures off <= k < off - off % BSIZE + BSIZE ==> k / BSIZE == off / BSIZE
  {
  }

  // ----- Truncation -----

  ghost function Released(sb: Superblock, blocks: seq<Block>, b: nat): (r: seq<Block>)
    requires sb.Valid() && |blocks| == sb.size && b < sb.size
    ensures |r| == sb.size
  {
    blocks[sb.BBlock(b) := SetBitAt(blocks[sb.BBlock(b)], b % BPB, false)]
  }

  lemma ReleasedBits(sb: Superblock, blocks: seq<Block>, b: nat, x: nat)
    requires sb.Valid() && |blocks| == sb.size && b < sb.size && x < sb.size
    ensures InUse(sb, Released(sb, blocks, b), x) == (x != b && InUse(sb, blocks, x))
  {
    BitmapIsMeta(sb, x);
    if x / BPB == b / BPB {
      SetBitAtBits(blocks[sb.BBlock(b)], b % BPB, false, x % BPB);
      SameDivMod(x, b);
    } else {
      assert sb.BBlock(x) != sb.BBlock(b);
    }
  }

  ghost predicate OwnedBy(f: Fs, n: nat, b: nat) {
    b in f.owner && f.owner[b].inum == n
  }

  function NoAddrs(): (a: seq<nat>)
    ensures |a| == NDIRECT + 1 && forall i :: 0 <= i <= NDIRECT ==> a[i] == 0
  {
    seq(NDIRECT + 1, _ => 0)
  }

  /** File n emptied; the free map is given by `blocks`. */
  function Emptied(f: Fs, n: nat, blocks: seq<Block>): Fs {
    Fs(blocks, f.inode[n := Inode(0, NoAddrs())], map b | b in f.owner && f.owner[b].inum != n :: f.owner[b])
  }

  /** `blocks` is f.blocks with exactly file n's bits cleared. */
  ghost predicate BitsCleared(sb: Superblock, f: Fs, n: nat, blocks: seq<Block>) {
    && sb.Valid() && |blocks| == |f.blocks| == sb.size
    && (forall x: nat :: sb.datastart <= x < sb.size ==> blocks[x] == f.blocks[x])
    && (forall x: nat :: x < sb.size ==> (InUse(sb, blocks, x) <==> InUse(sb, f.blocks, x) && !OwnedBy(f, n, x)))
  }

  lemma EmptiedPtr(sb: Superblock, f: Fs, n: nat, blocks: seq<Block>, t: Slot)
    requires Inv(sb, f) && n in f.inode && BitsCleared(sb, f, n, blocks) && IsSlot(f, t)
    ensures var f' := Emptied(f, n, blocks);
            Shape(sb, f') && IsSlot(f', t) && Ptr(sb, f', t) == if t.inum == n then 0 else Ptr(sb, f, t)
  {
    if t.Entry? && f.inode[t.inum].addrs[NDIRECT] != 0 { IndirectOwned(sb, f, t.inum); }
  }

  lemma EmptiedKeeps(sb: Superblock, f: Fs, n: nat, blocks: seq<Block>)
    requires Inv(sb, f) && n in f.inode && BitsCleared(sb, f, n, blocks)
    ensures Inv(sb, Emptied(f, n, blocks))
  {
    var f' := Emptied(f, n, blocks);
    EmptiedPtr(sb, f, n, blocks, Addr(n, 0));
    forall t | IsSlot(f', t) && Ptr(sb, f', t) != 0
      ensures Ptr(sb, f', t) in f'.owner && f'.owner[Ptr(sb, f', t)] == t
    {
      EmptiedPtr(sb, f, n, blocks, t);
    }
    forall b | b in f'.owner
      ensures sb.datastart <= b < sb.size && IsSlot(f', f'.owner[b]) && Ptr(sb, f', f'.owner[b]) == b
    {
      EmptiedPtr(sb, f, n, blocks, f.owner[b]);
    }
  }

  lemma EmptiedBytes(sb: Superblock, f: Fs, n: nat, blocks: seq<Block>, m: nat, k: nat)
    requires Inv(sb, f) && n in f.inode && BitsCleared(sb, f, n, blocks) && m in f.inode && m != n
    ensures var f' := Emptied(f, n, blocks);
            Shape(sb, f') && Mapped(sb, f', m, k) == Mapped(sb, f, m, k) && ByteAt(sb, f', m, k) == ByteAt(sb, f, m, k)
  {
    EmptiedPtr(sb, f, n, blocks, Addr(n, 0));
    if k / BSIZE < MAXFILE {
      EmptiedPtr(sb, f, n, blocks, DataSlot(m, k / BSIZE));
      if MapOf(sb, f, m, k / BSIZE) != 0 { MappedInRange(sb, f, m, k / BSIZE); }
    }
  }

  // ----- New and removed files -----

  function Created(f: Fs, n: nat): Fs {
    f.(inode := f.inode[n := Inode(0, NoAddrs())])
  }

  lemma CreatedPtr(sb: Superblock, f: Fs, n: nat, t: Slot)
    requires Inv(sb, f) && n !in f.inode && IsSlot(Created(f, n), t)
    ensures Shape(sb, Created(f, n))
    ensures if t.inum == n then Ptr(sb, Created(f, n), t) == 0
            else IsSlot(f, t) && Ptr(sb, Created(f, n), t) == Ptr(sb, f, t)
  {
  }

  lemma CreatedKeeps(sb: Superblock, f: Fs, n: nat)
    requires Inv(sb, f) && Covered(sb, f) && n !in f.inode
    ensures var f' := Created(f, n);
            && Inv(sb, f') && Covered(sb, f') && Content(sb, f', n) == []
            && forall m :: m in f.inode ==> Content(sb, f', m) == Content(sb, f, m)
  {
    var f' := Created(f, n);
    forall t | IsSlot(f', t)
      ensures if t.inum == n then Ptr(sb, f', t) == 0 else IsSlot(f, t) && Ptr(sb, f', t) == Ptr(sb, f, t)
    {
      CreatedPtr(sb, f, n, t);
    }
    assert forall b :: b in f.owner ==> f.owner[b].inum != n;
    forall m, bn: nat | m in f'.inode && bn < MAXFILE && bn * BSIZE < f'.inode[m].size
      ensures MapOf(sb, f', m, bn) != 0
    {
      assert m != n && MapOf(sb, f, m, bn) != 0 && IsSlot(f', DataSlot(m, bn));
    }
    forall m | m in f.inode ensures Content(sb, f', m) == Content(sb, f, m) {
      forall k: nat | k < f.inode[m].size ensures ByteAt(sb, f', m, k) == ByteAt(sb, f, m, k) {
        if k / BSIZE < MAXFILE { assert IsSlot(f', DataSlot(m, k / BSIZE)); }
      }
    }
  }
}
