/** The file system as the kernel keeps it: the state behind open files, changed in place by
    reads, writes, truncation and creation. */
module FsFiles {
  import opened FsBytes
  import opened FsModel
  import opened FsContent
  import opened FsInode

  /** A signed count passed as an unsigned one of 32 bits. */
  function Unsigned(n: int): nat
    requires -WORD <= n
  {
    if n < 0 then n + WORD else n
  }

  class OpenFile {
    var ip: nat
    var off: nat

    constructor (ip: nat, off: nat)
      ensures this.ip == ip && this.off == off
    {
      this.ip, this.off := ip, off;
    }
  }

  class FileSystem {
    const sb: Superblock
    var fs: Fs
    /** The inodes as last written to the inode blocks. */
    var dinode: map<nat, Inode>

    ghost predicate Valid()
      reads this
    {
      Sound(sb, fs) && dinode == fs.inode
    }

    ghost function Files(): map<nat, seq<Byte>>
      requires Inv(sb, fs)
      reads this
    {
      map n | n in fs.inode :: Content(sb, fs, n)
    }

    /** A fresh disk: only the metadata blocks are in use and there is no file. */
    constructor (sb: Superblock, blocks: seq<Block>)
      requires sb.Valid() && |blocks| == sb.size
      requires forall b: nat :: b < sb.size ==> (InUse(sb, blocks, b) <==> b < sb.datastart)
      ensures Valid() && this.sb == sb && Files() == map[]
    {
      this.sb, fs, dinode := sb, Fs(blocks, map[], map[]), map[];
    }

    /** ialloc(): the first free inode number from 1, or 0. */
    method Ialloc() returns (inum: nat)
      requires Valid()
      modifies this
      ensures Valid()
      ensures if inum == 0 then Files() == old(Files()) && forall i :: 1 <= i < sb.ninodes ==> i in fs.inode
              else inum < sb.ninodes && inum !in old(fs.inode) && Files() == old(Files())[inum := []]
    {
      inum := 1;
      while inum < sb.ninodes
        invariant 1 <= inum && forall i :: 1 <= i < inum ==> i in fs.inode
        invariant fs == old(fs) && dinode == old(dinode)
      {
        if inum !in dinode {
          CreatedKeeps(sb, fs, inum);
          fs := Created(fs, inum);
          dinode := fs.inode;
          return;
        }
        inum := inum + 1;
      }
      inum := 0;
    }

    /** fileread() on an inode, for a destination that is mapped as far as `writable`. A negative
        count is a large one to readi(). */
    method Fileread(f: OpenFile, n: int, writable: nat) returns (r: int, dst: seq<Byte>)
      requires Valid() && f.ip in fs.inode && f.off < WORD && -(WORD / 2) <= n < WORD / 2
      modifies this, f`off
      ensures Valid() && Files() == old(Files())
      ensures var c, cnt := Files()[f.ip], Unsigned(n);
              if old(f.off) > |c| || old(f.off) + cnt >= WORD then r == 0 && dst == [] && f.off == old(f.off)
              else var want := Min(cnt, |c| - old(f.off));
                   && dst == c[old(f.off)..old(f.off) + Min(want, writable)]
                   && r == (if writable >= want then want else -1)
                   && f.off == old(f.off) + if r > 0 then r else 0
    {
      r, dst, fs := Readi(sb, fs, f.ip, f.off, Unsigned(n), writable);
      if r > 0 {
        f.off := f.off + r;
      }
    }

    /** filewrite() on an inode. */
    method Filewrite(f: OpenFile, src: seq<Byte>, n: int, readable: nat) returns (ret: int, ghost copied: nat)
      requires Valid() && f.ip in fs.inode && f.off < WORD && n < WORD / 2 && |src| == Max(n, 0)
      modifies this, f`off
      ensures Valid() && f.ip in fs.inode
      ensures var c := old(Files())[f.ip];
              if old(f.off) > |c| then Files()[f.ip] == c && f.off == old(f.off)
              else Reached(c, old(f.off), src, copied, f.off, Files()[f.ip])
      ensures Files() == old(Files())[f.ip := Files()[f.ip]]
      ensures ret == if f.off == old(f.off) + n then n else -1
      ensures ret == -1 && old(f.off) <= |old(Files())[f.ip]| ==>
                StoppedChunks(sb, old(fs), fs, f.ip, old(f.off), n, readable, f.off, copied)
      ensures var c, off := old(Files())[f.ip], old(f.off);
              off <= |c| && readable < n ==>
                && ret == -1 && off <= f.off <= off + n
                && (Files()[f.ip] == Overwrite(c, off, src[..f.off - off]) <==>
                    !Fits(off, n, readable) || Agrees(c, off, src, KeptChunks(off, readable), readable))
    {
      hide BitsAgree, PointersOwned, OwnersPoint, Covered, StoppedChunks, Overwrite, KeptChunks, Agrees, Fits;
      ghost var c, off := Files()[f.ip], f.off;
      ret, fs, f.off, copied := WriteChunks(sb, fs, f.ip, src, n, readable, f.off);
      dinode := fs.inode;
      if off <= |c| && readable < n {
        ShortWriteCleanIff(sb, old(fs), fs, f.ip, off, src, readable, f.off, copied);
      }
    }

    /** itrunc() */
    method Truncate(n: nat)
      requires Valid() && n in fs.inode
      modifies this
      ensures Valid() && Files() == old(Files())[n := []]
      ensures BitsCleared(sb, old(fs), n, fs.blocks)
    {
      ghost var log;
      fs, log := Itrunc(sb, fs, n);
      dinode := fs.inode;
    }
  }

  /** What was written is what is read from the same place. */
  method WriteThenRead(fs: FileSystem, f: OpenFile, src: seq<Byte>, readable: nat, writable: nat)
    returns (ret: int, r: int, dst: seq<Byte>)
    requires fs.Valid() && f.ip in fs.fs.inode && f.off < WORD && |src| < WORD / 2
    modifies fs, f`off
    ensures fs.Valid() && f.ip in fs.fs.inode
    ensures ret == |src| <= writable ==> r == |src| && dst == src && f.off == old(f.off) + |src|
  {
    hide BitsAgree, PointersOwned, OwnersPoint, Covered, StoppedChunks, Overwrite, KeptChunks, Agrees;
    var off := f.off;
    ghost var c, copied := fs.Files()[f.ip], 0;
    ret, copied := fs.Filewrite(f, src, |src|, readable);
    if ret == |src| && off <= |c| {
      assert src[..copied] == src;
      ReachedAll(c, off, src, fs.Files()[f.ip]);
    }
    f.off := off;
    r, dst := fs.Fileread(f, |src|, writable);
  }

  /** Ones written over a block of zeros, of which only fifty can be read: however many are asked
      for, and be it more than a file can hold, the call fails and counts nothing, but the fifty
      are in the file. */
  method ShortWriteDirties(fs: FileSystem, f: OpenFile, n: nat) returns (ret: int)
    requires fs.Valid() && f.ip in fs.fs.inode && f.off == 0 && fs.Files()[f.ip] == seq(BSIZE, _ => 0)
    requires 50 < n < WORD / 2
    modifies fs, f`off
    ensures fs.Valid() && f.ip in fs.fs.inode && ret == -1 && f.off == 0
    ensures fs.Files()[f.ip] == seq(50, _ => 1) + seq(BSIZE - 50, _ => 0)
  {
    hide BitsAgree, PointersOwned, OwnersPoint, Covered, AllUsed, Agrees;
    ghost var copied;
    ret, copied := fs.Filewrite(f, seq(n, _ => 1), n, 50);
    assert seq(n, _ => 1)[..50] == seq<Byte>(50, _ => 1);
  }
}
