/** balloc, bfree, bmap, itrunc, readi, writei and filewrite of kernel/fs.c and kernel/file.c.
    A file is a sequence of bytes, and these loops act on it as such. */
module FsInode {
  import opened Basics
  import opened FsBytes
  import opened FsModel
  import opened FsContent
  import opened Params

  /** balloc()'s inner loop: the first clear bit of the bitmap block for group b. */
  method ScanGroup(sb: Superblock, blocks: seq<Block>, b: nat) returns (bi: nat)
    requires sb.Valid() && |blocks| == sb.size && b < sb.size && b % BPB == 0
    ensures b + bi < sb.size ==> AllUsed(sb, blocks, b, b + bi)
    ensures if bi < BPB && b + bi < sb.size then !InUse(sb, blocks, b + bi)
            else AllUsed(sb, blocks, b, Min(b + BPB, sb.size))
  {
    bi := 0;
    while bi < BPB && b + bi < sb.size
      invariant bi <= BPB && AllUsed(sb, blocks, b, Min(b + bi, sb.size))
    {
      BitInGroup(sb, blocks, b, bi);
      if !BitAt(blocks[sb.BBlock(b)], bi) {
        return;
      }
      bi := bi + 1;
    }
  }

  /** balloc(): the first free block, marked and zeroed, or 0. */
  method Balloc(sb: Superblock, blocks: seq<Block>) returns (r: nat, blocks': seq<Block>, ghost log: set<nat>)
    requires sb.Valid() && |blocks| == sb.size && InUse(sb, blocks, 0)
    ensures r == 0 ==> blocks' == blocks && AllUsed(sb, blocks, 0, sb.size)
    ensures r != 0 ==>
              r < sb.size && !InUse(sb, blocks, r) && AllUsed(sb, blocks, 0, r) && blocks' == Taken(sb, blocks, r)
    ensures log == if r == 0 then {} else {sb.BBlock(r), r}
  {
    var b := 0;
    while b < sb.size
      invariant b % BPB == 0 && AllUsed(sb, blocks, 0, Min(b, sb.size))
      decreases sb.size + BPB - b
    {
      var bi := ScanGroup(sb, blocks, b);
      if bi < BPB && b + bi < sb.size {
        AllUsedJoin(sb, blocks, b, b + bi);
        BitInGroup(sb, blocks, b, bi);
        blocks' := blocks[sb.BBlock(b) := SetBitAt(blocks[sb.BBlock(b)], bi, true)];
        blocks' := blocks'[b + bi := ZeroBlock()];
        return b + bi, blocks', {sb.BBlock(b), b + bi};
      }
      AllUsedJoin(sb, blocks, b, Min(b + BPB, sb.size));
      NextGroup(b);
      b := b + BPB;
    }
    return 0, blocks, {};
  }

  /** bfree(): the bit must be set; otherwise the kernel panics. */
  method Bfree(sb: Superblock, blocks: seq<Block>, b: nat) returns (blocks': seq<Block>, ghost log: set<nat>)
    requires sb.Valid() && |blocks| == sb.size && b < sb.size && InUse(sb, blocks, b)
    ensures blocks' == Released(sb, blocks, b) && log == {sb.BBlock(b)}
  {
    BitmapIsMeta(sb, b);
    blocks' := blocks[sb.BBlock(b) := SetBitAt(blocks[sb.BBlock(b)], b % BPB, false)];
    log := {sb.BBlock(b)};
  }

  /** bmap()'s "if the pointer is zero, allocate a block and store its number", for addrs[i]. */
  method FillAddr(sb: Superblock, f: Fs, n: nat, i: nat) returns (addr: nat, f': Fs, ghost log: set<nat>)
    requires Inv(sb, f) && n in f.inode && i <= NDIRECT
    ensures Filled(sb, f, f', Addr(n, i), addr)
    ensures log == (if f' == f then {} else {sb.BBlock(addr), addr}) && LogsChanges(f, f', log)
  {
    addr, f', log := f.inode[n].addrs[i], f, {};
    if addr == 0 {
      var blocks';
      addr, blocks', log := Balloc(sb, f.blocks);
      if addr == 0 {
        return;
      }
      var ip := f.inode[n];
      f' := Fs(blocks', f.inode[n := ip.(addrs := ip.addrs[i := addr])], f.owner[addr := Addr(n, i)]);
      assert f'.inode[n].addrs[i] != f.inode[n].addrs[i];
      FillLogs(sb, f, f', Addr(n, i), addr, log);
    }
  }

  /** The same for entry j of the indirect block. */
  method FillEntry(sb: Superblock, f: Fs, n: nat, j: nat) returns (addr: nat, f': Fs, ghost log: set<nat>)
    requires Inv(sb, f) && n in f.inode && j < NINDIRECT && f.inode[n].addrs[NDIRECT] != 0
    ensures Filled(sb, f, f', Entry(n, j), addr)
    ensures log == if f' == f then {} else {sb.BBlock(addr), addr, f.inode[n].addrs[NDIRECT]}
    ensures LogsChanges(f, f', log)
  {
    var ind := f.inode[n].addrs[NDIRECT];
    addr, f', log := WordAt(f.blocks[ind], j), f, {};
    if addr == 0 {
      var blocks';
      addr, blocks', log := Balloc(sb, f.blocks);
      if addr != 0 {
        f' := Fs(blocks'[ind := PutWord(blocks'[ind], j, addr)], f.inode, f.owner[addr := Entry(n, j)]);
        log := log + {ind};
        FreeIsUnowned(sb, f, addr);
        assert addr in f'.owner && addr !in f.owner;
        FillLogs(sb, f, f', Entry(n, j), addr, log);
      }
    }
  }

  /** bmap(): the block that holds block bn of file n, allocated if need be; 0 when the disk
      is full. `maps` are the bitmap blocks it logs. */
  method Bmap(sb: Superblock, f: Fs, n: nat, bn: nat)
    returns (addr: nat, f': Fs, ghost log: set<nat>, ghost maps: set<nat>)
    requires Inv(sb, f) && n in f.inode && bn < MAXFILE
    ensures Written(sb, f, f', n, 0, [])
    ensures addr == MapOf(sb, f', n, bn) && addr < sb.size
    ensures addr == 0 ==> AllUsed(sb, f'.blocks, 0, sb.size)
    ensures MapOf(sb, f, n, bn) != 0 ==> f' == f
    ensures Charged(f.inode[n], f'.inode[n], log, maps, addr, if MapOf(sb, f, n, bn) != 0 then 0 else 1)
    ensures LogsChanges(f, f', log)
  {
    hide Written, BitsAgree, PointersOwned, OwnersPoint, LogsChanges;
    if bn < NDIRECT {
      addr, f', log := FillAddr(sb, f, n, bn);
      AfterFill(sb, f, f', Addr(n, bn), addr);
      maps := if f' == f then {} else {sb.BBlock(addr)};
    } else {
      addr, f', log, maps := BmapIndirect(sb, f, n, bn - NDIRECT);
    }
  }

  method BmapIndirect(sb: Superblock, f: Fs, n: nat, j: nat)
    returns (addr: nat, f': Fs, ghost log: set<nat>, ghost maps: set<nat>)
    requires Inv(sb, f) && n in f.inode && j < NINDIRECT
    ensures Written(sb, f, f', n, 0, [])
    ensures addr == Ptr(sb, f', Entry(n, j)) && addr < sb.size
    ensures addr == 0 ==> AllUsed(sb, f'.blocks, 0, sb.size)
    ensures Ptr(sb, f, Entry(n, j)) != 0 ==> f' == f
    ensures Charged(f.inode[n], f'.inode[n], log, maps, addr, if Ptr(sb, f, Entry(n, j)) != 0 then 0 else 1)
    ensures LogsChanges(f, f', log)
  {
    hide Written, BitsAgree, PointersOwned, OwnersPoint, Charged, Ptr, CanAllocate, Allocated, Filled, AllUsed,
      LogsChanges;
    ghost var added := if Ptr(sb, f, Entry(n, j)) != 0 then 0 else 1;
    var ind, f1;
    ghost var log1;
    ind, f1, log1 := FillAddr(sb, f, n, NDIRECT);
    AfterFill(sb, f, f1, Addr(n, NDIRECT), ind);
    if ind == 0 {
      NoIndirect(sb, f, f1, n, j);
      ChargedBoth(f.inode[n], f1.inode[n], log1, {}, {}, 0, added);
      return 0, f1, log1, {};
    }
    IndirectFilled(sb, f, f1, n, ind, j);
    addr, f', log := FillEntry(sb, f1, n, j);
    EntryFilled(sb, f1, f', n, j, addr);
    AfterFill(sb, f1, f', Entry(n, j), addr);
    WrittenThen(sb, f, f1, f', n, 0, []);
    ghost var m1: set<nat> := if f1 == f then {} else {sb.BBlock(ind)};
    ghost var m2: set<nat> := if f' == f1 then {} else {sb.BBlock(addr)};
    LogsThen(f, f1, f', log1, log);
    assert log1 + log == log + log1;
    maps, log := m1 + m2, log + log1;
    ChargedEntry(f.inode[n], f'.inode[n], ind, addr, sb.BBlock(ind), sb.BBlock(addr), f1 != f, f' != f1);
    ChargedLess(f.inode[n], f'.inode[n], log, maps, addr, if f' != f1 then 1 else 0, added);
  }

  /** m bytes of file n from one block, as readi() copies them out. */
  method ReadPiece(sb: Superblock, f: Fs, n: nat, off: nat, m: nat) returns (d: seq<Byte>, f': Fs)
    requires Inv(sb, f) && Covered(sb, f) && n in f.inode
    requires 0 < m && off + m <= f.inode[n].size && off % BSIZE + m <= BSIZE
    ensures f' == f && |d| == m && Matches(Content(sb, f, n), off, d)
  {
    BelowSizeMapped(sb, f, n, off);
    PieceOfFile(sb, f, n, off, m);
    var addr;
    ghost var log, maps;
    addr, f', log, maps := Bmap(sb, f, n, off / BSIZE);
    d := f'.blocks[addr][off % BSIZE..off % BSIZE + m];
  }

  /** readi()'s loop. `writable` is how many bytes of the destination copyout can write before
      it meets an unmapped page; `dst` is what the destination has received. */
  method ReadAll(sb: Superblock, f: Fs, n: nat, off: nat, want: nat, writable: nat)
    returns (r: int, dst: seq<Byte>, f': Fs)
    requires Inv(sb, f) && Covered(sb, f) && n in f.inode && off + want <= f.inode[n].size
    ensures f' == f && |dst| == Min(want, writable) && Matches(Content(sb, f, n), off, dst)
    ensures r == if writable >= want then want else -1
  {
    hide BitsAgree, PointersOwned, OwnersPoint, Covered, Matches;
    MatchesNothing(Content(sb, f, n), off);
    f', dst := f, [];
    var tot := 0;
    while tot < want
      invariant f' == f && tot <= want && tot <= writable
      invariant |dst| == tot && Matches(Content(sb, f, n), off, dst)
    {
      var m := PieceSize(off + tot, want - tot);
      var d;
      d, f' := ReadPiece(sb, f', n, off + tot, m);
      if writable < tot + m {
        MatchesPart(Content(sb, f, n), off + tot, d, writable - tot);
        MatchesMore(Content(sb, f, n), off, dst, d[..writable - tot]);
        return -1, dst + d[..writable - tot], f';
      }
      MatchesMore(Content(sb, f, n), off, dst, d);
      dst := dst + d;
      tot := tot + m;
    }
    return tot, dst, f';
  }

  /** readi() */
  method Readi(sb: Superblock, f: Fs, n: nat, off: nat, cnt: nat, writable: nat)
    returns (r: int, dst: seq<Byte>, f': Fs)
    requires Inv(sb, f) && Covered(sb, f) && n in f.inode && off < WORD && cnt < WORD
    ensures f' == f
    ensures if off > f.inode[n].size || off + cnt >= WORD then r == 0 && dst == []
            else var want := Min(cnt, f.inode[n].size - off);
                 && dst == Content(sb, f, n)[off..off + Min(want, writable)]
                 && r == if writable >= want then want else -1
  {
    WrapsIff(off, cnt);
    var size := f.inode[n].size;
    if off > size || (off + cnt) % WORD < off {
      return 0, [], f;
    }
    r, dst, f' := ReadAll(sb, f, n, off, if off + cnt > size then size - off else cnt, writable);
  }

  /** One turn of writei()'s loop: the part of the data that falls in one block. `put` is how
      many bytes reached the block. When copyin stopped on the way the block is released
      without log_write; `logged` is the file system without those bytes. */
  method WritePiece(sb: Superblock, f: Fs, n: nat, off: nat, piece: seq<Byte>, readable: nat)
    returns (ok: bool, f': Fs, ghost put: nat, ghost logged: Fs,
             ghost addr: nat, ghost log: set<nat>, ghost maps: set<nat>)
    requires Inv(sb, f) && n in f.inode && 0 < |piece| && off % BSIZE + |piece| <= BSIZE && off / BSIZE < MAXFILE
    ensures ok ==> Written(sb, f, f', n, off, piece) && |piece| <= readable
    ensures put <= |piece| && Written(sb, f, f', n, off, piece[..put])
    ensures if ok then put == |piece| <= readable
            else (put == 0 && AllUsed(sb, f'.blocks, 0, sb.size) && !Mapped(sb, f, n, off)) || put == readable < |piece|
    ensures if ok then logged == f' else Written(sb, f, logged, n, off, []) && OneBlock(f', logged, addr)
    ensures addr == MapOf(sb, f', n, off / BSIZE) && LogsChanges(f, logged, log)
    ensures Charged(f.inode[n], f'.inode[n], log, maps, addr, if MapOf(sb, f, n, off / BSIZE) != 0 then 0 else 1)
  {
    hide Written, Inv, BitsAgree, PointersOwned, OwnersPoint, Spliced, MapOf;
    var b, f1;
    b, f1, log, maps := Bmap(sb, f, n, off / BSIZE);
    addr := b;
    WrittenMoved(sb, f, f1, n, off);
    WrittenFrame(sb, f, f1, n, off, []);
    if b == 0 {
      assert piece[..0] == [];
      return false, f1, 0, f1, addr, log, maps;
    }
    ok := |piece| <= readable;
    var d := if ok then piece else piece[..readable];
    put := |d|;
    assert d == piece[..put];
    RewrittenPiece(sb, f1, n, off, b, d);
    f' := f1.(blocks := f1.blocks[b := Spliced(f1.blocks[b], off % BSIZE, d)]);
    logged := if ok then f' else f1;
    WrittenThen(sb, f, f1, f', n, off, d);
    if ok {
      LogsThen(f, f1, f', log, {b});
      log := log + {b};
    }
  }

  /** writei()'s loop over the blocks that `src` falls in; `copied` counts the bytes that
      reached a block, which can be more than the count returned when copyin fails. The bytes
      past that count are in one block, which was not logged. */
  method WriteAll(sb: Superblock, f: Fs, n: nat, src: seq<Byte>, readable: nat, off: nat)
    returns (tot: nat, f': Fs, ghost copied: nat, ghost logged: Fs, ghost tally: Tally)
    requires Inv(sb, f) && n in f.inode && off + |src| <= MAXBYTES
    ensures tot <= |src| && (tot == |src| ==> Written(sb, f, f', n, off, src) && tot <= readable)
    ensures tot <= copied <= tally.tried <= |src|
    ensures Written(sb, f, f', n, off, src[..copied])
    ensures if tot == |src| then tot <= readable
            else Stopped(sb, f, f', n, off, |src|, readable, tot, copied)
    ensures Written(sb, f, logged, n, off, src[..tot])
    ensures if tot == |src| then logged == f' else OneBlock(f', logged, MapOf(sb, f', n, (off + tot) / BSIZE))
    ensures Accounted(sb, f, f', n, off, tally) && LogsChanges(f, logged, tally.log)
  {
    hide Written, Accounted, Charged, Inv, Stopped, AllUsed, MapOf, LogsChanges;
    LogsNothing(f);
    tot, f', copied, logged, tally := 0, f, 0, f, Tally(0, {}, {}, {});
    StartWrite(sb, f, n, off, src, readable);
    while tot < |src|
      invariant tot == copied <= |src| && logged == f' && Going(sb, f, f', n, off, src, readable, tot, tally)
      invariant LogsChanges(f, f', tally.log)
    {
      var m := PieceSize(off + tot, |src| - tot);
      NextPiece(off, tot, |src|);
      WrittenFrame(sb, f, f', n, off, src[..tot]);
      ghost var f1, put, addr, log, maps := f', 0, 0, {}, {};
      var ok;
      ok, f', put, logged, addr, log, maps := WritePiece(sb, f', n, off + tot, src[tot..tot + m], readable - tot);
      ghost var before := tally;
      LogsThen(f, f1, logged, tally.log, log);
      WriteStep(sb, f, f1, f', n, off, src, readable, tot, put, tally, log, addr, maps);
      tally := tally.Add(m, log, addr, maps);
      copied := tot + put;
      if !ok {
        WrittenFrame(sb, f1, f', n, off + tot, src[tot..tot + m][..put]);
        WriteStops(sb, f, f1, f', logged, n, off, src, readable, tot, put, before);
        return;
      }
      tot := tot + m;
    }
    assert src[..copied] == src;
  }

  /** What writei() refuses outright. */
  predicate BadWrite(size: nat, off: nat, n: nat) {
    off > size || off + n >= WORD || off + n > MAXBYTES
  }

  /** writei(): the count written, or -1. Of the bytes past that count only those copied before
      copyin failed can differ, and they are in `src` too. Their block was not logged: if it is
      not in the open transaction for another reason, they are gone when its buffer is recycled,
      and `logged` is what then remains. */
  method Writei(sb: Superblock, f: Fs, n: nat, src: seq<Byte>, readable: nat, off: nat)
    returns (r: int, f': Fs, ghost copied: nat, ghost logged: Fs, ghost log: set<nat>)
    requires Sound(sb, f) && n in f.inode && off < WORD && |src| < WORD
    ensures BadWrite(f.inode[n].size, off, |src|) ==> r == -1 && f' == f
    ensures r == |src| ==> FileWritten(sb, f, f', n, off, src, |src|, off + |src|)
    ensures if BadWrite(f.inode[n].size, off, |src|) then log == {}
            else && 0 <= r <= copied <= |src| && FileWritten(sb, f, f', n, off, src, copied, off + r)
                 && if r == |src| then r <= readable && logged == f'
                    else && OneBlock(f', logged, MapOf(sb, f', n, (off + r) / BSIZE))
                         && Stopped(sb, f, f', n, off, |src|, readable, r, copied)
    ensures if BadWrite(f.inode[n].size, off, |src|) then logged == f
            else r >= 0 && FileWritten(sb, f, logged, n, off, src, r, off + r) && sb.IBlock(n) in log
    ensures LogsChanges(f, logged, log) && (logged.inode != f.inode ==> sb.IBlock(n) in log)
    ensures |src| <= CHUNK ==> |log| <= MAXOPBLOCKS
  {
    hide Written, BitsAgree, PointersOwned, OwnersPoint, Covered, Accounted, FileWritten;
    WrapsIff(off, |src|);
    var size := f.inode[n].size;
    if off > size || (off + |src|) % WORD < off {
      return -1, f, 0, f, {};
    }
    if off + |src| > MAXBYTES {
      return -1, f, 0, f, {};
    }
    ghost var tally;
    r, f', copied, logged, tally := WriteAll(sb, f, n, src, readable, off);
    WrittenFrame(sb, f, f', n, off, src[..copied]);
    WrittenFrame(sb, f, logged, n, off, src[..r]);
    FinishWrite(sb, f, f', n, off, src, copied, r);
    FinishWrite(sb, f, logged, n, off, src, r, r);
    if |src| <= CHUNK { LogBound(sb, f, f', n, off, tally, sb.IBlock(n)); }
    f' := Resized(f', n, if off + r > size then off + r else size);
    logged := Resized(logged, n, if off + r > size then off + r else size);
    log := tally.log + {sb.IBlock(n)};
    assert LogsChanges(f, logged, log);
  }

  /** itrunc(): every block of the file is freed, once. */
  method Itrunc(sb: Superblock, f: Fs, n: nat) returns (f': Fs, ghost log: set<nat>)
    requires Inv(sb, f) && Covered(sb, f) && n in f.inode
    ensures BitsCleared(sb, f, n, f'.blocks) && f' == Emptied(f, n, f'.blocks)
    ensures Inv(sb, f') && Covered(sb, f') && Content(sb, f', n) == []
    ensures OthersSame(sb, f, f', n)
    ensures LogsChanges(f, f', log) && sb.IBlock(n) in log
  {
    hide BitsAgree, PointersOwned, OwnersPoint, Covered, InUse, Gone, BitsCleared;
    NothingGone(sb, f, n);
    ghost var bits: set<nat> := {};
    log := {};
    var blocks := f.blocks;
    var addrs := f.inode[n].addrs;
    for i := 0 to NDIRECT
      invariant Partly(sb, f, n, i, 0, blocks) && LogsChanges(f, f.(blocks := blocks), log)
    {
      FreeStep(sb, f, n, i, 0, blocks, Addr(n, i));
      if addrs[i] != 0 {
        blocks, bits := Bfree(sb, blocks, addrs[i]);
        log := log + bits;
      }
    }
    if addrs[NDIRECT] != 0 {
      IndirectOwned(sb, f, n);
      for j := 0 to NINDIRECT
        invariant Partly(sb, f, n, NDIRECT, j, blocks) && LogsChanges(f, f.(blocks := blocks), log)
      {
        FreeStep(sb, f, n, NDIRECT, j, blocks, Entry(n, j));
        var a := WordAt(blocks[addrs[NDIRECT]], j);
        if a != 0 {
          blocks, bits := Bfree(sb, blocks, a);
          log := log + bits;
        }
      }
      FreeStep(sb, f, n, NDIRECT, NINDIRECT, blocks, Addr(n, NDIRECT));
      blocks, bits := Bfree(sb, blocks, addrs[NDIRECT]);
      log := log + bits;
    } else {
      NoEntries(sb, f, n, blocks);
    }
    AllFreed(sb, f, n, blocks);
    f' := Emptied(f, n, blocks);
    log := log + {sb.IBlock(n)};
  }

  /** filewrite()'s loop: one transaction for each chunk of at most CHUNK bytes. The chunks
      together act as one write; each logs at most MAXOPBLOCKS blocks. `cnt` is the count that
      was asked for, which may be negative. */
  method WriteChunks(sb: Superblock, f: Fs, n: nat, src: seq<Byte>, cnt: int, readable: nat, off: nat)
    returns (ret: int, f': Fs, off': nat, ghost copied: nat)
    requires Sound(sb, f) && n in f.inode && off < WORD && cnt < WORD / 2 && |src| == Max(cnt, 0)
    ensures off <= off' <= off + copied && copied <= |src|
    ensures if off > f.inode[n].size then f' == f && off' == off
            else FileWritten(sb, f, f', n, off, src, copied, off')
    ensures ret == (if off' == off + cnt then cnt else -1) && ret <= readable
    ensures ret == -1 && off <= f.inode[n].size ==> StoppedChunks(sb, f, f', n, off, cnt, readable, off', copied)
  {
    hide Covered, BitsAgree, PointersOwned, OwnersPoint, FileWritten, Stopped, OneBlock, MapOf, AllUsed;
    f', off', copied := f, off, 0;
    var i := 0;
    if off <= f.inode[n].size { FileWrittenAtStart(sb, f, n, off, src); }
    while i < cnt
      invariant i == copied <= |src| && off' == off + i < WORD && i <= readable && (i < cnt ==> i % CHUNK == 0)
      invariant if off > f.inode[n].size then f' == f && i == 0 else FileWritten(sb, f, f', n, off, src, i, off')
    {
      var n1 := Min(cnt - i, CHUNK);
      var r;
      ghost var cp, log, kept, f1 := 0, {}, f', f';
      if off <= f.inode[n].size { FileWrittenSize(sb, f, f', n, off, src, i); }
      r, f', cp, kept, log := Writei(sb, f', n, src[i..i + n1], readable - i, off');
      assert |log| <= MAXOPBLOCKS;
      if r >= 0 {
        if r < n1 { ChunkStops(sb, f, f1, f', n, off, src, readable, i, r, cp); }
        FileWrittenTwice(sb, f, f1, f', n, off, src, i, n1, cp, off' + r);
        off', copied := off' + r, i + cp;
      }
      if r != n1 {
        break;
      }
      i := i + r;
    }
    ret := if i == cnt then cnt else -1;
  }
}
