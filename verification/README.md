# Verified models of an xv6 kernel

This project models the parts of an xv6-riscv kernel, and of two of its user programs, whose
correctness rests on invariants over whole runs, and proves those invariants and what follows
from them. `dafny verify dfyconfig.toml` checks everything.

| files | what they model |
|---|---|
| `Log*.dfy` | the write-ahead log: group commit, crashes between any two block writes, recovery, the reservation of log space, log and buffer cache together (`LogCache.dfy`), and the buffers that a commit needs (`LogBuffers.dfy`) |
| `Bcache*.dfy` | the buffer cache under any number of processes, and its linked list |
| `Fs*.dfy` | block bitmap, inodes with direct and indirect blocks, files as byte sequences |
| `Vm*.dfy` | Sv39 page tables (section 4.4 of the RISC-V Privileged Architecture, version 20211203), the frame allocator, and the address spaces of all processes |
| `Mlfq*.dfy` | the multi-level feedback queue scheduler on one hart |
| `SleepLock.dfy`, `ExitWait*.dfy` | sleeplocks, and fork, exit and wait, for any number of processes on any number of harts |
| `Virtio*.dfy` | the disk driver's descriptor chains and rings (sections 2.6 and 5.2 of VIRTIO 1.1) |
| `Umalloc*.dfy` | the user allocator (section 8.7 of Kernighan and Ritchie, The C Programming Language, second edition) |
| `Shell*.dfy` | the shell's command parser, and the grammar that it accepts |
| `Lottery.dfy`, `Alarm.dfy` | the lottery scheduler and alarms |
| `Basics.dfy`, `Params.dfy` | what several parts share |

How the parts are built:

- A protocol with several actors is a state machine: a state, actions, `Enabled` and `Do`, an
  invariant that every step keeps, and theorems over every run. What a run means is said
  independently of the state, for example by the sequence of its writes.
- Code with loops is a method with those loops, proved to compute a step or a function of the
  specification. Where the source changes a global structure in place, the method belongs to
  a class that has that structure as its fields.
- Disjointness is carried by a map in the direction opposite to the pointers: from blocks to
  the pointer that owns them, from frames to their role, from heap units to their block.
- Panics are preconditions where a caller must avoid them, and are proved unreachable where
  the code promises that. I/O, interrupts, `rand`, `sbrk` and crashes are actions or parameters.

Where the code does not do what one would expect, it is modelled as it is:

- With the log size that `mkfs` writes, `log_write` can panic although every operation keeps to
  its reservation; it never does if and only if log.size > LOGSIZE (`LogSpace.PanicFreeIffLargeLog`).
  A larger log is no remedy: it can then pin all buffers, since NBUF is LOGSIZE, and the commit
  panics in `bget` (`LogBuffers.NoLogSizeIsSafe`).
- In a larger log a write to a block that is already in the log can panic, for exactly the operations
  that have used up their reservation (`LogSpace.AbsorbedPanicsIff`).
- A write that stops inside a block because the source is unreadable may change bytes beyond
  the count it returns (`FsFiles.ShortWriteDirties`, and `FsContent.ShortWriteCleanIff` for when it
  does not). Their buffer is released without log_write. If the block is not in the open
  transaction they last only until the buffer is recycled, and the ghost result `logged` of
  `FsInode.Writei` is what remains; if it is, the commit writes them with the rest of the block.
- The priority boost skips the entry after each one it removes (`MlfqBoost.BoostMoves`), so it
  takes up to seven boosts to reach a process (`MlfqStarvation.SevenBoosts`).
- The lottery draws from one number more than there are tickets (`Lottery.OneIdleDraw`).
- `malloc` of 2 GB or nearly so asks `sbrk` for something else than it records (`Umalloc.RequestFits`).
- `sigalarm` does not restart the tick count (`Alarm.FirstAlarm`).
- The shell does not accept `a & b`: after `&` it wants `;` or the end of the line
  (`ShellTyped.NothingAfterBack`, `ShellTyped.BackThenNext`).

## Model

| member | source | states |
|---|---|---|
| `LogMachine.Header` | initial-xv6/src/kernel/log.c:86-98 | the block list read from a header block: its count, and each entry, which is a block outside the log |
| `LogMachine.PutHeader` | initial-xv6/src/kernel/log.c:102-114 | a header write sets the count and that many entries and leaves the rest of the block alone |
| `LogCrashSafety.HeaderRoundTrip` | initial-xv6/src/kernel/log.c:86-114 | reading a header back gives the list that was written |
| `LogCrashSafety.BeginKeeps` | initial-xv6/src/kernel/log.c:126-142 | begin_op keeps the log invariant |
| `LogCrashSafety.LogWriteKeeps` | initial-xv6/src/kernel/log.c:214-235 | log_write keeps the log invariant, whether the block is new to the log or absorbed |
| `LogCrashSafety.LogWriteCache` | initial-xv6/src/kernel/log.c:214-235 | after log_write the cached copies are what the events of the open group say |
| `LogCrashSafety.EndKeeps` | initial-xv6/src/kernel/log.c:146-176 | end_op keeps the log invariant; a commit starts only when no operation is open |
| `LogCrashSafety.EmptyCommitKeeps` | initial-xv6/src/kernel/log.c:193-203 | a commit with nothing logged keeps the log invariant |
| `LogCrashSafety.WriteSlotKeeps` | initial-xv6/src/kernel/log.c:178-191 | copying one block to its log slot keeps the log invariant: the header on disk is still empty |
| `LogCrashSafety.CommitPointKeeps` | initial-xv6/src/kernel/log.c:193-203 | the header write makes exactly the open group committed |
| `LogCrashSafety.InstallBlockReplays` | initial-xv6/src/kernel/log.c:68-83 | installing one block leaves a disk that still replays to the same contents: install is idempotent |
| `LogCrashSafety.ClearReplays` | initial-xv6/src/kernel/log.c:193-203 | clearing the header after all installs leaves the committed contents in place |
| `LogCrashSafety.CommitReplays` | initial-xv6/src/kernel/log.c:193-203 | once every slot is written, the header write leaves a disk from which recovery produces the committed contents |
| `LogCrashSafety.InstallKeeps` | initial-xv6/src/kernel/log.c:68-83 | a step of install_trans keeps the log invariant, in a commit and in recovery |
| `LogCrashSafety.CrashKeeps` | initial-xv6/src/kernel/log.c:54-65 | a crash at any point leaves a disk from which recovery produces the committed contents |
| `LogCrashSafety.ReadHeadKeeps` | initial-xv6/src/kernel/log.c:116-123 | the first step of recovery is possible and keeps the log invariant |
| `LogCrashSafety.StepKeeps` | initial-xv6/src/kernel/log.c:68-235 | every step of every process, of a commit, of a crash or of a recovery keeps the log invariant |
| `LogCrashSafety.RunKeeps` | initial-xv6/src/kernel/log.c:68-235 | every run, of any length and with any number of crashes, keeps the log invariant |
| `LogCrashSafety.RecoveryKeepsGroups` | initial-xv6/src/kernel/log.c:116-123 | recoveries, interrupted any number of times, neither add nor lose a committed group |
| `LogCrashSafety.CrashAtomic` | initial-xv6/src/kernel/log.c:68-203 | after any run, a crash anywhere and any number of interrupted recoveries, a completed recovery leaves the home blocks exactly as the committed groups say; every group is made of whole operations |
| `LogCrashSafety.GroupsGrow` | initial-xv6/src/kernel/log.c:146-203 | committed groups only grow, through crashes as well |
| `LogCrashSafety.Durable` | initial-xv6/src/kernel/log.c:193-203 | when a commit has returned, nothing is uncommitted and no later step takes a group away |
| `LogCrashSafety.ReadsNewest` | initial-xv6/src/kernel/log.c:214-235 | while operations run, a home block reads as the newest write to it |
| `LogCrashSafety.RecoveryCompletes` | initial-xv6/src/kernel/log.c:116-123 | an uninterrupted recovery ends, after one step per logged block and two more |
| `LogDevice.Log.WriteHead` | initial-xv6/src/kernel/log.c:102-114 | the loop writes the header of the specification |
| `LogDevice.Log.constructor` | initial-xv6/src/kernel/log.c:54-65 | initlog on a disk that mkfs made leaves the log in service and empty |
| `LogDevice.Log.ReadHead` | initial-xv6/src/kernel/log.c:86-98 | the loop reads the list of the specification |
| `LogDevice.Log.BeginOp` | initial-xv6/src/kernel/log.c:126-142 | lets the operation in exactly when the machine does, and then counts it and opens it in the group |
| `LogDevice.Log.FindEntry` | initial-xv6/src/kernel/log.c:225-228 | the first position of the block in the header, or the end |
| `LogDevice.Log.LogWrite` | initial-xv6/src/kernel/log.c:214-235 | the contents are cached for the block, the block is in the header once, and the write is in the open group, absorbed or not |
| `LogDevice.Log.InstallTrans` | initial-xv6/src/kernel/log.c:68-83 | the loop takes one install step of the machine per logged block |
| `LogDevice.Log.WriteLog` | initial-xv6/src/kernel/log.c:178-191 | the loop takes one step of the machine per logged block |
| `LogDevice.Log.CommitPoint` | initial-xv6/src/kernel/log.c:193-203 | the header write commits the group |
| `LogDevice.Log.ClearLog` | initial-xv6/src/kernel/log.c:193-203 | the second header write empties the log |
| `LogDevice.Log.Commit` | initial-xv6/src/kernel/log.c:193-203 | all steps of a commit, in order, as a run of the machine |
| `LogDevice.Log.EndOp` | initial-xv6/src/kernel/log.c:146-176 | the last end_op commits; the others do not |
| `LogDevice.Log.RecoverFromLog` | initial-xv6/src/kernel/log.c:116-123 | all steps of a recovery, as a run of the machine |
| `LogDevice.Log.Restart` | initial-xv6/src/kernel/log.c:54-65 | after a stop at any point, initlog leaves the home blocks as the committed groups did |
| `LogDevice.WriteSurvives` | initial-xv6/src/kernel/log.c:116-235 | begin_op, a log_write and the end_op of the only operation, then a crash and recovery: the block has the new contents, and every other block what was cached or, if it was not, on the disk before |
| `LogSpace.StepKeepsSpace` | initial-xv6/src/kernel/log.c:126-142 | logged blocks plus all unused reservations stay within LOGSIZE at every step of operations that keep to MAXOPBLOCKS |
| `LogSpace.ReservationHolds` | initial-xv6/src/kernel/log.c:126-142 | logged blocks plus unused reservations stay within LOGSIZE in every run of operations that keep to MAXOPBLOCKS |
| `LogSpace.NoPanic` | initial-xv6/src/kernel/log.c:214-221 | with log.size > LOGSIZE no run reaches the panic in log_write while a reservation is left |
| `LogSpace.SmallLogPanics` | initial-xv6/src/kernel/log.c:214-221 | with log.size <= LOGSIZE, which is what mkfs makes, some run of well-behaved operations reaches it |
| `LogSpace.PanicFreeIffLargeLog` | initial-xv6/src/kernel/log.c:214-221 | on a disk with LOGSIZE home blocks or more, no run panics if and only if log.size > LOGSIZE |
| `LogSpace.AbsorbedPanicsIff` | initial-xv6/src/kernel/log.c:214-226 | for log.size > LOGSIZE, some well-behaved run lets log_write of a block that is already logged panic for an operation that has added k entries, if and only if k is MAXOPBLOCKS: fullness is looked at before the search for an old entry |
| `LogSpace.FewBlocksSuffice` | initial-xv6/src/kernel/log.c:126-142 | operations that log at most MAXOPBLOCKS different blocks keep within their reservations, however often they log them |
| `LogSpace.FewBlocksNoPanic` | initial-xv6/src/kernel/log.c:214-235 | so with log.size > LOGSIZE no such operation panics when it logs a block that is new to the log |
| `LogCache.PutAgrees` | initial-xv6/src/kernel/log.c:178-191 | writing a slot, the header or a home block through its buffer is that write of the machine disk |
| `LogCache.InstallRefines` | initial-xv6/src/kernel/log.c:68-83 | a turn of install_trans, which copies the log slot through two buffers, writes home and unpins, is one install step of the log machine |
| `LogCache.CopyRefines` | initial-xv6/src/kernel/log.c:178-191 | a turn of write_log copies what was logged last, because the buffer is pinned and no change is under way |
| `LogCache.LogWriteRefines` | initial-xv6/src/kernel/log.c:214-235 | log_write of a held buffer, with its pin, is log_write of the log machine |
| `LogCache.StepRefines` | initial-xv6/src/kernel/log.c:68-235 | every step of processes, commit, crash and recovery on one buffer cache is one step of the log machine or none |
| `LogCache.RunRefines` | initial-xv6/src/kernel/log.c:68-235 | so every run of log and cache together is a run of the log machine |
| `LogCache.DiskIsCommitted` | initial-xv6/src/kernel/log.c:68-203 | whenever the log is in service, after any crashes, the home blocks on disk are those of the committed groups of whole operations |
| `LogCache.ReadsNewest` | initial-xv6/src/kernel/bio.c:92-103 | whoever holds a home block that nobody is changing has what the committed groups and the operations since leave in it |
| `LogCache.CommittedStays` | initial-xv6/src/kernel/log.c:146-203 | nothing that was committed is lost, through crashes as well |
| `LogBuffers.BufferIff` | initial-xv6/src/kernel/bio.c:66-88 | bget finds a buffer exactly when the block is cached or fewer than NBUF buffers are referred to |
| `LogBuffers.ReferencedBounds` | initial-xv6/src/kernel/log.c:214-235 | buffers referred to are at least the logged blocks and at most those and the references |
| `LogBuffers.LogBuffer` | initial-xv6/src/kernel/log.c:178-191 | a commit finds a buffer for a block of the log if the logged blocks and the references together are fewer than NBUF, and never when NBUF blocks are logged |
| `LogBuffers.StuckIff` | initial-xv6/src/kernel/log.c:178-191 | with no other user of the cache, the bread of a slot in write_log panics if and only if NBUF blocks are logged |
| `LogBuffers.CommitPanicsIff` | initial-xv6/src/kernel/log.c:178-191 | some run of well-behaved operations through the cache brings a commit to that panic if and only if log.size > LOGSIZE |
| `LogBuffers.LogWritePanicsIff` | initial-xv6/src/kernel/log.c:214-221 | some such run brings an operation with reservation left to the panic in log_write if and only if log.size <= LOGSIZE |
| `LogBuffers.NoLogSizeIsSafe` | initial-xv6/src/kernel/param.h:9-11 | so for every size of the log one of the two panics can be reached, because LOGSIZE and NBUF are the same |
| `FsBytes.SetBitAtBits` | initial-xv6/src/kernel/fs.c:74-79 | setting or clearing a bitmap bit changes that bit and no other |
| `FsBytes.PutWordAt` | initial-xv6/src/kernel/fs.c:408-415 | storing an entry of an indirect block changes that entry and no other |
| `FsModel.BelowSizeMapped` | initial-xv6/src/kernel/fs.c:382-421 | every byte below the size of a file is in an allocated block |
| `FsModel.AllocKeeps` | initial-xv6/src/kernel/fs.c:388-415 | giving a free block to an empty pointer keeps block ownership: in-use bits are exactly the metadata blocks and the blocks that some pointer owns, each once |
| `FsModel.AllocPtr` | initial-xv6/src/kernel/fs.c:388-415 | allocating for one pointer changes that pointer and no other, in the inode or in an indirect block |
| `FsModel.AllocBytes` | initial-xv6/src/kernel/fs.c:388-415 | allocating changes no byte of any file |
| `FsModel.RewriteKeeps` | initial-xv6/src/kernel/fs.c:520-527 | writing a data block keeps block ownership |
| `FsModel.WrittenByAlloc` | initial-xv6/src/kernel/fs.c:388-415 | an allocation is a write of no bytes |
| `FsModel.WrittenByRewrite` | initial-xv6/src/kernel/fs.c:520-527 | changing part of a data block changes those bytes of that file and nothing else |
| `FsModel.ReleasedBits` | initial-xv6/src/kernel/fs.c:91-105 | bfree clears the bit of its block only |
| `FsModel.EmptiedKeeps` | initial-xv6/src/kernel/fs.c:425-453 | a truncated file with its bits cleared keeps block ownership |
| `FsModel.CreatedKeeps` | initial-xv6/src/kernel/fs.c:198-219 | a new inode is an empty file and changes no other |
| `FsContent.FinishWrite` | initial-xv6/src/kernel/fs.c:516-536 | bytes written to blocks plus the new size are the overwrite of a byte sequence |
| `FsContent.WriteStep` | initial-xv6/src/kernel/fs.c:516-528 | one piece more extends the written prefix |
| `FsContent.LogBound` | initial-xv6/src/kernel/file.c:149-174 | a chunk of filewrite logs at most MAXOPBLOCKS distinct blocks, at every offset and for every bitmap |
| `FsContent.KeptIs` | initial-xv6/src/kernel/fs.c:516-528 | the count when the source cannot be read further: what lies in the blocks that were filled up |
| `FsContent.ShortWriteCleanIff` | initial-xv6/src/kernel/file.c:149-175 | for every count, a write whose source cannot be read to its end changes nothing past its count if and only if it is refused for its size before it gets there, or the readable bytes past the last block of the chunk that they fill up are in the file already |
| `FsContent.WriteCleanIff` | initial-xv6/src/kernel/fs.c:516-538 | the same condition for one call of writei, in terms of the offset, the source and how much of it is readable |
| `FsContent.StartsMapped` | initial-xv6/src/kernel/fs.c:516-528 | an unaligned write starts in a block that is already allocated |
| `FsContent.SpanBound` | initial-xv6/src/kernel/file.c:149-174 | a chunk touches four blocks, or three when aligned |
| `FsContent.WrapsIff` | initial-xv6/src/kernel/fs.c:511-512 | the test off + n < off of the source is overflow of 32 bits |
| `FsInode.ScanGroup` | initial-xv6/src/kernel/fs.c:74-83 | the inner loop of balloc finds the first free bit of its bitmap block |
| `FsInode.Balloc` | initial-xv6/src/kernel/fs.c:65-88 | returns the first free block, zeroed and marked, or 0 exactly when every block is in use |
| `FsInode.Bfree` | initial-xv6/src/kernel/fs.c:91-105 | clears the bit and logs its block; its block must be in use, which is where the source panics |
| `FsInode.FillAddr` | initial-xv6/src/kernel/fs.c:388-406 | a direct or indirect pointer, filled if empty; every block it changes is logged |
| `FsInode.FillEntry` | initial-xv6/src/kernel/fs.c:407-417 | an entry of the indirect block, filled if empty; every block it changes is logged |
| `FsInode.Bmap` | initial-xv6/src/kernel/fs.c:382-421 | the block of a file block, allocated if need be; nothing changes when it was there; 0 only when the disk is full; how many blocks it logs, and that every block it changes is one of them |
| `FsInode.BmapIndirect` | initial-xv6/src/kernel/fs.c:399-418 | the same through the indirect block; every block it changes is logged |
| `FsInode.ReadPiece` | initial-xv6/src/kernel/fs.c:483-493 | the bytes of a file that lie in one block, read through bmap, which changes nothing |
| `FsInode.ReadAll` | initial-xv6/src/kernel/fs.c:482-495 | the loop of readi collects the bytes of the file across blocks, up to where the destination can be written |
| `FsInode.Readi` | initial-xv6/src/kernel/fs.c:471-496 | exactly content[off..min(off+n,size)], 0 past the end or on overflow, and -1 when the destination cannot be written |
| `FsInode.WritePiece` | initial-xv6/src/kernel/fs.c:517-527 | the bytes of one block are written, and every block that changed is logged; or the disk is full at a block that the file did not have; or the source was unreadable, and then the bytes copied before are in that block, which is the only changed block that is not logged |
| `FsInode.WriteAll` | initial-xv6/src/kernel/fs.c:516-528 | the loop of writei writes a prefix of the source, all of it unless the disk is full or the source unreadable, and what it then counts; every block that changed is logged but for the one in which the source became unreadable; and how many blocks of each kind it logs |
| `FsInode.Writei` | initial-xv6/src/kernel/fs.c:505-539 | the file is old[..off] + src[..copied] + old[off+copied..] up to its new size, which is at least off + r, and other files are unchanged; r is copied, or, when the source became unreadable, what lies in the blocks filled up; without the one block that was not logged it is exactly old[..off] + src[..r] + old[off+r..], and every block in which that differs from before is logged, and the block of the inode; -1 and no change past the end, beyond MAXFILE or on overflow; a chunk logs at most MAXOPBLOCKS blocks |
| `FsInode.Itrunc` | initial-xv6/src/kernel/fs.c:425-453 | clears exactly the bits of its own blocks, each of which is in use, leaves an empty file and every other file alone; every block it changes and the block of the inode are logged |
| `FsInode.WriteChunks` | initial-xv6/src/kernel/file.c:149-175 | the loop of filewrite: the chunks add up to one write; the count if all bytes were written, otherwise -1, and then one of four reasons, each with the bytes copied and the offset that it leaves |
| `FsFiles.FileSystem.constructor` | initial-xv6/src/mkfs/mkfs.c:234-248 | a disk whose bitmap has exactly the metadata blocks, before mkfs adds the root directory: no files |
| `FsFiles.FileSystem.Ialloc` | initial-xv6/src/kernel/fs.c:198-219 | a new empty file, or none exactly when no inode is free |
| `FsFiles.FileSystem.Fileread` | initial-xv6/src/kernel/file.c:120-124 | reads at the offset and moves it by the count; a negative count is a large one |
| `FsFiles.FileSystem.Filewrite` | initial-xv6/src/kernel/file.c:148-175 | writes at the offset and moves it by the bytes counted; all other files unchanged; the four reasons for -1 and where each leaves the offset; and, for every count, the exact condition for an unreadable source to change nothing past what is counted |
| `FsFiles.FileSystem.Truncate` | initial-xv6/src/kernel/fs.c:425-453 | the file is empty, all others unchanged, its blocks free |
| `FsFiles.WriteThenRead` | initial-xv6/src/kernel/file.c:106-181 | filewrite, the offset set back, and fileread give back the bytes written |
| `FsFiles.ShortWriteDirties` | initial-xv6/src/kernel/fs.c:516-528 | any number of bytes of which fifty are readable, written over a block, be it more than a file can hold: the call fails and counts none, and the fifty are in the file |
| `VmModel.WalkCovers` | initial-xv6/src/kernel/vm.c:85-103 | a walk that reaches level 0 ends in the page-table page for that page |
| `VmModel.CoverWalks` | initial-xv6/src/kernel/vm.c:85-103 | each page has one such page-table page, and the entry in it is what a walk for the page finds |
| `VmModel.LookupOwns` | initial-xv6/src/kernel/vm.c:108-126 | a mapped page below TRAPFRAME owns its frame, and only such a page can be user-accessible |
| `VmModel.OwnerLooksUp` | initial-xv6/src/kernel/vm.c:142-165 | a frame used as user memory is the one its page maps to |
| `VmSteps.GrownKeeps` | initial-xv6/src/kernel/vm.c:94-99 | a new page-table page keeps the memory invariant: every frame is free, a page-table page, a user page or in other hands, and only one of these |
| `VmSteps.GrownView` | initial-xv6/src/kernel/vm.c:94-99 | a new page-table page changes no mapping of any address space |
| `VmSteps.MappedKeeps` | initial-xv6/src/kernel/vm.c:158 | setting a leaf entry keeps the memory invariant |
| `VmSteps.MappedView` | initial-xv6/src/kernel/vm.c:158 | setting a leaf entry maps that page and changes no other mapping of any process |
| `VmSteps.UnmappedKeeps` | initial-xv6/src/kernel/vm.c:190 | clearing a leaf entry keeps the memory invariant |
| `VmSteps.UnmappedView` | initial-xv6/src/kernel/vm.c:190 | clearing a leaf entry unmaps that page and changes no other mapping of any process |
| `VmSteps.PrunedKeeps` | initial-xv6/src/kernel/vm.c:280-281 | detaching an empty page-table page keeps the memory invariant |
| `VmWalk.PXDigits` | initial-xv6/src/kernel/riscv.h:355-357 | the three nine-bit fields of an address below MAXVA are the digits of its page number |
| `VmWalk.Kalloc` | initial-xv6/src/kernel/kalloc.c:68-82 | the head of the free list, or 0 exactly when it is empty; no other frame changes |
| `VmWalk.Kfree` | initial-xv6/src/kernel/kalloc.c:46-63 | the frame is at the head of the free list; no other frame changes |
| `VmWalk.Walk` | initial-xv6/src/kernel/vm.c:85-103 | without alloc: the page-table page where the walk ends, and nothing changes; with alloc: at most two free frames became page-table pages and no mapping changed; it fails only when fewer than two frames were free |
| `VmMap.Mappages` | initial-xv6/src/kernel/vm.c:142-165 | maps each page of the range to the next frame with the permissions, or a prefix of them, and then memory is exhausted; no other mapping changes; the frames it takes are bounded by the pages mapped |
| `VmMap.Uvmunmap` | initial-xv6/src/kernel/vm.c:170-192 | unmaps exactly the range, and frees exactly its frames when asked to |
| `VmMap.DroppedKeeps` | initial-xv6/src/kernel/vm.c:180-190 | one round of uvmunmap unmaps that page only, gives up its frame only, and keeps the memory invariant |
| `VmMap.Uvmclear` | initial-xv6/src/kernel/vm.c:337-346 | clears the user bit of the entry and nothing else, in this or any other page table |
| `VmUser.Freerange` | initial-xv6/src/kernel/kalloc.c:33-40 | every whole frame in the range is free |
| `VmUser.AddPage` | initial-xv6/src/kernel/vm.c:236-246 | one frame with given contents is mapped, at a cost of at most three frames; or fewer than three were free, and everything is as before except for page-table pages |
| `VmUser.RolledBack` | initial-xv6/src/kernel/vm.c:237-245 | unmapping what was added gives back the original address spaces and frames |
| `VmUser.Uvmalloc` | initial-xv6/src/kernel/vm.c:225-249 | new zeroed pages exactly from PGROUNDUP(oldsz) to newsz, each with the V, R and U bits set and the W and X bits set exactly as xperm has them, and existing pages kept; failure only when there are fewer than three free frames for each page wanted, and then every mapping is as before and only page-table pages were added |
| `VmUser.Uvmdealloc` | initial-xv6/src/kernel/vm.c:255-267 | unmaps and frees exactly the pages above PGROUNDUP(newsz) |
| `VmCopy.NoSharing` | initial-xv6/src/kernel/vm.c:305-333 | two user pages have the same frame only if they are the same page of the same process |
| `VmCopy.Uvmcopy` | initial-xv6/src/kernel/vm.c:305-333 | every page of the parent is in the child with equal flags and bytes, in a frame of its own; failure only when there are fewer than three free frames for each page, and then no mapping changed and every data frame is back; the parent is unchanged either way |
| `VmFree.UnderChild` | initial-xv6/src/kernel/vm.c:275-281 | the page-table pages below an entry are those below the page it points at |
| `VmFree.Freewalk` | initial-xv6/src/kernel/vm.c:271-287 | frees exactly the page-table pages under the given one |
| `VmFree.FreedOthers` | initial-xv6/src/kernel/vm.c:271-287 | freeing the page-table pages of one process changes no other address space |
| `VmFree.Uvmfree` | initial-xv6/src/kernel/vm.c:291-297 | every frame of the address space is free, once, and no other frame or address space changes |
| `VmProc.Uvmcreate` | initial-xv6/src/kernel/vm.c:196-205 | an empty address space, or 0 exactly when memory is exhausted |
| `VmProc.GrewReclaimed` | initial-xv6/src/kernel/proc.c:301-333 | building a page table and freeing it leaves every frame as it was |
| `VmProc.MapTop` | initial-xv6/src/kernel/proc.c:315-330 | one of the two top pages is mapped, without access for user code, and no other mapping changes |
| `VmProc.ProcPagetable` | initial-xv6/src/kernel/proc.c:301-333 | trampoline and trapframe mapped and nothing else; failure only when fewer than five frames are free, and then every frame is as it was |
| `VmProc.ProcFreepagetable` | initial-xv6/src/kernel/proc.c:337-342 | returns every frame of the process and leaves all others alone |
| `VmAccess.Walkaddr` | initial-xv6/src/kernel/vm.c:108-126 | an address exactly for the pages that user code may access |
| `VmAccess.StoredBytes` | initial-xv6/src/kernel/vm.c:351-371 | writing into one frame changes those bytes of that address space only |
| `VmAccess.Copyout` | initial-xv6/src/kernel/vm.c:351-371 | writes the bytes up to the first inaccessible one, across pages, and changes no other byte of any process; succeeds exactly when all are accessible |
| `VmAccess.Copyin` | initial-xv6/src/kernel/vm.c:376-396 | returns the bytes of user memory, up to the first inaccessible one |
| `VmAccess.WroteReads` | initial-xv6/src/kernel/vm.c:351-396 | copyin after copyout gives back the same bytes |
| `VmAccess.Copyinstr` | initial-xv6/src/kernel/vm.c:402-439 | the bytes up to and with the first null, within max; otherwise fails exactly at max or at an inaccessible byte |
| `VmSpaces.PagesBound` | initial-xv6/src/kernel/proc.c:385-404 | a process has at most as many pages as there are frames that are not free |
| `VmSpaces.OnlyOthers` | initial-xv6/src/kernel/proc.c:385-404 | a step of one process keeps the entries and the memory of every other |
| `VmSpaces.SpacesStep` | initial-xv6/src/kernel/proc.c:385-404 | a step of one process keeps the invariant of all address spaces |
| `VmSpaces.NoLeak` | initial-xv6/src/kernel/proc.c:279-297 | when there is no process, a frame is free exactly if it is not in other hands |
| `VmSpaces.AddressSpaces.constructor` | initial-xv6/src/kernel/kalloc.c:26-40 | after boot exactly the whole frames of the range exist, all free, and there is no process |
| `VmSpaces.AddressSpaces.Create` | initial-xv6/src/kernel/proc.c:228-243 | a trapframe and a page table for a process without memory, no mapping of any process changed; or fewer than six frames were free and none changed |
| `VmSpaces.AddressSpaces.Grow` | initial-xv6/src/kernel/proc.c:385-404 | sbrk: zeroed pages added that user code may read and write, or pages removed, the remaining ones, the trapframe and all other processes unchanged; every address below the new size is one that user code may use; a failed request changes no mapping, and fails only for want of frames; a size that would wrap below 0 stays |
| `VmSpaces.SizeAccessible` | initial-xv6/src/kernel/proc.c:385-404 | user code may use every address below the size of its process |
| `VmSpaces.UserCopied` | initial-xv6/src/kernel/vm.c:306-333 | the pages of a forked child are user pages as those of the parent |
| `VmSpaces.AddressSpaces.Write` | initial-xv6/src/kernel/vm.c:351-372 | copyout into a process of the system succeeds exactly when user code may use every address, writes the bytes up to the first one it may not use, and keeps the invariant of all address spaces |
| `VmSpaces.GrowThenUse` | initial-xv6/src/kernel/proc.c:385-404 | after an sbrk that succeeds, copyout to all of the new memory succeeds, from the old size on even when that lies inside a page, and copyin reads the bytes back |
| `VmSpaces.AddressSpaces.CopyMemory` | initial-xv6/src/kernel/proc.c:420-427 | the memory of a process into one that has none: all of it, or no mapping changed |
| `VmSpaces.AddressSpaces.Fork` | initial-xv6/src/kernel/proc.c:414-426 | the child has a trapframe and a copy of all pages, and no other frame changed hands; or frames were short, and every frame is as it was |
| `VmSpaces.AddressSpaces.Free` | initial-xv6/src/kernel/proc.c:282-288 | the trapframe and all frames of the process are free, and nothing happened to any other frame |
| `VmSpaces.AddressSpaces.NoneLeaked` | initial-xv6/src/kernel/proc.c:279-297 | when the last process is gone every frame is free |
| `VmSpaces.OthersKept` | initial-xv6/src/kernel/proc.c:408-427 | allocproc and fork keep the entries and the memory of every other process |
| `VmSpaces.TrapframeAdded` | initial-xv6/src/kernel/proc.c:322-330 | each process keeps a trapframe of its own, mapped below the trampoline |
| `UmallocModel.Apart` | initial-xv6/src/user/umalloc.c:24-90 | two blocks, free or in use, have no unit in common |
| `UmallocModel.InsertedSound` | initial-xv6/src/user/umalloc.c:30-43 | putting a block on the list at its place keeps the list in address order and every unit in one block |
| `UmallocModel.MergedSound` | initial-xv6/src/user/umalloc.c:33-42 | joining two blocks that touch keeps both, and loses no unit |
| `UmallocModel.FreedOk` | initial-xv6/src/user/umalloc.c:24-44 | after free no two free blocks touch, all units are kept and other blocks keep their sizes |
| `UmallocModel.UnlinkedOk` | initial-xv6/src/user/umalloc.c:76-77 | handing out a whole block keeps the heap |
| `UmallocModel.SplitOk` | initial-xv6/src/user/umalloc.c:78-82 | handing out the end of a block keeps the heap |
| `UmallocModel.GrownOk` | initial-xv6/src/user/umalloc.c:54-59 | new memory above the old keeps the heap |
| `UmallocModel.ArcStep` | initial-xv6/src/user/umalloc.c:74 | a step along the list goes once round all blocks |
| `Umalloc.FreeListInOrder` | initial-xv6/src/user/umalloc.c:24-44 | a free block comes as many steps after base as there are free blocks below it |
| `Umalloc.FreeListIsCycle` | initial-xv6/src/user/umalloc.c:24-44 | and after all of them comes base again |
| `Umalloc.SearchTest` | initial-xv6/src/user/umalloc.c:30-32 | the two tests of the search together hold exactly at the last free block below the given one |
| `Umalloc.Search` | initial-xv6/src/user/umalloc.c:30-32 | the search of free ends, there |
| `Umalloc.Scan` | initial-xv6/src/user/umalloc.c:74-86 | the search of malloc finds a block that is large enough, or there is none |
| `Umalloc.FreedFields` | initial-xv6/src/user/umalloc.c:33-42 | the header fields after the writes of free |
| `Umalloc.RequestFits` | initial-xv6/src/user/umalloc.c:52-54 | sbrk is asked for what morecore records if and only if nbytes <= 0x7FFFFFE0, because its argument is an int; for more it is asked for less |
| `Umalloc.RequestForNothing` | initial-xv6/src/user/umalloc.c:52-54 | a request above that for which sbrk is asked for 0 bytes |
| `Umalloc.Allocator.Free` | initial-xv6/src/user/umalloc.c:24-44 | the block leaves the live ones, the others keep their units, and memory is only regrouped |
| `Umalloc.Allocator.Morecore` | initial-xv6/src/user/umalloc.c:46-61 | adds at least 4096 units when granted, and then a block that is large enough is on the list |
| `Umalloc.Allocator.Take` | initial-xv6/src/user/umalloc.c:75-85 | a block of exactly the wanted size, taken from the end of a free one |
| `Umalloc.Allocator.Malloc` | initial-xv6/src/user/umalloc.c:63-90 | a new block, disjoint from all live ones and large enough, or 0; more core is asked for at most once and only when no free block is large enough |
| `Umalloc.FreeUndoesUnlinked` | initial-xv6/src/user/umalloc.c:24-90 | free after malloc of a whole block restores the free list |
| `Umalloc.FreeUndoesSplit` | initial-xv6/src/user/umalloc.c:24-90 | free after malloc of part of a block restores it too |
| `BcacheModel.Find` | initial-xv6/src/kernel/bio.c:66-73 | the first scan of bget: a buffer of the block, or none has it |
| `BcacheModel.Victim` | initial-xv6/src/kernel/bio.c:77-86 | the second scan: the last unreferenced buffer of the list |
| `BcacheSafety.GetHitKeeps` | initial-xv6/src/kernel/bio.c:58-73 | bget of a cached block keeps the invariant: reference counts are references plus pins, one buffer per block, one holder per buffer, logged blocks cached, unlogged and unchanged contents equal to the disk |
| `BcacheSafety.GetMissKeeps` | initial-xv6/src/kernel/bio.c:75-88 | recycling a buffer for another block keeps the cache invariant |
| `BcacheSafety.LockKeeps` | initial-xv6/src/kernel/bio.c:70-71 | taking the lock of a free buffer keeps the cache invariant |
| `BcacheSafety.ReadKeeps` | initial-xv6/src/kernel/bio.c:92-103 | filling a buffer from disk keeps the cache invariant |
| `BcacheSafety.ModifyKeeps` | initial-xv6/src/kernel/log.c:209-213 | a change by the holder of the lock keeps the cache invariant |
| `BcacheSafety.LogWriteKeeps` | initial-xv6/src/kernel/log.c:214-235 | log_write, with its pin for a block that is new to the log, keeps the cache invariant |
| `BcacheSafety.WriteKeeps` | initial-xv6/src/kernel/bio.c:106-112 | bwrite by the holder puts the contents of the buffer on the disk, changes nothing else, and keeps the cache invariant |
| `BcacheSafety.UnlockKeeps` | initial-xv6/src/kernel/bio.c:122 | releasesleep in brelse keeps the cache invariant: the reference still counts |
| `BcacheSafety.ReleaseKeeps` | initial-xv6/src/kernel/bio.c:116-137 | the end of brelse, under bcache.lock, keeps the cache invariant, with the list in order of last use |
| `BcacheSafety.InstallKeeps` | initial-xv6/src/kernel/log.c:68-83 | writing a logged block home and unpinning it puts the contents of its buffer on the disk, drops one reference, and keeps the cache invariant |
| `BcacheSafety.StepKeeps` | initial-xv6/src/kernel/bio.c:36-151 | every step of any number of processes keeps the cache invariant |
| `BcacheSafety.StepNow` | initial-xv6/src/kernel/bio.c:36-151 | what cache and disk together hold of a block changes only when the holder of its buffer modifies it |
| `BcacheSafety.RunKeeps` | initial-xv6/src/kernel/bio.c:36-151 | in every run the cache invariant holds, and cache and disk together hold the last change to each block |
| `BcacheSafety.ReadsNewest` | initial-xv6/src/kernel/bio.c:92-103 | whoever has read a block has the contents of the last change in the run, or else of the disk |
| `BcacheSafety.BreadGets` | initial-xv6/src/kernel/bio.c:58-103 | bread of a block whose buffer nobody has gives its caller the locked buffer of that block, with the newest contents |
| `BcacheSafety.LoggedStays` | initial-xv6/src/kernel/log.c:214-235 | the buffer of a block in the log is never recycled |
| `BcacheSafety.UsedStays` | initial-xv6/src/kernel/bio.c:58-88 | nor is a buffer that is referred to |
| `BcacheSafety.VictimIsOldest` | initial-xv6/src/kernel/bio.c:75-86 | the recycled buffer is the least recently released of the unused ones |
| `BcacheSafety.NoBuffers` | initial-xv6/src/kernel/bio.c:88 | bget finds no buffer exactly when the block is not cached and all buffers are referenced |
| `Bcache.Unlinked` | initial-xv6/src/kernel/bio.c:128-129 | the two writes that take a buffer out of the list |
| `Bcache.Pushed` | initial-xv6/src/kernel/bio.c:130-133 | the four writes that put it at the front |
| `Bcache.FindCached` | initial-xv6/src/kernel/bio.c:66-73 | the loop along next returns what the first scan specifies |
| `Bcache.FindVictim` | initial-xv6/src/kernel/bio.c:77-86 | the loop along prev returns what the second scan specifies |
| `Bcache.Cache.constructor` | initial-xv6/src/kernel/bio.c:36-53 | binit links every buffer once |
| `Bcache.Cache.Bget` | initial-xv6/src/kernel/bio.c:58-88 | the buffers after bget are those of the machine step; the list is unchanged |
| `Bcache.Cache.Brelse` | initial-xv6/src/kernel/bio.c:116-137 | the same for brelse, with an unreferenced buffer moved to the front and all buffers still linked once |
| `MlfqModel.Position` | initial-xv6/src/kernel/proc.c:96-100 | the first queue position with the pid |
| `MlfqSafety.PositionIs` | initial-xv6/src/kernel/proc.c:113-115 | a queued process is found at its own place by its pid, so dequeue never takes another |
| `MlfqSafety.EnqueueKeeps` | initial-xv6/src/kernel/proc.c:91-105 | enqueue puts the process at the end of that queue, once, and resets its ticks |
| `MlfqSafety.DequeueKeeps` | initial-xv6/src/kernel/proc.c:107-128 | dequeue takes that process out and keeps the order of the others |
| `MlfqBoost.EvensAt` | initial-xv6/src/kernel/trap.c:116-127 | the processes at even positions, in order |
| `MlfqBoost.OddsAt` | initial-xv6/src/kernel/trap.c:116-127 | the processes at odd positions, in order |
| `MlfqBoost.BoostFromIs` | initial-xv6/src/kernel/trap.c:119-126 | the boost loop on one queue takes the even positions away, because it skips the entry after each one it removes |
| `MlfqBoost.BoostedIs` | initial-xv6/src/kernel/trap.c:116-127 | the whole boost: even positions of queues 1 to 3 go to the end of queue 0, odd ones stay in order |
| `MlfqBoost.BoostMoves` | initial-xv6/src/kernel/trap.c:116-127 | position by position: an even one reaches queue 0, an odd i goes to (i-1)/2 |
| `MlfqBoost.BoostKeepsTop` | initial-xv6/src/kernel/trap.c:116-127 | queue 0 only grows at its end |
| `MlfqRun.WokenKeeps` | initial-xv6/src/kernel/proc.c:826-832 | a woken process joins the queue it was in, and the invariant holds |
| `MlfqRun.LeftKeeps` | initial-xv6/src/kernel/proc.c:801-803 | a process that sleeps or exits leaves its queue, and the invariant holds |
| `MlfqRun.PickedFrom` | initial-xv6/src/kernel/proc.c:678-690 | the nested loops choose from the best queue with a runnable process, or nothing when there is none |
| `MlfqRun.PicksBest` | initial-xv6/src/kernel/proc.c:676-690 | no runnable process has a better level than the chosen one or is ahead of it in its queue |
| `MlfqRun.PickIsBest` | initial-xv6/src/kernel/proc.c:676-690 | if any process is RUNNABLE, a RUNNABLE one is chosen, and no RUNNABLE process has a smaller level or stands before it in a queue; otherwise none |
| `MlfqRun.ScheduleRuns` | initial-xv6/src/kernel/proc.c:676-707 | after a round, that process is RUNNING on the hart, and every other process and all queues are as before; with nothing RUNNABLE nothing changes |
| `MlfqRun.BoostKeeps` | initial-xv6/src/kernel/trap.c:116-127 | the boost keeps the invariant, with the ticks of every process below its slice |
| `MlfqRun.DemotedKeeps` | initial-xv6/src/kernel/trap.c:133-137 | a process that used up its slice goes to the next queue, or to the end of the last, with no ticks |
| `MlfqRun.TickKeeps` | initial-xv6/src/kernel/trap.c:114-152 | a timer tick keeps the invariant, so no process ever has a full slice of ticks |
| `MlfqRun.TickYields` | initial-xv6/src/kernel/trap.c:114-152 | without the boost, a process whose slice is not used up gives up the hart exactly when a better queue is not empty, and keeps its place; one whose slice is used up goes to the end of the next queue, with no ticks, and gives it up; nothing else changes |
| `MlfqRun.YieldedKeeps` | initial-xv6/src/kernel/proc.c:754-762 | yield makes the process RUNNABLE, in its place in its queue, and frees the hart |
| `MlfqRun.WokenToIs` | initial-xv6/src/kernel/proc.c:817-836 | wakeup makes runnable exactly the processes asleep on the channel |
| `MlfqRun.AllocKeeps` | initial-xv6/src/kernel/proc.c:205-228 | allocproc marks the slot USED with a pid above every other, changes nothing else, and keeps the invariant, although it does not reset queue_number |
| `MlfqRun.StartKeeps` | initial-xv6/src/kernel/proc.c:451-454 | the end of fork puts the child at the end of queue 0, RUNNABLE and with no ticks, and changes nothing else |
| `MlfqRun.FreeKeeps` | initial-xv6/src/kernel/proc.c:279-297 | freeproc clears the slot and changes no queue: its dequeue finds nothing, because the pid is already 0 |
| `MlfqRun.KillWakes` | initial-xv6/src/kernel/proc.c:841-864 | kill puts a sleeping process at the end of its queue, RUNNABLE, and moves no other process; one that is not asleep stays where it is |
| `MlfqRun.KillNobody` | initial-xv6/src/kernel/proc.c:841-864 | kill of a pid that no process has changes nothing |
| `MlfqRun.StepDoes` | initial-xv6/src/kernel/proc.c:754-836 | yield, sleep, exit and wakeup change exactly the state, channel and queue places that they should: yield keeps the place in the queue, sleep and exit leave it, and wakeup makes runnable exactly the sleepers on the channel |
| `MlfqRun.StepKeeps` | initial-xv6/src/kernel/proc.c:91-128 | exactly the RUNNABLE and RUNNING processes are queued, each once and in its own queue, and ticks are below the time slice, after every step |
| `MlfqRun.Exec` | initial-xv6/src/kernel/proc.c:91-128 | the scheduler invariant holds after every run |
| `MlfqRun.InitInv` | initial-xv6/src/kernel/proc.c:357-381 | the scheduler invariant holds after userinit |
| `MlfqStarvation.StepSpares` | initial-xv6/src/kernel/trap.c:114-152 | a step that does not demote, put to sleep or end a process leaves it at most as far back; a boost halves its distance |
| `MlfqStarvation.BoostBound` | initial-xv6/src/kernel/trap.c:116-127 | from a position below 2^k it reaches queue 0 within k + 1 boosts |
| `MlfqStarvation.QueueBound` | initial-xv6/src/kernel/proc.c:69-70 | no queue outgrows NPROC, so no array is overrun |
| `MlfqStarvation.SevenBoosts` | initial-xv6/src/kernel/trap.c:116-127 | any process that is not demoted, put to sleep or ended reaches queue 0 within seven boosts |
| `Mlfq.ShiftDown` | initial-xv6/src/kernel/proc.c:118-121 | the in-place shift removes exactly one entry and keeps the order of the rest |
| `Mlfq.DequeueRow` | initial-xv6/src/kernel/proc.c:107-128 | removes the first entry with the pid, in place, or nothing when there is none |
| `Mlfq.EnqueueRow` | initial-xv6/src/kernel/proc.c:91-105 | appends the process unless its pid is already there, and says which |
| `Mlfq.Scheduler.constructor` | initial-xv6/src/kernel/proc.c:357-381 | userinit leaves the first process runnable in queue 0 and every other slot unused, which establishes the invariant |
| `Mlfq.Scheduler.Dequeue` | initial-xv6/src/kernel/proc.c:107-128 | the arrays then represent the queues without that process; the other queues are unchanged |
| `Mlfq.Scheduler.Enqueue` | initial-xv6/src/kernel/proc.c:91-105 | the arrays then represent the queues with that process; level and ticks are set only if it was added |
| `Mlfq.Scheduler.BoostLevel` | initial-xv6/src/kernel/trap.c:119-126 | the loop over a queue that shrinks under it is the boost of one level, of which BoostFromIs says what it moves |
| `Mlfq.Scheduler.Boost` | initial-xv6/src/kernel/trap.c:116-127 | the loops are the boost of which BoostedIs and BoostMoves say what it moves |
| `Mlfq.Scheduler.GiveUp` | initial-xv6/src/kernel/proc.c:754-762 | yield: the process is RUNNABLE and the hart is free; queues and other processes are unchanged |
| `Mlfq.Scheduler.Demote` | initial-xv6/src/kernel/trap.c:133-137 | the demotion of which DemotedKeeps says where the process goes |
| `Mlfq.Scheduler.TimerTick` | initial-xv6/src/kernel/trap.c:114-152 | the tick, boost, demotion and preemption in the order of the code, as one step of the machine, and the invariant holds after it; without boost and with slice left, the process gives up the hart exactly when a better queue is not empty, and only its ticks and state change |
| `Mlfq.Scheduler.FindBest` | initial-xv6/src/kernel/proc.c:676-690 | the nested loops return the process that PicksBest is about |
| `Mlfq.Scheduler.Schedule` | initial-xv6/src/kernel/proc.c:664-707 | a round of the scheduler: if some process is RUNNABLE, the hart gets one that was RUNNABLE and is now RUNNING, no RUNNABLE process having a smaller level or standing before it in a queue; all other processes and all queues are unchanged; if none is, nothing changes; the first loop changes nothing |
| `Mlfq.Scheduler.Wakeup` | initial-xv6/src/kernel/proc.c:817-836 | the loop wakes exactly the processes of WokenToIs, and the invariant holds after it |
| `SleepLock.StepKeeps` | initial-xv6/src/kernel/sleeplock.c:21-41 | every step of any number of processes keeps the invariant: one holder of lk, locked and pid those of the holder, a sleeper of an unlocked lock about to be woken |
| `SleepLock.RunKeeps` | initial-xv6/src/kernel/sleeplock.c:21-41 | every run of any number of processes keeps the sleeplock invariant |
| `SleepLock.MutualExclusion` | initial-xv6/src/kernel/sleeplock.c:21-52 | at most one process has the sleeplock, and holdingsleep is true of exactly that one |
| `SleepLock.NoLostWakeup` | initial-xv6/src/kernel/proc.c:786-836 | whenever lk is free, no process is asleep on an unlocked sleeplock, or on its way there |
| `SleepLock.AllRoused` | initial-xv6/src/kernel/sleeplock.c:33-41 | when the wakeup of releasesleep is over, nobody is asleep on the lock |
| `SleepLock.SomeoneCanStep` | initial-xv6/src/kernel/sleeplock.c:21-41 | while the lock is free and someone waits, some process can go on |
| `SleepLock.LeavesAsHolder` | initial-xv6/src/kernel/sleeplock.c:21-30 | a step that takes a process out of acquiresleep finds the lock free, makes that process the holder, and changes nothing else |
| `SleepLock.AcquireRuns` | initial-xv6/src/kernel/sleeplock.c:21-30 | acquiresleep that nobody interrupts gives the lock to the process if it is free, and puts it to sleep if not |
| `SleepLock.WakeRuns` | initial-xv6/src/kernel/proc.c:817-836 | the loop of wakeup wakes exactly the sleepers from where it stands |
| `SleepLock.ReleaseRuns` | initial-xv6/src/kernel/sleeplock.c:33-41 | releasesleep that nobody interrupts frees the lock, and wakes every sleeper and nobody else |
| `SleepLock.KilledAsksAgain` | initial-xv6/src/kernel/sleeplock.c:24-26 | a sleeper that is killed asks for the lock again |
| `ExitWaitSafety.ForkKeeps` | initial-xv6/src/kernel/proc.c:408-416 | allocating a child keeps the invariant of fork, exit and wait |
| `ExitWaitSafety.AdoptKeeps` | initial-xv6/src/kernel/proc.c:447-449 | setting the parent under wait_lock keeps the invariant of fork, exit and wait |
| `ExitWaitSafety.StartKeeps` | initial-xv6/src/kernel/proc.c:451-454 | starting the child keeps the invariant of fork, exit and wait |
| `ExitWaitSafety.ReparentKeeps` | initial-xv6/src/kernel/proc.c:460-472 | giving a child to init keeps the invariant of fork, exit and wait: init is about to be woken |
| `ExitWaitSafety.WakeKeeps` | initial-xv6/src/kernel/proc.c:817-836 | a wakeup keeps the invariant of fork, exit and wait, and its target no longer sleeps |
| `ExitWaitSafety.RouseParentKeeps` | initial-xv6/src/kernel/proc.c:505-506 | waking the parent before becoming a zombie keeps the invariant of fork, exit and wait |
| `ExitWaitSafety.DieKeeps` | initial-xv6/src/kernel/proc.c:508-515 | becoming a zombie keeps the invariant of fork, exit and wait: the parent does not sleep |
| `ExitWaitSafety.ReapKeeps` | initial-xv6/src/kernel/proc.c:538-564 | freeing a zombie child keeps the invariant of fork, exit and wait |
| `ExitWaitSafety.MoveKeeps` | initial-xv6/src/kernel/proc.c:460-578 | a step that only moves a process on, given what its new place asks for, keeps the invariant of fork, exit and wait |
| `ExitWaitSafety.StepKeeps` | initial-xv6/src/kernel/proc.c:408-578 | every step of any number of processes keeps the invariant of fork, exit and wait |
| `ExitWaitSafety.Exec` | initial-xv6/src/kernel/proc.c:408-578 | the invariant of fork, exit and wait holds after every run |
| `ExitWaitSafety.ParentsLive` | initial-xv6/src/kernel/proc.c:460-515 | no process ever has a ZOMBIE or UNUSED parent |
| `ExitWaitSafety.NoSleepOverZombie` | initial-xv6/src/kernel/proc.c:501-578 | whenever wait_lock is free, no process asleep in wait, or on its way there, has a ZOMBIE child |
| `ExitWaitSafety.ReapedByParentOnce` | initial-xv6/src/kernel/proc.c:524-578 | each exited child is freed at most once, and only by the process that forked it or by init; WaitReaps says that wait does free it |
| `ExitWaitSafety.NoChildrenIsTrue` | initial-xv6/src/kernel/proc.c:569-573 | wait reports no children only when there are none |
| `ExitWaitRuns.WaitReaps` | initial-xv6/src/kernel/proc.c:538-573 | in every run, a scan that ends wait either finds no child at all, or frees exactly one slot, that of a ZOMBIE child: UNUSED, without pid and parent, and recorded as reaped by this process; every other slot keeps its status, parent and pid |
| `ExitWaitRuns.ForkMakesChild` | initial-xv6/src/kernel/proc.c:447-456 | in every run, the end of fork leaves a living child of the caller, under a pid that is in no other slot and was never reaped; every other slot is unchanged |
| `ExitWaitRuns.ExitLeavesZombie` | initial-xv6/src/kernel/proc.c:496-515 | in every run, what exit leaves is a ZOMBIE without children, whose parent is alive and not asleep; every other slot is unchanged |
| `ExitWaitRuns.ForkRuns` | initial-xv6/src/kernel/proc.c:408-456 | fork that nobody interrupts makes slot np a living child of the caller with a new pid, and changes nothing else |
| `ExitWaitRuns.AbortUndoes` | initial-xv6/src/kernel/proc.c:414-427 | fork that fails leaves the table as it was |
| `ExitWaitRuns.ReparentRuns` | initial-xv6/src/kernel/proc.c:460-472 | reparent gives every child of the process to init, and wakes init exactly if there was one |
| `ExitWaitRuns.ExitRuns` | initial-xv6/src/kernel/proc.c:476-515 | exit that nobody interrupts leaves a ZOMBIE, gives exactly its children to init, wakes its parent, and init if there were children, and changes nothing else |
| `ExitWaitRuns.ScanRuns` | initial-xv6/src/kernel/proc.c:532-573 | the scan of wait ends with its first ZOMBIE child freed; without one, on the way to sleep exactly if there is a child |
| `ExitWaitRuns.WaitRuns` | initial-xv6/src/kernel/proc.c:524-578 | wait that nobody interrupts frees the first ZOMBIE child; without one it sleeps if there is a child and returns if there is none, and the table is as it was |
| `ExitWaitRuns.KillEndsWait` | initial-xv6/src/kernel/proc.c:569-577 | a process asleep in wait that is killed returns and has freed nothing |
| `ExitWaitRuns.ForkExitWait` | initial-xv6/src/kernel/proc.c:408-578 | fork, exit of the child and wait of the parent, one after the other, leave the process table as it was, with the new pid reaped by the parent |
| `ShellModel.GetToken` | initial-xv6/src/user/sh.c:266-309 | every token but the end shortens the text |
| `ShellModel.ParseLine` | initial-xv6/src/user/sh.c:345-360 | the parser is total: it ends on every text and leaves no more than it was given |
| `ShellRoundTrip.OneRedir` | initial-xv6/src/user/sh.c:375-398 | a redirection is parsed back |
| `ShellRoundTrip.ArgsRoundTrip` | initial-xv6/src/user/sh.c:432-443 | the words of a command are parsed back |
| `ShellRoundTrip.BlockParses` | initial-xv6/src/user/sh.c:400-414 | a parenthesised line is parsed as that line with the redirections after it |
| `ShellRoundTrip.LineRoundTrip` | initial-xv6/src/user/sh.c:345-447 | a printed command is parsed back in every context that can follow it |
| `ShellRoundTrip.ParseUndoesPrint` | initial-xv6/src/user/sh.c:328-343 | parsecmd of the canonical text of a command is that command, and all text is used |
| `ShellRoundTrip.LinePrintable` | initial-xv6/src/user/sh.c:345-447 | every command that the parser builds has plain words and fewer than MAXARGS of them |
| `ShellRoundTrip.ReparseSame` | initial-xv6/src/user/sh.c:328-343 | whatever is accepted is accepted again, with the same result, from its canonical text |
| `ShellGrammar.WrapIsAround` | initial-xv6/src/user/sh.c:384-394 | redirections are nested in the order in which they come, the last one outermost |
| `ShellGrammar.Next` | initial-xv6/src/user/sh.c:266-321 | peek and gettoken see the token sequence of the text, and skip blanks only |
| `ShellGrammar.RedirsParse` | initial-xv6/src/user/sh.c:375-398 | redirections in a token sequence are parsed in order, up to the first token that starts none |
| `ShellGrammar.ArgsParse` | initial-xv6/src/user/sh.c:432-446 | words and redirections in any order are parsed to exactly those words and those redirections |
| `ShellGrammar.LineParses` | initial-xv6/src/user/sh.c:345-447 | a line of the grammar is parsed to its tree in every context that can follow it |
| `ShellGrammar.GrammarIsParsed` | initial-xv6/src/user/sh.c:328-343 | parsecmd of a text whose tokens are a line of the grammar is the tree of that line: pipes and lists nested to the right, & around its pipeline, redirections around their command |
| `ShellGrammar.LineDerives` | initial-xv6/src/user/sh.c:345-447 | whatever the parser accepts is a line of the grammar, and the result is its tree |
| `ShellGrammar.AcceptsGrammar` | initial-xv6/src/user/sh.c:328-343 | a text is accepted if and only if its tokens are a line of the grammar, in which every command has fewer than MAXARGS words; every other text is a panic |
| `ShellTyped.TypedToks` | initial-xv6/src/user/sh.c:266-309 | the tokens of a text are the ones it was typed from, whatever blanks are between them, as long as two words, or > and > or >>, do not touch |
| `ShellTyped.TypedLine` | initial-xv6/src/user/sh.c:328-343 | a line of the grammar is parsed to its tree however it is spaced |
| `ShellTyped.TypedSimple` | initial-xv6/src/user/sh.c:416-447 | words and redirections typed in any order, with any blanks, are the redirections in that order around the command of the words |
| `ShellTyped.PipesNest` | initial-xv6/src/user/sh.c:362-373 | a | b | c is a pipe from a to the pipe from b to c |
| `ShellTyped.ListsNest` | initial-xv6/src/user/sh.c:345-360 | a ; b ; c is a followed by the list of b and c |
| `ShellTyped.BackThenNext` | initial-xv6/src/user/sh.c:345-360 | a & ; b is a in the background, then b |
| `ShellTyped.NothingAfterBack` | initial-xv6/src/user/sh.c:350-358 | after & only another &, a ; or the end is accepted, so a & b is a panic |
| `Shell.Parser.Gettoken` | initial-xv6/src/user/sh.c:266-309 | the cursor loops find the token and the rest that the grammar functions of the round trip are defined with |
| `Shell.Parser.PeekFor` | initial-xv6/src/user/sh.c:311-321 | skips blanks and only blanks, and tells whether the next character is one of the wanted |
| `Shell.Parser.Parseredirs` | initial-xv6/src/user/sh.c:375-398 | collects the redirections in order, and fails exactly when a file name is missing |
| `Shell.Parser.Parseargs` | initial-xv6/src/user/sh.c:430-446 | for words and redirections in any order before the end of a command, returns the redirections, the given ones first and then in that order, around the command of the words, and leaves the cursor at the end; too many words or a wrong token is a panic |
| `Shell.Parser.ScanArgs` | initial-xv6/src/user/sh.c:432-446 | the loop over the words computes the parser of the round trip on every text |
| `Shell.Parser.Parseexec` | initial-xv6/src/user/sh.c:416-447 | leaves the cursor and returns what the parser of the round trip does, on every text, for a simple command or a block |
| `Shell.Parser.Parseblock` | initial-xv6/src/user/sh.c:400-414 | leaves the cursor and returns what the parser of the round trip does, on every text; a missing parenthesis is a panic |
| `Shell.Parser.Parsepipe` | initial-xv6/src/user/sh.c:362-373 | leaves the cursor and returns what the parser of the round trip does, on every text, and ends on every text |
| `Shell.Parser.Parseline` | initial-xv6/src/user/sh.c:345-360 | leaves the cursor and returns what the parser of the round trip does, on every text, and ends on every text |
| `Shell.Parser.Parsecmd` | initial-xv6/src/user/sh.c:328-343 | on every text the code accepts exactly the lines of the grammar and returns their trees, and computes the function that undoes printing; text left over is a panic |
| `VirtioModel.FirstFree` | initial-xv6/src/kernel/virtio_disk.c:156-166 | the first free descriptor, or none is free |
| `VirtioModel.Alloc3` | initial-xv6/src/kernel/virtio_disk.c:201-213 | three different free descriptors, or none |
| `VirtioSafety.Alloc3Iff` | initial-xv6/src/kernel/virtio_disk.c:201-213 | three descriptors are found exactly when three are free |
| `VirtioSafety.RingPush` | initial-xv6/src/kernel/virtio_disk.c:271-277 | adding to a ring at a 16-bit index that wraps appends to the queue it holds |
| `VirtioSafety.RingPop` | initial-xv6/src/kernel/virtio_disk.c:312-323 | the entry at the other index is the head of that queue, and the ring then holds the rest |
| `VirtioSafety.RingEmpty` | initial-xv6/src/kernel/virtio_disk.c:312 | the two 16-bit indices are equal exactly when the ring is empty |
| `VirtioSafety.Partition` | initial-xv6/src/kernel/virtio_disk.c:156-213 | every descriptor is free or in one of at most two disjoint chains of three |
| `VirtioSafety.SubmitKeeps` | initial-xv6/src/kernel/virtio_disk.c:216-281 | a new request takes three free descriptors, is offered last, marks its buffer, changes no other descriptor or request, and keeps the invariant of driver and device |
| `VirtioSafety.TakeKeeps` | initial-xv6/src/kernel/virtio_disk.c:271-281 | the device takes the request that was offered first, and nothing else changes |
| `VirtioSafety.FinishKeeps` | initial-xv6/src/kernel/virtio_disk.c:309-316 | a completion, in any order, keeps the invariant of driver and device |
| `VirtioSafety.FinishReports` | initial-xv6/src/kernel/virtio_disk.c:309-316 | the device sets the status of that request and puts it last into the used ring; nothing else changes |
| `VirtioSafety.SeeKeeps` | initial-xv6/src/kernel/virtio_disk.c:312-324 | the interrupt takes the request that finished first, finds its status set and releases the buffer of that request only; nothing else changes |
| `VirtioSafety.ReapKeeps` | initial-xv6/src/kernel/virtio_disk.c:288-289 | none of the three descriptors that are freed is free, so free_desc does not panic; afterwards exactly these three are free and clear, and the request is gone |
| `VirtioSafety.StepKeeps` | initial-xv6/src/kernel/virtio_disk.c:156-327 | every step keeps the invariant of driver and device: free descriptors and chains partition, rings hold each request of their phase once |
| `VirtioSafety.Exec` | initial-xv6/src/kernel/virtio_disk.c:156-327 | the invariant of driver and device holds after every run |
| `VirtioSafety.WaitsForTwo` | initial-xv6/src/kernel/virtio_disk.c:228-233 | a request has to wait exactly while two are in flight |
| `VirtioSafety.ReleasesOwn` | initial-xv6/src/kernel/virtio_disk.c:312-324 | a buffer is released only when its own request is found finished |
| `VirtioSafety.RequestRoundTrip` | initial-xv6/src/kernel/virtio_disk.c:215-327 | a request that is alone in the rings goes to the device and back, and leaves descriptors, requests and rings as they were and its buffer released |
| `Virtio.Disk.constructor` | initial-xv6/src/kernel/virtio_disk.c:118-146 | virtio_disk_init leaves every descriptor free and both rings empty |
| `Virtio.Disk.AllocDesc` | initial-xv6/src/kernel/virtio_disk.c:156-166 | the first free descriptor is taken, or -1 when none is free |
| `Virtio.Disk.FreeDesc` | initial-xv6/src/kernel/virtio_disk.c:169-182 | the descriptor is free and clear; one that does not exist or is free must not be given, which is where the source panics |
| `Virtio.Disk.GiveBack` | initial-xv6/src/kernel/virtio_disk.c:206-210 | the roll-back loop restores all descriptors |
| `Virtio.Disk.AllocThree` | initial-xv6/src/kernel/virtio_disk.c:201-213 | alloc3_desc computes the specification, all or nothing |
| `Virtio.Disk.FreeChain` | initial-xv6/src/kernel/virtio_disk.c:185-197 | the loop frees the three descriptors of the chain |
| `Virtio.Disk.Format` | initial-xv6/src/kernel/virtio_disk.c:235-269 | following the NEXT flags from the head, the device finds a header to read, the data, to write exactly when the disk is read, and a status to write |
| `Virtio.Disk.StartRw` | initial-xv6/src/kernel/virtio_disk.c:215-281 | virtio_disk_rw up to its wait: a chain of request, data and status, offered last in the ring, and the buffer marked, when fewer than two requests are in flight; otherwise nothing changes |
| `VirtioSafety.DeviceReads` | initial-xv6/src/kernel/virtio_disk.c:235-269 | until it is freed, the chain of every request in flight reads to the device as the request was made, whatever other requests do |
| `Virtio.Disk.EndRw` | initial-xv6/src/kernel/virtio_disk.c:288-291 | the request is gone, its three descriptors are free and clear, info of its head is cleared, and nothing else changes; free_desc cannot panic |
| `Virtio.Disk.Intr` | initial-xv6/src/kernel/virtio_disk.c:294-327 | the interrupt handler sees every finished request once and releases exactly their buffers |
| `Lottery.TotalTickets` | initial-xv6/src/kernel/proc.c:600-610 | the sum of the tickets of the runnable processes |
| `Lottery.Draw` | initial-xv6/src/kernel/proc.c:616-634 | the runnable process at which the running sum reaches the drawn value |
| `Lottery.SelectsOne` | initial-xv6/src/kernel/proc.c:619-634 | a draw selects at most one process |
| `Lottery.DrawsPerProcess` | initial-xv6/src/kernel/proc.c:21-24 | of the total + 1 draws exactly as many select a process as it has tickets |
| `Lottery.OneIdleDraw` | initial-xv6/src/kernel/proc.c:21-24 | exactly one of the total + 1 draws selects nobody |
| `Lottery.FirstArrived` | initial-xv6/src/kernel/proc.c:636-645 | no runnable process with the same number of tickets arrived earlier |
| `Lottery.Schedule` | initial-xv6/src/kernel/proc.c:600-662 | the process that runs is runnable, has as many tickets as the drawn one, and arrived first among those; none runs exactly when there are no tickets or for the one idle draw |
| `Alarm.RunKeeps` | initial-xv6/src/kernel/trap.c:92-110 | inside the handler, and only there, one page holds the saved registers |
| `Alarm.AlarmRoundTrip` | initial-xv6/src/kernel/sysproc.c:154-167 | whatever the handler does, it is not entered again, and sigreturn restores the program counter and all registers and frees the page; the count of ticks starts over at the alarm |
| `Alarm.NextAlarm` | initial-xv6/src/kernel/trap.c:92-110 | after sigreturn the next alarm comes exactly at the first tick at which the set number have passed |
| `Alarm.FirstAlarm` | initial-xv6/src/kernel/sysproc.c:142-153 | after sigalarm it comes sooner by the ticks counted before |
| `Alarm.AtOnce` | initial-xv6/src/kernel/sysproc.c:142-153 | for a process that has run n ticks and then sets its first alarm, the alarm comes at the next tick if and only if at most n + 1 ticks were asked for |
| `Alarm.EarlyAlarm` | initial-xv6/src/kernel/sysproc.c:142-153 | a run of a hundred ticks after which an alarm for fifty ticks later comes at the next one |
| `Alarm.Process.TimerTick` | initial-xv6/src/kernel/trap.c:92-110 | the handler is entered exactly when an alarm is due outside of it, with all registers of the interrupted program but the pc, which are kept in one page, and the count then starts over; as the machine does |
| `Alarm.Process.Sigalarm` | initial-xv6/src/kernel/sysproc.c:142-153 | sets interval and handler and nothing else |
| `Alarm.Process.Sigreturn` | initial-xv6/src/kernel/sysproc.c:154-167 | the program goes on with the pc and registers it had at the interrupt, and no page is left over |
| `Alarm.Process.Handle` | initial-xv6/src/kernel/trap.c:92-110 | an alarm, any handler with timer interrupts and sigalarm calls in it, and its sigreturn: the handler is entered once and the program is where it was |

## Left out

- Boot, assembly, device registers, the console and all text output.
- Spinlock atomics and memory fences: acquire and release are atomic steps.
- Directories, paths, link counts, the inode cache and its reference counts, pipes and exec.
- The bytes of an inode on disk: inodes are a map from number to type, size and addresses.
- User memory in file reads and writes: how many bytes `copyin` and `copyout` can reach is a parameter of `Readi` and `Writei`.
- The kernel's own page table, kernel stacks and the TLB. The trampoline is a frame number that is not part of the memory.
- Queue updates of the MLFQ scheduler by several harts at once: the arrays are not protected for that. A process that gives up the hart in the timer interrupt resumes as a further step.
- The uniformity of `rand`, overflow of ticket sums, and pid overflow.
- A process that exits or forks inside its alarm handler, and `sigreturn` outside one.
- Errors that the disk reports, which make the driver panic, and completions that arrive while the interrupt handler runs, which its next run sees.
- `nulterminate` of the shell, which only ends the words in place, and running a command.
- Memory of the machine threaded through the methods of VmWalk, VmMap, VmUser, VmCopy, VmFree, VmProc and VmAccess as a value, and the file system through those of FsInode: an update in place is a new value, and `VmSpaces.AddressSpaces` and `FsFiles.FileSystem` hold the current one.
- VmMap.Uvmunmap: clears the entry before it frees the frame, where the source frees first; the two write to different frames.
- VmUser.Uvmalloc: asks that the address space have room for every free frame, which holds whenever there are fewer than 2^26 - 2 frames; the source runs out of memory before it could reach the trapframe.
- Lottery.Schedule: works on one state of the process table; that another process becomes runnable, or the winner stops being so, between its loops is not in the model.
- Mlfq.Scheduler.Schedule: a round that nothing interrupts; a device interrupt between its loops is a step between two rounds.
- LogCache.StepRefines: a caller that releases a buffer it has changed without log_write, as writei does when copyin fails, is not one of its steps.
- Bcache.Cache.Bget: the part under bcache.lock; waiting for the buffer's sleeplock is a separate step of the machine, and bpin and bunpin are part of its steps LogWrite and Install.
- BcacheSafety.InstallKeeps: an install writes the cached contents to the home block, where the source copies them from the log; `LogCache.InstallRefines` has both buffers and the copy.
- Umalloc.Allocator.Malloc: asks, when sbrk grants memory, that nbytes be at most 0x7FFFFFE0 or that a free block be large enough; otherwise morecore records memory that sbrk did not grant, exactly as `Umalloc.RequestFits` says. The program's own calls of sbrk may only add memory above the heap.
- Umalloc.Allocator.Morecore: asks the same of the memory that sbrk grants.
- FsFiles.FileSystem.constructor: the root directory and the files that mkfs puts on the disk are not there.
