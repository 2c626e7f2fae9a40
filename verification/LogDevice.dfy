/** log.c itself: the loops over the header and the log, proved to take the machine's steps.
    Every disk write is one step, so the crash results of LogCrashSafety hold of every disk
    image these methods produce. */
module LogDevice {
  import opened Basics
  import opened LogMachine
  import opened Params
  import opened LogCrashSafety

  lemma {:induction false} RunSnoc(lay: Layout, s: State, acts: seq<Action>, a: Action)
    requires CanRun(lay, s, acts) && Enabled(lay, Exec(lay, s, acts), a)
    ensures CanRun(lay, s, acts + [a]) && Exec(lay, s, acts + [a]) == Do(lay, Exec(lay, s, acts), a)
    decreases |acts|
  {
    if acts == [] {
      assert acts + [a] == [a] && [a][1..] == [];
    } else {
      assert (acts + [a])[0] == acts[0] && (acts + [a])[1..] == acts[1..] + [a];
      RunSnoc(lay, Do(lay, s, acts[0]), acts[1..], a);
    }
  }

  predicate Committing(pc: Pc) {
    pc.WritingLog? || pc.Finishing? || (pc.Installing? && !pc.recovering)
  }

  class Log {
    const lay: Layout
    var disk: Disk
    var pinned: map<nat, Block>
    var n: nat
    var block: array<nat>
    var outstanding: nat
    var committing: bool
    ghost var origin: State
    ghost var acts: seq<Action>

    ghost function Machine(): State
      requires CanRun(lay, origin, acts)
      reads this
    {
      Exec(lay, origin, acts)
    }

    /** The fields are those of the machine after the steps taken so far. */
    ghost predicate Valid()
      reads this, block
    {
      && Init(lay, origin) && CanRun(lay, origin, acts)
      && block.Length == LOGSIZE && n <= LOGSIZE
      && var s := Machine();
      && s.disk == disk && s.pinned == pinned && s.lh == block[..n]
      && |s.ops| == outstanding && committing == Committing(s.pc)
    }

    /** initlog on a disk that mkfs has made: the log is empty, and recovery finds nothing. */
    constructor (lay: Layout, disk: Disk)
      requires lay.Valid() && |disk| == lay.blocks && HeaderOk(lay, disk[lay.start]) && disk[lay.start][0] == 0
      ensures Valid() && fresh(block) && Machine().pc.Running? && n == 0 && this.disk == disk && this.lay == lay
    {
      this.lay, this.disk, pinned, n := lay, disk, map[], 0;
      block := new nat[LOGSIZE](_ => 0);
      outstanding, committing := 0, false;
      origin, acts := State(disk, map[], [], [], Running, 0, [], []), [];
    }

    ghost method Take(a: Action)
      requires Init(lay, origin) && CanRun(lay, origin, acts) && Enabled(lay, Machine(), a)
      modifies this`acts
      ensures acts == old(acts) + [a]
      ensures CanRun(lay, origin, acts) && Machine() == Do(lay, old(Machine()), a)
    {
      RunSnoc(lay, origin, acts, a);
      acts := acts + [a];
    }

    lemma HasInv()
      requires Init(lay, origin) && CanRun(lay, origin, acts)
      ensures Inv(lay, origin.disk, Machine())
    {
      InitInv(lay, origin);
      RunKeeps(lay, origin.disk, origin, acts);
    }

    /** write_head(): copies the count and the entries into the header block, word by word. */
    method WriteHead()
      requires lay.start < |disk| && block.Length == LOGSIZE && n <= LOGSIZE
      modifies this`disk
      ensures disk == old(disk)[lay.start := PutHeader(old(disk)[lay.start], block[..n])]
    {
      var hb: seq<int> := disk[lay.start];
      hb := hb[0 := n];
      for i := 0 to n
        invariant |hb| == BLOCK_WORDS && hb[0] == n
        invariant forall k :: 0 <= k < i ==> hb[1 + k] == block[k]
        invariant hb[1 + i..] == disk[lay.start][1 + i..]
      {
        hb := hb[1 + i := block[i]];
      }
      assert hb == PutHeader(disk[lay.start], block[..n]);
      disk := disk[lay.start := hb];
    }

    /** read_head() */
    method ReadHead()
      requires lay.start < |disk| && block.Length == LOGSIZE && HeaderOk(lay, disk[lay.start])
      modifies this`n, block
      ensures n <= LOGSIZE && block[..n] == Header(lay, disk[lay.start])
    {
      var lh := disk[lay.start];
      n := lh[0];
      for i := 0 to n
        invariant n == lh[0] <= LOGSIZE
        invariant forall k :: 0 <= k < i ==> block[k] == lh[k + 1]
      {
        block[i] := lh[i + 1];
      }
    }

    /** One pass of begin_op()'s loop: false means the caller sleeps and tries again. */
    method BeginOp() returns (ok: bool)
      requires Valid() && !Machine().pc.Down? && !(Machine().pc.Installing? && Machine().pc.recovering)
      modifies this`outstanding, this`acts
      ensures Valid()
      ensures ok == (!committing && n + (old(outstanding) + 1) * MAXOPBLOCKS <= LOGSIZE)
      ensures acts == if ok then old(acts) + [Action.BeginOp] else old(acts)
      ensures outstanding == if ok then old(outstanding) + 1 else old(outstanding)
      ensures ok ==> var s, s' := old(Machine()), Machine();
              && s'.pc.Running? && s'.ops == s.ops + [Op(s.nextOp, 0)] && s'.group == s.group + [Begin(s.nextOp)]
              && s'.groups == s.groups
    {
      if committing {
        return false;
      } else if n + (outstanding + 1) * MAXOPBLOCKS > LOGSIZE {
        return false;
      }
      outstanding := outstanding + 1;
      Take(Action.BeginOp);
      return true;
    }

    /** log_write()'s search: the entry for `bno`, or n. */
    method FindEntry(bno: nat) returns (i: nat)
      requires n <= block.Length
      ensures i <= n && bno !in block[..i] && (i < n ==> block[i] == bno)
    {
      i := 0;
      while i < n && block[i] != bno
        invariant i <= n && bno !in block[..i]
      {
        i := i + 1;
      }
    }

    /** The caller holds the buffer for `bno` and has set its contents to `data`; `op` is the
        caller's place among the outstanding operations. */
    method LogWrite(ghost op: nat, bno: nat, data: Block)
      requires Valid() && Machine().pc.Running?
      requires op < outstanding && lay.Home(bno) && !LogFull(lay, block[..n])
      modifies this`pinned, this`n, this`acts, block
      ensures Valid() && acts == old(acts) + [Action.LogWrite(op, bno, data)]
      ensures pinned == old(pinned)[bno := data]
      ensures block[..n] == old(block[..n]) + if bno in old(block[..n]) then [] else [bno]
      ensures var s, s' := old(Machine()), Machine();
              && s'.pc.Running? && op < |s.ops| == |s'.ops| && s'.ops[op].id == s.ops[op].id
              && s'.group == s.group + [Write(s.ops[op].id, bno, data)] && s'.groups == s.groups
    {
      var i := FindEntry(bno);
      ghost var was := block[..n];
      Take(Action.LogWrite(op, bno, data));
      block[i] := bno;
      pinned := pinned[bno := data];
      if i == n {
        n := n + 1;
        assert bno !in was && block[..n] == was + [bno];
      } else {
        assert was[i] == bno && block[..n] == was;
      }
    }

    /** install_trans(): log slots to home blocks. */
    method InstallTrans(recovering: bool)
      requires Valid() && Machine().pc == Installing(0, recovering)
      modifies this`disk, this`pinned, this`acts
      ensures Valid() && Machine().pc == Installing(n, recovering)
      ensures Machine().lh == old(Machine().lh) && Machine().groups == old(Machine().groups)
      ensures old(acts) <= acts
    {
      hide Inv, Init, Exec, CanRun, PutHeader, HeaderOk, Header;
      HasInv();
      for tail := 0 to n
        invariant Valid() && Machine().pc == Installing(tail, recovering)
        invariant Inv(lay, origin.disk, Machine())
        invariant Machine().groups == old(Machine().groups)
        invariant old(acts) <= acts
      {
        InstallKeeps(lay, origin.disk, Machine(), if recovering then Running else Finishing);
        var lbuf := disk[lay.Slot(tail)];
        Take(if recovering then RecoverStep else CommitStep);
        disk := disk[block[tail] := lbuf];
        pinned := pinned - {block[tail]};
        HasInv();
      }
    }

    /** write_log(): pinned blocks to log slots. */
    method WriteLog()
      requires Valid() && Machine().pc == WritingLog(0)
      modifies this`disk, this`acts
      ensures Valid() && Machine().pc == WritingLog(n)
      ensures Machine() == old(Machine()).(disk := Machine().disk, pc := Machine().pc)
      ensures old(acts) <= acts
    {
      hide Inv, Init, Exec, CanRun, PutHeader, HeaderOk, Header;
      HasInv();
      for tail := 0 to n
        invariant Valid() && Machine().pc == WritingLog(tail)
        invariant Inv(lay, origin.disk, Machine())
        invariant Machine() == old(Machine()).(disk := Machine().disk, pc := Machine().pc)
        invariant old(acts) <= acts
      {
        WriteSlotKeeps(lay, origin.disk, Machine());
        var from := pinned[block[tail]];
        Take(CommitStep);
        disk := disk[lay.Slot(tail) := from];
        HasInv();
      }
    }

    /** The write_head() that commits. */
    method CommitPoint()
      requires Valid() && Machine().pc == WritingLog(n)
      modifies this`disk, this`acts
      ensures Valid() && Machine().pc == Installing(0, false) && acts == old(acts) + [CommitStep]
      ensures Machine().groups == old(Machine().groups) + [old(Machine()).group]
    {
      hide Inv, Init, Exec, CanRun, PutHeader, HeaderOk, Header;
      HasInv();
      CommitPointKeeps(lay, origin.disk, Machine());
      Take(CommitStep);
      WriteHead();
    }

    /** Sets the count to zero and writes the header that erases the transaction. */
    method ClearLog(recovering: bool)
      requires Valid() && Machine().pc == Installing(n, recovering)
      modifies this`disk, this`n, this`acts
      ensures Valid() && Machine().pc == (if recovering then Running else Finishing) && n == 0
      ensures Machine().groups == old(Machine().groups) && old(acts) <= acts
    {
      hide Inv, Init, Exec, CanRun, PutHeader, HeaderOk, Header;
      HasInv();
      InstallKeeps(lay, origin.disk, Machine(), if recovering then Running else Finishing);
      Take(if recovering then RecoverStep else CommitStep);
      n := 0;
      assert block[..n] == [];
      WriteHead();
    }

    /** commit() */
    method Commit()
      requires Valid()
      requires var s := Machine(); if n > 0 then s.pc == WritingLog(0) else s.pc == Finishing
      modifies this`disk, this`pinned, this`n, this`acts
      ensures Valid() && Machine().pc == Finishing && n == 0
      ensures Machine().groups ==
              if old(n) > 0 then old(Machine().groups) + [old(Machine().group)] else old(Machine().groups)
      ensures old(acts) <= acts
    {
      HasInv();
      if n > 0 {
        WriteLog();
        CommitPoint();
        InstallTrans(false);
        ClearLog(false);
      }
    }

    /** end_op(): the last operation out commits. */
    method EndOp(ghost op: nat)
      requires Valid() && Machine().pc.Running? && op < outstanding
      modifies this`disk, this`pinned, this`n, this`outstanding, this`committing, this`acts
      ensures Valid() && Machine().pc.Running?
      ensures outstanding == old(outstanding) - 1
      ensures outstanding == 0 ==>
                n == 0 && Machine().groups ==
                          old(Machine().groups) + [old(Machine()).group + [End(old(Machine()).ops[op].id)]]
      ensures outstanding > 0 ==> disk == old(disk) && n == old(n) && Machine().groups == old(Machine().groups)
      ensures old(acts) <= acts
    {
      hide Init, Exec, CanRun, PutHeader, HeaderOk, Header;
      Take(Action.EndOp(op));
      outstanding := outstanding - 1;
      if outstanding == 0 {
        committing := true;
        Commit();
        Take(CommitStep);
        committing := false;
      }
    }

    /** recover_from_log(), called while no operation can run. */
    method RecoverFromLog()
      requires Valid() && Machine().pc.Down?
      modifies this`disk, this`pinned, this`n, this`acts, block
      ensures Valid() && Machine().pc.Running? && n == 0
      ensures SameHome(lay, disk, AfterAll(origin.disk, Machine().groups))
      ensures Machine().groups == old(Machine().groups)
      ensures EmptyHeader(lay, disk)
    {
      HasInv();
      ReadHeadKeeps(lay, origin.disk, Machine());
      ReadHead();
      Take(RecoverStep);
      InstallTrans(true);
      ClearLog(true);
      HasInv();
    }

    /** The machine stops at any point, all that is not on disk is lost, and it starts again
        with initlog: the home blocks are as the committed groups left them. */
    method Restart()
      requires Valid()
      modifies this, block
      ensures Valid() && Machine().pc.Running? && n == 0 && outstanding == 0 && block == old(block)
      ensures SameHome(lay, disk, AfterAll(origin.disk, Machine().groups))
      ensures origin == old(origin) && Machine().groups == old(Machine().groups)
    {
      pinned, n, outstanding, committing := map[], 0, 0, false;
      Take(Crash);
      RecoverFromLog();
    }
  }

  /** A block that one operation wrote has its new contents after end_op and a crash, and every
      other block has what was cached or, if it was not, on the disk before. */
  method WriteSurvives(log: Log, bno: nat, data: Block) returns (ok: bool)
    requires log.Valid() && log.Machine().pc.Running? && log.outstanding == 0 && log.lay.Home(bno)
    requires !LogFull(log.lay, log.block[..log.n])
    modifies log, log.block
    ensures log.Valid() && log.Machine().pc.Running? && |log.disk| == |old(log.disk)| == log.lay.blocks
    ensures ok ==> forall b :: log.lay.Home(b) ==>
              log.disk[b] == if b == bno then data
                             else if b in old(log.pinned) then old(log.pinned)[b] else old(log.disk)[b]
  {
    hide Init, Exec, CanRun, PutHeader, HeaderOk, Header, After, AfterAll;
    ghost var s0, origin, acts0 := log.Machine(), log.origin, log.acts;
    log.HasInv();
    forall b | log.lay.Home(b)
      ensures After(AfterAll(origin.disk, s0.groups), s0.group)[b] ==
              if b in s0.pinned then s0.pinned[b] else s0.disk[b]
    {
      ReadsNewest(log.lay, origin, acts0, b);
    }
    ok := log.BeginOp();
    if ok {
      log.LogWrite(0, bno, data);
      ghost var s1 := log.Machine();
      log.EndOp(0);
      ghost var s2 := log.Machine();
      log.Restart();
      ghost var d := AfterAll(origin.disk, s0.groups);
      AfterAllSnoc(origin.disk, s0.groups, s1.group + [End(s1.ops[0].id)]);
      AfterSnoc(d, s1.group, End(s1.ops[0].id));
      AfterSnoc(d, s0.group + [Begin(s0.nextOp)], Write(s1.ops[0].id, bno, data));
      AfterSnoc(d, s0.group, Begin(s0.nextOp));
    }
  }
}
