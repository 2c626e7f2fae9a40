/** What every step of fork, exit and wait keeps. */
module ExitWaitSafety {
  import opened ExitWait

  predicate IsDead(pc: Pc) { pc.Dying? || pc.Gone? }

  /** What a step that only moves a process along must see to. */
  ghost predicate CanMove(s: State, p: nat, c: Pc)
    requires Shape(s) && p < |s.pc|
  {
    var b := s.pc[p];
    && (HasWait(c) ==> HasWait(b) || WaitFree(s))
    && (c.Idle? == b.Idle?) && (IsDead(c) == IsDead(b))
    && (Forking(c) ==> Forking(b) && c.np == b.np && c.ForkSet? == b.ForkSet?)
    && (b.ReparentWake? ==> !Sleepy(s.pc[0])) && (Exiting(c) ==> Exiting(b) || p != 0)
    && (c.ExitZombie? ==> s.parent[p] < |s.pc| ==> !Sleepy(s.pc[s.parent[p]]))
    && (forall k :: ExitOk(At(s, p, c), p, k)) && (forall k :: ScanOk(At(s, p, c), p, k))
    && (Sleepy(c) ==> Sleepy(b) || (HasWait(b) && forall k :: !IsZombieChild(s, k, p)))
  }

  lemma MoveKeeps(s: State, p: nat, c: Pc)
    requires Inv(s) && p < |s.pc| && CanMove(s, p, c)
    ensures Inv(At(s, p, c))
  {
    var s' := At(s, p, c);
    forall q: nat, r: nat ensures LockOk(s', q, r) { assert LockOk(s, q, r); }
    forall q: nat ensures StatusOk(s', q) { assert StatusOk(s, q); }
    forall k: nat ensures ParentOk(s', k) { assert ParentOk(s, k); }
    forall q: nat ensures ForkOk(s', q) { assert ForkOk(s, q); }
    forall q: nat, r: nat ensures ForksOk(s', q, r) { assert ForksOk(s, q, r); }
    forall q: nat, k: nat ensures ExitOk(s', q, k) { assert ExitOk(s, q, k); }
    forall q: nat, k: nat ensures ScanOk(s', q, k) { assert ScanOk(s, q, k); }
    forall q: nat, k: nat ensures SleeperOk(s', q, k) {
      assert SleeperOk(s, q, k) && (IsZombieChild(s', k, q) ==> IsZombieChild(s, k, q));
      if !s.pc[p].ReparentWake? { RousingStays(s, s', p); } else { OneRouser(s, p); }
    }
    forall q: nat ensures WokenOk(s', q) {
      assert WokenOk(s, q) && LockOk(s, p, q) && StatusOk(s, p) && ParentOk(s, p);
    }
    forall q: nat, r: nat ensures IdOk(s', q, r) { assert IdOk(s, q, r); }
    forall k: nat ensures MotherOk(s', k) { assert MotherOk(s, k); }
    forall x ensures ReapedOk(s', x) { assert ReapedOk(s, x); }
  }

  lemma OneRouser(s: State, p: nat)
    requires Inv(s) && p < |s.pc| && s.pc[p].ReparentWake?
    ensures forall r: nat :: Rousing(s, r) ==> r == p
  {
    forall r: nat | Rousing(s, r) ensures r == p { assert LockOk(s, p, r); }
  }

  lemma RousingStays(s: State, s': State, p: nat)
    requires p < |s.pc| && !s.pc[p].ReparentWake? && |s'.pc| == |s.pc|
             && forall q :: 0 <= q < |s.pc| && q != p && s.pc[q].ReparentWake? ==> s'.pc[q] == s.pc[q]
    ensures (exists r: nat :: Rousing(s, r)) ==> exists r: nat :: Rousing(s', r)
  {
    if exists r: nat :: Rousing(s, r) {
      var r: nat :| Rousing(s, r);
      assert Rousing(s', r);
    }
  }

  lemma ForkKeeps(s: State, p: nat, np: nat)
    requires Inv(s) && p < |s.pc| && np < |s.st| && s.pc[p].User? && s.st[np].UNUSED?
    ensures Inv(At(s.(st := s.st[np := USED], id := s.id[np := s.next], next := s.next + 1,
              mother := s.mother[s.next := s.id[p]]), p, ForkWant(np)))
  {
    var s' := At(s.(st := s.st[np := USED], id := s.id[np := s.next], next := s.next + 1,
        mother := s.mother[s.next := s.id[p]]), p, ForkWant(np));
    assert StatusOk(s, p) && StatusOk(s, np);
    forall q: nat, r: nat ensures LockOk(s', q, r) { assert LockOk(s, q, r); }
    forall q: nat ensures StatusOk(s', q) { assert StatusOk(s, q); }
    forall k: nat ensures ParentOk(s', k) { assert ParentOk(s, k) && StatusOk(s, k); }
    forall q: nat ensures ForkOk(s', q) {
      assert ForkOk(s, q) && StatusOk(s, q) && (q < |s.pc| && Forking(s.pc[q]) ==> StatusOk(s, s.pc[q].np));
    }
    forall q: nat, r: nat ensures ForksOk(s', q, r) { assert ForksOk(s, q, r) && ForkOk(s, q) && ForkOk(s, r); }
    forall q: nat, k: nat ensures ExitOk(s', q, k) { assert ExitOk(s, q, k); }
    forall q: nat, k: nat ensures ScanOk(s', q, k) { assert ScanOk(s, q, k); }
    forall q: nat, k: nat ensures SleeperOk(s', q, k) { assert SleeperOk(s, q, k); RousingStays(s, s', p); }
    forall q: nat ensures WokenOk(s', q) { assert WokenOk(s, q); }
    forall q: nat, r: nat ensures IdOk(s', q, r) { assert IdOk(s, q, r) && StatusOk(s, q) && StatusOk(s, r); }
    forall k: nat ensures MotherOk(s', k) {
      assert MotherOk(s, k) && ParentOk(s, k) && StatusOk(s, k) && (k < |s.parent| ==> StatusOk(s, s.parent[k]));
    }
    forall x ensures ReapedOk(s', x) { assert ReapedOk(s, x); }
  }

  lemma AbortKeeps(s: State, p: nat)
    requires Inv(s) && p < |s.pc| && s.pc[p].ForkWant? && s.pc[p].np < |s.st|
    ensures Inv(At(s.(st := s.st[s.pc[p].np := UNUSED], id := s.id[s.pc[p].np := 0],
              parent := s.parent[s.pc[p].np := |s.st|]), p, User))
  {
    var s' := At(s.(st := s.st[s.pc[p].np := UNUSED], id := s.id[s.pc[p].np := 0],
        parent := s.parent[s.pc[p].np := |s.st|]), p, User);
    assert ForkOk(s, p) && StatusOk(s, s.pc[p].np);
    forall q: nat, r: nat ensures LockOk(s', q, r) { assert LockOk(s, q, r); }
    forall q: nat ensures StatusOk(s', q) { assert StatusOk(s, q); }
    forall k: nat ensures ParentOk(s', k) { assert ParentOk(s, k); }
    forall q: nat ensures ForkOk(s', q) { assert ForkOk(s, q) && ForksOk(s, p, q); }
    forall q: nat, r: nat ensures ForksOk(s', q, r) { assert ForksOk(s, q, r); }
    forall q: nat, k: nat ensures ExitOk(s', q, k) { assert ExitOk(s, q, k); }
    forall q: nat, k: nat ensures ScanOk(s', q, k) { assert ScanOk(s, q, k); }
    forall q: nat, k: nat ensures SleeperOk(s', q, k) { assert SleeperOk(s, q, k); RousingStays(s, s', p); }
    forall q: nat ensures WokenOk(s', q) { assert WokenOk(s, q); }
    forall q: nat, r: nat ensures IdOk(s', q, r) { assert IdOk(s, q, r); }
    forall k: nat ensures MotherOk(s', k) { assert MotherOk(s, k) && ParentOk(s, k); }
    forall x ensures ReapedOk(s', x) { assert ReapedOk(s, x); }
  }

  lemma AdoptKeeps(s: State, p: nat)
    requires Inv(s) && p < |s.pc| && s.pc[p].ForkHas? && s.pc[p].np < |s.parent|
    ensures Inv(At(s.(parent := s.parent[s.pc[p].np := p]), p, ForkSet(s.pc[p].np)))
  {
    var s' := At(s.(parent := s.parent[s.pc[p].np := p]), p, ForkSet(s.pc[p].np));
    assert ForkOk(s, p) && StatusOk(s, p);
    forall q: nat, r: nat ensures LockOk(s', q, r) { assert LockOk(s, q, r); }
    forall q: nat ensures StatusOk(s', q) { assert StatusOk(s, q); }
    forall k: nat ensures ParentOk(s', k) { assert ParentOk(s, k); }
    forall q: nat ensures ForkOk(s', q) { assert ForkOk(s, q) && ForksOk(s, p, q); }
    forall q: nat, r: nat ensures ForksOk(s', q, r) { assert ForksOk(s, q, r); }
    forall q: nat, k: nat ensures ExitOk(s', q, k) { assert ExitOk(s, q, k); }
    forall q: nat, k: nat ensures ScanOk(s', q, k) { assert ScanOk(s, q, k); }
    forall q: nat, k: nat ensures SleeperOk(s', q, k) { assert SleeperOk(s, q, k); RousingStays(s, s', p); }
    forall q: nat ensures WokenOk(s', q) { assert WokenOk(s, q); }
    forall q: nat, r: nat ensures IdOk(s', q, r) { assert IdOk(s, q, r); }
    forall k: nat ensures MotherOk(s', k) { assert MotherOk(s, k); }
    forall x ensures ReapedOk(s', x) { assert ReapedOk(s, x); }
  }

  lemma StartKeeps(s: State, p: nat)
    requires Inv(s) && p < |s.pc| && s.pc[p].ForkSet? && s.pc[p].np < |s.st| && s.pc[p].np < |s.pc|
    ensures Inv(At(At(s.(st := s.st[s.pc[p].np := ALIVE]), s.pc[p].np, User), p, User))
  {
    var s' := At(At(s.(st := s.st[s.pc[p].np := ALIVE]), s.pc[p].np, User), p, User);
    assert ForkOk(s, p) && StatusOk(s, p) && StatusOk(s, s.pc[p].np);
    forall q: nat, r: nat ensures LockOk(s', q, r) { assert LockOk(s, q, r); }
    forall q: nat ensures StatusOk(s', q) { assert StatusOk(s, q); }
    forall k: nat ensures ParentOk(s', k) { assert ParentOk(s, k); }
    forall q: nat ensures ForkOk(s', q) { assert ForkOk(s, q) && ForksOk(s, p, q); }
    forall q: nat, r: nat ensures ForksOk(s', q, r) { assert ForksOk(s, q, r); }
    forall q: nat, k: nat ensures ExitOk(s', q, k) { assert ExitOk(s, q, k); }
    forall q: nat, k: nat ensures ScanOk(s', q, k) { assert ScanOk(s, q, k); }
    forall q: nat, k: nat ensures SleeperOk(s', q, k) { assert SleeperOk(s, q, k); RousingStays(s, s', p); }
    forall q: nat ensures WokenOk(s', q) { assert WokenOk(s, q); }
    forall q: nat, r: nat ensures IdOk(s', q, r) { assert IdOk(s, q, r); }
    forall k: nat ensures MotherOk(s', k) { assert MotherOk(s, k); }
    forall x ensures ReapedOk(s', x) { assert ReapedOk(s, x); }
  }

  lemma ReparentKeeps(s: State, p: nat, k: nat)
    requires Inv(s) && p < |s.pc| && s.pc[p] == Reparent(k) && k < |s.parent| && s.parent[k] == p
    ensures Inv(At(s.(parent := s.parent[k := 0]), p, ReparentWake(k)))
  {
    var s' := At(s.(parent := s.parent[k := 0]), p, ReparentWake(k));
    assert StatusOk(s, p) && StatusOk(s, 0) && Rousing(s', p);
    forall q: nat, r: nat ensures LockOk(s', q, r) { assert LockOk(s, q, r); }
    forall q: nat ensures StatusOk(s', q) { assert StatusOk(s, q); }
    forall j: nat ensures ParentOk(s', j) { assert ParentOk(s, j); }
    forall q: nat ensures ForkOk(s', q) { assert ForkOk(s, q) && LockOk(s, p, q) && ExitOk(s, p, k); }
    forall q: nat, r: nat ensures ForksOk(s', q, r) { assert ForksOk(s, q, r); }
    forall q: nat, j: nat ensures ExitOk(s', q, j) { assert ExitOk(s, q, j) && LockOk(s, p, q); }
    forall q: nat, j: nat ensures ScanOk(s', q, j) { assert ScanOk(s, q, j) && LockOk(s, p, q); }
    forall q: nat, j: nat ensures SleeperOk(s', q, j) { assert SleeperOk(s, q, j); }
    forall q: nat ensures WokenOk(s', q) { assert WokenOk(s, q) && LockOk(s, p, q); }
    forall q: nat, r: nat ensures IdOk(s', q, r) { assert IdOk(s, q, r); }
    forall j: nat ensures MotherOk(s', j) { assert MotherOk(s, j); }
    forall x ensures ReapedOk(s', x) { assert ReapedOk(s, x); }
  }

  /** wakeup of a process that is not between giving up wait_lock and being asleep. */
  lemma WakeKeeps(s: State, p: nat, t: nat)
    requires Inv(s) && p < |s.pc| && HasWait(s.pc[p]) && !Sleepy(s.pc[p]) && CanWake(s, t)
    ensures Inv(Woken(s, t)) && Woken(s, t).pc[p] == s.pc[p] && (t < |s.pc| ==> !Sleepy(Woken(s, t).pc[t]))
  {
    if t < |s.pc| {
      assert LockOk(s, p, t);
      if s.pc[t].Asleep? {
        forall k: nat ensures ExitOk(At(s, t, Roused), t, k) && ScanOk(At(s, t, Roused), t, k) {
          assert ExitOk(s, t, k);
        }
        MoveKeeps(s, t, Roused);
      }
    }
  }

  lemma RouseInitKeeps(s: State, p: nat, k: nat)
    requires Inv(s) && p < |s.pc| && s.pc[p] == ReparentWake(k) && CanWake(s, 0)
    ensures Inv(At(Woken(s, 0), p, Reparent(k + 1)))
  {
    WakeKeeps(s, p, 0);
    var s1, c := Woken(s, 0), Reparent(k + 1);
    forall j: nat ensures ExitOk(At(s1, p, c), p, j) && ScanOk(At(s1, p, c), p, j) { assert ExitOk(s1, p, j); }
    MoveKeeps(s1, p, c);
  }

  lemma RouseParentKeeps(s: State, p: nat)
    requires Inv(s) && p < |s.pc| && p < |s.parent| && s.pc[p].ExitWake? && CanWake(s, s.parent[p])
    ensures Inv(At(Woken(s, s.parent[p]), p, ExitZombie))
  {
    WakeKeeps(s, p, s.parent[p]);
    var s1 := Woken(s, s.parent[p]);
    forall j: nat ensures ExitOk(At(s1, p, ExitZombie), p, j) && ScanOk(At(s1, p, ExitZombie), p, j) {
      assert ExitOk(s1, p, j);
    }
    MoveKeeps(s1, p, ExitZombie);
  }

  lemma DieKeeps(s: State, p: nat)
    requires Inv(s) && p < |s.pc| && p < |s.st| && s.pc[p].ExitZombie?
    ensures Inv(At(s.(st := s.st[p := ZOMBIE]), p, Dying))
  {
    var s' := At(s.(st := s.st[p := ZOMBIE]), p, Dying);
    assert StatusOk(s, p) && WokenOk(s, p);
    forall q: nat, r: nat ensures LockOk(s', q, r) { assert LockOk(s, q, r); }
    forall q: nat ensures StatusOk(s', q) { assert StatusOk(s, q); }
    forall k: nat ensures ParentOk(s', k) { assert ParentOk(s, k) && ExitOk(s, p, k); }
    forall q: nat ensures ForkOk(s', q) {
      assert ForkOk(s, q) && (q < |s.pc| && Forking(s.pc[q]) ==> StatusOk(s, s.pc[q].np));
    }
    forall q: nat, r: nat ensures ForksOk(s', q, r) { assert ForksOk(s, q, r); }
    forall q: nat, k: nat ensures ExitOk(s', q, k) { assert ExitOk(s, q, k); }
    forall q: nat, k: nat ensures ScanOk(s', q, k) { assert ScanOk(s, q, k) && LockOk(s, p, q); }
    forall q: nat, k: nat ensures SleeperOk(s', q, k) { assert SleeperOk(s, q, k); RousingStays(s, s', p); }
    forall q: nat ensures WokenOk(s', q) { assert WokenOk(s, q) && LockOk(s, p, q); }
    forall q: nat, r: nat ensures IdOk(s', q, r) { assert IdOk(s, q, r); }
    forall k: nat ensures MotherOk(s', k) { assert MotherOk(s, k); }
    forall x ensures ReapedOk(s', x) { assert ReapedOk(s, x); }
  }

  /** The state after p has freed its zombie child k. */
  ghost function Reaping(s: State, p: nat, k: nat): State
    requires p < |s.pc| && k < |s.st| && k < |s.parent| && k < |s.id| && k < |s.pc| && p < |s.id|
  {
    var s1 := s.(st := s.st[k := UNUSED], parent := s.parent[k := |s.st|], id := s.id[k := 0],
                 reaped := s.reaped[s.id[k] := s.id[p]]);
    At(At(s1, k, Idle), p, WaitDone)
  }

  ghost predicate CanReap(s: State, p: nat, k: nat) {
    && p < |s.pc| && k < |s.st| && k < |s.parent| && k < |s.id| && k < |s.pc| && p < |s.id|
    && s.pc[p].Scan? && s.parent[k] == p && s.st[k].ZOMBIE?
  }

  lemma ReapIds(s: State, p: nat, k: nat)
    requires Inv(s) && CanReap(s, p, k)
    ensures var s' := Reaping(s, p, k);
            && (forall q, r :: IdOk(s', q, r)) && (forall j :: MotherOk(s', j)) && (forall x :: ReapedOk(s', x))
  {
    var s' := Reaping(s, p, k);
    assert StatusOk(s, p) && StatusOk(s, k) && MotherOk(s, k) && k != p && IdOk(s, 0, k);
    ReapedOnce(s, k);
    forall q: nat, r: nat ensures IdOk(s', q, r) { assert IdOk(s, q, r); }
    forall j: nat ensures MotherOk(s', j) { assert MotherOk(s, j) && ParentOk(s, j); }
    forall x ensures ReapedOk(s', x) { assert ReapedOk(s, x); }
  }

  lemma ReapKeeps(s: State, p: nat, k: nat)
    requires Inv(s) && CanReap(s, p, k)
    ensures Inv(Reaping(s, p, k))
  {
    hide IdOk, MotherOk, ReapedOk;
    var s' := Reaping(s, p, k);
    ReapIds(s, p, k);
    assert StatusOk(s, p) && StatusOk(s, k) && k != p;
    forall q: nat, r: nat ensures LockOk(s', q, r) { assert LockOk(s, q, r); }
    forall q: nat ensures StatusOk(s', q) { assert StatusOk(s, q); }
    forall j: nat ensures ParentOk(s', j) { assert ParentOk(s, j); }
    forall q: nat ensures ForkOk(s', q) { assert ForkOk(s, q); }
    forall q: nat, r: nat ensures ForksOk(s', q, r) { assert ForksOk(s, q, r); }
    forall q: nat, j: nat ensures ExitOk(s', q, j) { assert ExitOk(s, q, j); }
    forall q: nat, j: nat ensures ScanOk(s', q, j) { assert ScanOk(s, q, j) && LockOk(s, p, q); }
    forall q: nat, j: nat ensures SleeperOk(s', q, j) { assert SleeperOk(s, q, j); RousingStays(s, s', p); }
    forall q: nat ensures WokenOk(s', q) { assert WokenOk(s, q) && LockOk(s, p, q); }
  }

  /** A pid in the table is nobody else's and has not been reaped. */
  lemma ReapedOnce(s: State, k: nat)
    requires Inv(s) && k < |s.id| && s.id[k] != 0
    ensures s.id[k] !in s.reaped && s.id[k] !in s.id[k := 0]
  {
    assert ReapedOk(s, s.id[k]);
    assert s.id[k] in s.id;
    forall j: nat | j < |s.id| && j != k ensures s.id[j] != s.id[k] { assert IdOk(s, k, j); }
  }

  // ----- Every step -----

  /** The steps that only move a process along. */
  lemma MoveStep(s: State, p: nat, c: Pc)
    requires Inv(s) && p < |s.pc|
    requires var b := s.pc[p];
             || (b.User? && (c.WaitWant? || (c.ExitWant? && p != 0)))
             || (b.Scan? && c.WaitDone?) || (b.Asleep? && c.Roused?)
             || (b.ForkWant? && c == ForkHas(b.np) && WaitFree(s))
             || (b.ExitWant? && c == Reparent(0) && WaitFree(s))
             || (b.Reparent? && b.k < |s.st| && s.parent[b.k] != p && c == Reparent(b.k + 1))
             || (b.Reparent? && b.k >= |s.st| && c.ExitWake?)
             || (b.Dying? && c.Gone?)
             || (b.WaitWant? && c == Scan(0, false) && WaitFree(s))
             || (b.Scan? && b.k < |s.st| && s.parent[b.k] != p && c == Scan(b.k + 1, b.kids))
             || (b.Scan? && b.k < |s.st| && !s.st[b.k].ZOMBIE? && c == Scan(b.k + 1, true))
             || (b.Scan? && b.k >= |s.st| && b.kids && c.WantOwn?)
             || (b.WantOwn? && c.HasBoth?) || (b.HasBoth? && c.Committed?) || (b.Committed? && c.Dozing?)
               || (b.Dozing? && c.Asleep?)
             || (b.Roused? && c.WaitWant?) || (b.WaitDone? && c.User?)
    ensures Inv(At(s, p, c))
  {
    hide Inv;
    InvHas(s, p);
    var s' := At(s, p, c);
    forall k: nat ensures ExitOk(s', p, k) { InvParent(s, p, k); }
    forall k: nat ensures ScanOk(s', p, k) { InvParent(s, p, k); }
    forall k: nat ensures c.WantOwn? ==> !IsZombieChild(s, k, p) { InvParent(s, p, k); }
    MoveKeeps(s, p, c);
  }

  lemma InvHas(s: State, p: nat)
    requires Inv(s)
    ensures Shape(s) && StatusOk(s, p)
  {
  }

  lemma InvParent(s: State, p: nat, k: nat)
    requires Inv(s)
    ensures ExitOk(s, p, k) && ScanOk(s, p, k) && StatusOk(s, k)
  {
  }

  lemma StepKeeps(s: State, a: Action)
    requires Inv(s) && Enabled(s, a)
    ensures Inv(Do(s, a))
  {
    hide Inv;
    var p := a.p;
    InvHas(s, p);
    match a
    case Fork(_, np) => ForkKeeps(s, p, np);
    case Abort(_) => AbortKeeps(s, p);
    case Exit(_) => MoveStep(s, p, ExitWant);
    case Wait(_) => MoveStep(s, p, WaitWant);
    case GiveUp(_) => MoveStep(s, p, WaitDone);
    case Kill(_) => MoveStep(s, p, Roused);
    case Step(_) =>
      var b := s.pc[p];
      if b.ForkHas? { AdoptKeeps(s, p); }
      else if b.ForkSet? { StartKeeps(s, p); }
      else if b.Reparent? && b.k < |s.st| && s.parent[b.k] == p { ReparentKeeps(s, p, b.k); }
      else if b.ReparentWake? { RouseInitKeeps(s, p, b.k); }
      else if b.ExitWake? { RouseParentKeeps(s, p); }
      else if b.ExitZombie? { DieKeeps(s, p); }
      else if b.Scan? && b.k < |s.st| && s.parent[b.k] == p && s.st[b.k].ZOMBIE? { ReapKeeps(s, p, b.k); }
      else { MoveStep(s, p, Do(s, a).pc[p]); }
  }

  // ----- Every run -----

  ghost predicate CanRun(s: State, acts: seq<Action>)
    requires Inv(s)
    decreases |acts|
  {
    acts == [] || (Enabled(s, acts[0]) && (StepKeeps(s, acts[0]); CanRun(Do(s, acts[0]), acts[1..])))
  }

  /** The state after a run, which keeps the invariant. */
  ghost function Exec(s: State, acts: seq<Action>): (s': State)
    requires Inv(s) && CanRun(s, acts)
    ensures Inv(s')
    decreases |acts|
  {
    if acts == [] then s else
      StepKeeps(s, acts[0]);
      Exec(Do(s, acts[0]), acts[1..])
  }

  /** After boot: only the init process, with pid 1. */
  ghost predicate Init(s: State) {
    && Shape(s) && s.st[0].ALIVE? && s.pc[0].User? && s.id[0] == 1 && s.next == 2 && s.mother == map[]
      && s.reaped == map[]
    && (forall p :: 0 < p < |s.st| ==> s.st[p].UNUSED? && s.pc[p].Idle? && s.id[p] == 0)
    && (forall p :: 0 <= p < |s.st| ==> s.parent[p] == |s.st|)
  }

  lemma InitInv(s: State)
    requires Init(s)
    ensures Inv(s)
  {
  }

  /** In every run a process has a living parent or none; in particular no process has a
      ZOMBIE or UNUSED parent. */
  lemma ParentsLive(s: State, acts: seq<Action>, k: nat)
    requires Init(s) && Inv(s) && CanRun(s, acts)
    ensures var t := Exec(s, acts);
            k < |t.parent| && t.parent[k] != |t.st| ==> t.parent[k] < |t.st| && t.st[t.parent[k]].ALIVE?
  {
    assert ParentOk(Exec(s, acts), k);
  }

  /** In every run, whenever wait_lock is free, no process that sleeps in wait, or is on its way
      to sleep, has a ZOMBIE child. */
  lemma NoSleepOverZombie(s: State, acts: seq<Action>, p: nat, k: nat)
    requires Init(s) && Inv(s) && CanRun(s, acts) && WaitFree(Exec(s, acts))
    ensures var t := Exec(s, acts);
            p < |t.pc| && Sleepy(t.pc[p]) ==> !IsZombieChild(t, k, p)
  {
    var t := Exec(s, acts);
    assert SleeperOk(t, p, k);
  }

  /** In every run, what wait has freed was freed by the process that forked it or by init, and
      its pid is not in the table any more; what wait is about to free was not freed before. */
  lemma ReapedByParentOnce(s: State, acts: seq<Action>, c: nat, k: nat)
    requires Init(s) && Inv(s) && CanRun(s, acts)
    ensures var t := Exec(s, acts);
            && (c in t.reaped ==> c !in t.id && c in t.mother && (t.reaped[c] == t.mother[c] || t.reaped[c] == t.id[0]))
            && (k < |t.id| && t.id[k] != 0 ==> t.id[k] !in t.reaped)
  {
    var t := Exec(s, acts);
    assert ReapedOk(t, c);
    if k < |t.id| && t.id[k] != 0 {
      ReapedOnce(t, k);
    }
  }

  /** wait says that there are no children only when there are none. */
  lemma NoChildrenIsTrue(s: State, p: nat, k: nat)
    requires Inv(s) && p < |s.pc| && s.pc[p].Scan? && s.pc[p].k >= |s.st| && !s.pc[p].kids && k < |s.parent|
    ensures s.parent[k] != p
  {
    assert ScanOk(s, p, k);
  }
}
