/** What fork, exit and wait of kernel/proc.c achieve: what each call leaves behind in every run,
    and what it does when nobody interferes. */
module ExitWaitRuns {
  import opened ExitWait
  import opened ExitWaitSafety

  // ----- What a call leaves behind, in every run -----

  /** Slots other than k are as they were. */
  ghost predicate OthersSame(s: State, s': State, k: nat)
    requires Shape(s)
  {
    && Shape(s') && |s'.st| == |s.st|
    && forall j :: 0 <= j < |s.st| && j != k ==>
        s'.st[j] == s.st[j] && s'.parent[j] == s.parent[j] && s'.id[j] == s.id[j]
  }

  /** p has freed its ZOMBIE child k. */
  ghost predicate Freed(s: State, s': State, p: nat, k: nat)
    requires Shape(s) && p < |s.st|
  {
    && k < |s.st| && s.parent[k] == p && s.st[k].ZOMBIE? && OthersSame(s, s', k)
    && s'.st[k].UNUSED? && s'.id[k] == 0 && s'.parent[k] == |s.st|
    && s'.reaped == s.reaped[s.id[k] := s.id[p]] && s'.mother == s.mother && s'.next == s.next
  }

  /** In every run, a scan that ends wait has freed exactly one child, a ZOMBIE, or there is no
      child. */
  lemma WaitReaps(s: State, acts: seq<Action>, p: nat)
    requires Init(s) && Inv(s) && CanRun(s, acts)
    requires var t := Exec(s, acts);
             Enabled(t, Step(p)) && t.pc[p].Scan? && Do(t, Step(p)).pc[p].WaitDone?
    ensures var t, t' := Exec(s, acts), Do(Exec(s, acts), Step(p));
            || ((forall k :: 0 <= k < |t.st| ==> t.parent[k] != p) && t' == At(t, p, WaitDone))
            || exists k: nat :: Freed(t, t', p, k) && forall j: nat :: Freed(t, t', p, j) ==> j == k
  {
    hide CanRun, Exec;
    var t := Exec(s, acts);
    var t', k := Do(t, Step(p)), t.pc[p].k;
    if k < |t.st| {
      assert Freed(t, t', p, k);
      assert forall j: nat :: Freed(t, t', p, j) ==> j == k;
    } else {
      forall j | 0 <= j < |t.st| ensures t.parent[j] != p { NoChildrenIsTrue(t, p, j); }
    }
  }

  /** In every run, the last step of fork makes the new process the living child of its caller,
      which is the mother of a pid nobody has or had. */
  lemma ForkMakesChild(s: State, acts: seq<Action>, p: nat)
    requires Init(s) && Inv(s) && CanRun(s, acts)
    requires var t := Exec(s, acts);
             Enabled(t, Step(p)) && t.pc[p].ForkSet?
    ensures var t, t' := Exec(s, acts), Do(Exec(s, acts), Step(p));
            var np := t.pc[p].np;
            && OthersSame(t, t', np) && t'.pc[p].User? && t'.pc[np].User?
            && t.st[np].USED? && t'.st[np].ALIVE? && t'.parent[np] == p && t'.id[np] == t.id[np] != 0
            && t.id[np] in t'.mother && t'.mother[t.id[np]] == t.id[p] && t.id[np] !in t'.reaped
            && forall j :: 0 <= j < |t.st| && j != np ==> t'.id[j] != t'.id[np]
  {
    hide CanRun, Exec;
    var t := Exec(s, acts);
    var np := t.pc[p].np;
    assert ForkOk(t, p) && StatusOk(t, np) && StatusOk(t, p);
    ReapedOnce(t, np);
    forall j: nat | j < |t.st| && j != np ensures t.id[j] != t.id[np] { assert IdOk(t, np, j); }
  }

  /** In every run, a process that becomes a ZOMBIE has no child, and nobody that could reap it
      is asleep. */
  lemma ExitLeavesZombie(s: State, acts: seq<Action>, p: nat)
    requires Init(s) && Inv(s) && CanRun(s, acts)
    requires var t := Exec(s, acts);
             Enabled(t, Step(p)) && t.pc[p].ExitZombie?
    ensures var t, t' := Exec(s, acts), Do(Exec(s, acts), Step(p));
            && OthersSame(t, t', p) && t'.st[p].ZOMBIE? && t'.parent[p] == t.parent[p] && t'.id[p] == t.id[p] != 0
            && t'.reaped == t.reaped && t'.mother == t.mother
            && (forall k :: 0 <= k < |t.st| ==> t'.parent[k] != p)
            && (t.parent[p] < |t.st| ==> t.st[t.parent[p]].ALIVE? && !Sleepy(t'.pc[t.parent[p]]))
  {
    hide CanRun, Exec;
    var t := Exec(s, acts);
    assert StatusOk(t, p) && ParentOk(t, p) && WokenOk(t, p) && ExitOk(t, p, p);
    forall k: nat | k < |t.st| ensures t.parent[k] != p { assert ExitOk(t, p, k); }
  }

  // ----- What a call does when nobody interferes -----

  /** Nobody has wait_lock or the lock of a process. */
  ghost predicate Quiet(s: State) {
    forall q :: 0 <= q < |s.pc| ==> !HasWait(s.pc[q]) && !HasOwn(s.pc[q])
  }

  ghost predicate RunBy(s: State, acts: seq<Action>, p: nat)
    requires Inv(s)
  {
    CanRun(s, acts) && forall a :: a in acts ==> a.p == p
  }

  lemma First(s: State, a: Action, acts: seq<Action>)
    requires Inv(s) && Enabled(s, a) && Inv(Do(s, a)) && RunBy(Do(s, a), acts, a.p)
    ensures RunBy(s, [a] + acts, a.p) && Exec(s, [a] + acts) == Exec(Do(s, a), acts)
  {
    hide Inv, Do, Enabled;
    assert ([a] + acts)[1..] == acts;
  }

  lemma None(s: State, p: nat)
    requires Inv(s)
    ensures RunBy(s, [], p) && Exec(s, []) == s
  {
  }

  /** fork: slot np holds a living child of p with a new pid, and all else is as before. */
  lemma ForkRuns(s: State, p: nat, np: nat) returns (acts: seq<Action>, s': State)
    requires Inv(s) && Quiet(s) && p < |s.pc| && s.pc[p].User? && np < |s.st| && s.st[np].UNUSED?
    ensures RunBy(s, acts, p) && s' == Exec(s, acts) && |s'.id| == |s.id|
    ensures s' == s.(st := s.st[np := ALIVE], parent := s.parent[np := p], id := s.id[np := s'.id[np]],
                     pc := s.pc[np := User], next := s'.next, mother := s.mother[s'.id[np] := s.id[p]])
    ensures s'.id[np] != 0 && s'.id[np] !in s.id && s'.id[np] !in s.reaped && s'.id[np] < s'.next
  {
    hide Inv, CanRun, Exec;
    InvHas(s, p);
    InvHas(s, np);
    FreshPid(s);
    var s1 := Do(s, Fork(p, np));
    StepKeeps(s, Fork(p, np));
    var s2 := Do(s1, Step(p));
    StepKeeps(s1, Step(p));
    var s3 := Do(s2, Step(p));
    StepKeeps(s2, Step(p));
    s' := Do(s3, Step(p));
    StepKeeps(s3, Step(p));
    None(s', p);
    First(s3, Step(p), []);
    First(s2, Step(p), [Step(p)] + []);
    First(s1, Step(p), [Step(p)] + ([Step(p)] + []));
    First(s, Fork(p, np), [Step(p)] + ([Step(p)] + ([Step(p)] + [])));
    acts := [Fork(p, np)] + ([Step(p)] + ([Step(p)] + ([Step(p)] + [])));
    assert s'.pc == s.pc[np := User];
    assert s'.st == s.st[np := ALIVE];
  }

  /** A fork that fails leaves everything as it was, except that a pid is used up. */
  lemma AbortUndoes(s: State, p: nat, np: nat)
    requires Inv(s) && p < |s.pc| && s.pc[p].User? && np < |s.st| && s.st[np].UNUSED?
    ensures RunBy(s, [Fork(p, np), Abort(p)], p)
    ensures var s' := Exec(s, [Fork(p, np), Abort(p)]);
            s' == s.(next := s'.next, mother := s'.mother) && s'.next > s.next
  {
    hide Inv, CanRun, Exec;
    InvHas(s, p);
    InvHas(s, np);
    var s1 := Do(s, Fork(p, np));
    OneStep(s, Fork(p, np));
    OneStep(s1, Abort(p));
    First(s, Fork(p, np), [Abort(p)]);
    assert [Fork(p, np)] + [Abort(p)] == [Fork(p, np), Abort(p)];
    var s' := Do(s1, Abort(p));
    assert s'.pc == s.pc && s'.st == s.st && s'.id == s.id && s'.parent == s.parent;
  }

  /** A process asleep in wait returns when it is killed, and has freed nothing. */
  lemma KillEndsWait(s: State, p: nat) returns (acts: seq<Action>)
    requires Inv(s) && Quiet(s) && p < |s.pc| && s.pc[p].Asleep?
    ensures acts == [Kill(p), Step(p), Step(p), GiveUp(p), Step(p)]
    ensures RunBy(s, acts, p) && Exec(s, acts) == At(s, p, User)
  {
    hide Inv, CanRun, Exec;
    InvHas(s, p);
    var s1 := Do(s, Kill(p));
    OneStep(s, Kill(p));
    var s2 := Do(s1, Step(p));
    OneStep(s1, Step(p));
    assert WaitFree(s2);
    var s3 := Do(s2, Step(p));
    OneStep(s2, Step(p));
    var s4 := Do(s3, GiveUp(p));
    OneStep(s3, GiveUp(p));
    OneStep(s4, Step(p));
    First(s3, GiveUp(p), [Step(p)]);
    First(s2, Step(p), [GiveUp(p)] + [Step(p)]);
    First(s1, Step(p), [Step(p)] + ([GiveUp(p)] + [Step(p)]));
    First(s, Kill(p), [Step(p)] + ([Step(p)] + ([GiveUp(p)] + [Step(p)])));
    acts := [Kill(p)] + ([Step(p)] + ([Step(p)] + ([GiveUp(p)] + [Step(p)])));
    assert Do(s4, Step(p)).pc == At(s, p, User).pc;
  }

  lemma FreshPid(s: State)
    requires Inv(s)
    ensures s.next !in s.id && s.next !in s.reaped && s.next > 0
  {
    forall q: nat | q < |s.id| ensures s.id[q] != s.next { assert StatusOk(s, q); }
    assert ReapedOk(s, s.next);
  }

  /** The children of p before j have been given to init, which has been woken up for them. */
  ghost predicate Orphaned(s: State, s': State, p: nat, from: nat)
    requires Shape(s) && from <= |s.st|
  {
    && Shape(s') && |s'.st| == |s.st|
    && s' == s.(parent := s'.parent, pc := s'.pc)
    && (forall k :: 0 <= k < |s.st| ==> s'.parent[k] == if s.parent[k] == p && from <= k then 0 else s.parent[k])
    && forall q :: 0 <= q < |s.st| && q != p ==>
        s'.pc[q] == if q == 0 && s.pc[q].Asleep? && p in s.parent[from..] then Roused else s.pc[q]
  }

  lemma OrphanedThen(s: State, s1: State, s': State, p: nat, j: nat)
    requires Inv(s) && p != 0 && p < |s.pc| && s.pc[p] == Reparent(j) && j < |s.st|
    requires s1 == if s.parent[j] == p then At(Woken(s.(parent := s.parent[j := 0]), 0), p, Reparent(j + 1))
                   else At(s, p, Reparent(j + 1))
    requires Orphaned(s1, s', p, j + 1)
    ensures Orphaned(s, s', p, j)
  {
    hide Inv;
    InvHas(s, p);
    assert s.parent[j..] == [s.parent[j]] + s.parent[j + 1..];
    assert s1.parent[j + 1..] == s.parent[j + 1..];
  }

  lemma {:induction false} ReparentRuns(s: State, p: nat) returns (acts: seq<Action>, s': State)
    requires Inv(s) && p < |s.pc| && s.pc[p].Reparent? && s.pc[p].k <= |s.st|
    requires forall q :: 0 <= q < |s.pc| && q != p ==> !HasOwn(s.pc[q])
    ensures RunBy(s, acts, p) && s' == Exec(s, acts) && |s'.pc| == |s.pc| && s'.pc[p].ExitWake?
    ensures Orphaned(s, s', p, s.pc[p].k)
    decreases |s.st| - s.pc[p].k
  {
    hide Inv, CanRun, Exec;
    InvHas(s, p);
    NotInit(s, p);
    var j := s.pc[p].k;
    var s1 := Do(s, Step(p));
    StepKeeps(s, Step(p));
    if j == |s.st| {
      s', acts := s1, [Step(p)] + [];
      None(s1, p);
      First(s, Step(p), []);
    } else if s.parent[j] == p {
      var s2 := Do(s1, Step(p));
      StepKeeps(s1, Step(p));
      var rest;
      rest, s' := ReparentRuns(s2, p);
      First(s1, Step(p), rest);
      First(s, Step(p), [Step(p)] + rest);
      acts := [Step(p)] + ([Step(p)] + rest);
      assert s2.pc == At(Woken(s.(parent := s.parent[j := 0]), 0), p, Reparent(j + 1)).pc;
      OrphanedThen(s, s2, s', p, j);
    } else {
      var rest;
      rest, s' := ReparentRuns(s1, p);
      First(s, Step(p), rest);
      acts := [Step(p)] + rest;
      OrphanedThen(s, s1, s', p, j);
    }
  }

  lemma NotInit(s: State, p: nat)
    requires Inv(s) && p < |s.pc| && Exiting(s.pc[p])
    ensures p != 0
  {
  }

  lemma {:induction false} Then(s: State, acts: seq<Action>, more: seq<Action>, p: nat)
    requires Inv(s) && RunBy(s, acts, p) && RunBy(Exec(s, acts), more, p)
    ensures RunBy(s, acts + more, p) && Exec(s, acts + more) == Exec(Exec(s, acts), more)
    decreases |acts|
  {
    hide Inv, Do, Enabled;
    if acts == [] {
      assert acts + more == more;
    } else {
      var a := acts[0];
      InvHas(s, a.p);
      StepKeeps(s, a);
      assert forall b :: b in acts[1..] ==> b in acts;
      Then(Do(s, a), acts[1..], more, p);
      First(s, a, acts[1..] + more);
      assert acts + more == [a] + (acts[1..] + more);
    }
  }

  lemma OneStep(s: State, a: Action)
    requires Inv(s) && Enabled(s, a)
    ensures Inv(Do(s, a)) && RunBy(s, [a], a.p) && Exec(s, [a]) == Do(s, a)
  {
    hide Inv, Do, Enabled, CanRun, Exec;
    InvHas(s, a.p);
    StepKeeps(s, a);
    None(Do(s, a), a.p);
    First(s, a, []);
    assert [a] + [] == [a];
  }

  /** A step, a run and a step after it. */
  lemma Around(s: State, a: Action, acts: seq<Action>, b: Action)
    requires Inv(s) && Enabled(s, a) && a.p == b.p && Inv(Do(s, a)) && RunBy(Do(s, a), acts, a.p)
    requires Enabled(Exec(Do(s, a), acts), b)
    ensures RunBy(s, [a] + acts + [b], a.p) && Exec(s, [a] + acts + [b]) == Do(Exec(Do(s, a), acts), b)
  {
    hide Inv, Do, Enabled, CanRun, Exec;
    InvHas(s, a.p);
    First(s, a, acts);
    InvHas(Exec(s, [a] + acts), a.p);
    OneStep(Exec(s, [a] + acts), b);
    Then(s, [a] + acts, [b], a.p);
  }

  /** exit: p is a ZOMBIE, its children are init's, and its parent has been woken up, and init if
      there were children; all else is as before. */
  ghost predicate Exited(s: State, s': State, p: nat)
    requires Shape(s) && p < |s.st|
  {
    && Shape(s') && |s'.st| == |s.st| && s' == s.(st := s.st[p := ZOMBIE], parent := s'.parent, pc := s'.pc)
    && (forall k :: 0 <= k < |s.st| ==> s'.parent[k] == if s.parent[k] == p then 0 else s.parent[k])
    && s'.pc[p].Gone?
    && forall q :: 0 <= q < |s.st| && q != p ==>
        s'.pc[q] == if s.pc[q].Asleep? && (q == s'.parent[p] || (q == 0 && p in s.parent)) then Roused else s.pc[q]
  }

  lemma ExitRuns(s: State, p: nat) returns (acts: seq<Action>, s': State)
    requires Inv(s) && Quiet(s) && 0 < p < |s.pc| && s.pc[p].User?
    ensures RunBy(s, acts, p) && s' == Exec(s, acts) && Exited(s, s', p)
  {
    hide Inv, CanRun, Exec;
    InvHas(s, p);
    var s1 := Do(s, Action.Exit(p));
    OneStep(s, Action.Exit(p));
    var s2 := Do(s1, Step(p));
    StepKeeps(s1, Step(p));
    var rest, s3 := ReparentRuns(s2, p);
    First(s1, Step(p), rest);
    var acts1 := [Step(p)] + rest;
    Then(s, [Action.Exit(p)], acts1, p);
    var last;
    last, s' := ZombieRuns(s3, p);
    Then(s, [Action.Exit(p)] + acts1, last, p);
    acts := [Action.Exit(p)] + acts1 + last;
    assert s.parent[0..] == s.parent;
    assert s2.st == s.st && s2.parent == s.parent;
    forall q | 0 <= q < |s.st| && q != p
      ensures s'.pc[q] == if s.pc[q].Asleep? && (q == s'.parent[p] || (q == 0 && p in s.parent)) then Roused
                          else s.pc[q]
    {
      assert s2.pc[q] == s.pc[q];
    }
  }

  /** The end of exit, once the children are gone. */
  lemma ZombieRuns(s: State, p: nat) returns (acts: seq<Action>, s': State)
    requires Inv(s) && p < |s.pc| && s.pc[p].ExitWake? && CanWake(s, s.parent[p])
    ensures RunBy(s, acts, p) && s' == Exec(s, acts)
    ensures |s.st| == |s.pc| && s' == At(Woken(s, s.parent[p]).(st := s.st[p := ZOMBIE]), p, Gone)
  {
    hide Inv, CanRun, Exec;
    InvHas(s, p);
    var s1 := Do(s, Step(p));
    StepKeeps(s, Step(p));
    var s2 := Do(s1, Step(p));
    StepKeeps(s1, Step(p));
    OneStep(s1, Step(p));
    Around(s, Step(p), [Step(p)], Step(p));
    acts := [Step(p)] + [Step(p)] + [Step(p)];
    s' := Do(s2, Step(p));
    assert s'.pc == At(Woken(s, s.parent[p]), p, Gone).pc;
  }

  /** The first ZOMBIE child of p from slot `from` on, or |st|. */
  ghost function FirstZombie(st: seq<Status>, parent: seq<nat>, p: nat, from: nat): (k: nat)
    requires |parent| == |st| && from <= |st|
    ensures from <= k <= |st| && (k < |st| ==> parent[k] == p && st[k].ZOMBIE?)
    ensures forall j :: from <= j < k ==> !(parent[j] == p && st[j].ZOMBIE?)
    decreases |st| - from
  {
    if from == |st| || (parent[from] == p && st[from].ZOMBIE?) then from else FirstZombie(st, parent, p, from + 1)
  }

  /** How a scan from a slot on ends: with the first ZOMBIE child freed, on the way to sleep
      because there are only other children, or at once because there are none. */
  ghost predicate ScanEnds(s: State, s': State, p: nat, from: nat, kids: bool)
    requires Shape(s) && p < |s.pc| && from <= |s.st|
  {
    var k := FirstZombie(s.st, s.parent, p, from);
    s' == if k < |s.st| then Reaping(s, p, k) else At(s, p, if kids || p in s.parent[from..] then WantOwn else WaitDone)
  }

  /** Where p was does not matter. */
  lemma ScanEndsFrom(s: State, s': State, p: nat, c: Pc, from: nat, kids: bool)
    requires Shape(s) && p < |s.pc| && from <= |s.st| && ScanEnds(At(s, p, c), s', p, from, kids)
    requires var k := FirstZombie(s.st, s.parent, p, from);
             k != p
    ensures ScanEnds(s, s', p, from, kids)
  {
    var s1, k := At(s, p, c), FirstZombie(s.st, s.parent, p, from);
    if k < |s.st| {
      assert Reaping(s1, p, k).pc == Reaping(s, p, k).pc;
    } else {
      assert At(s1, p, s'.pc[p]).pc == At(s, p, s'.pc[p]).pc;
    }
  }

  lemma ScanOn(s: State, s': State, p: nat, j: nat, kids: bool)
    requires Shape(s) && p < |s.pc| && j < |s.st| && !IsZombieChild(s, j, p) && !s.st[p].ZOMBIE?
    requires var kids' := kids || s.parent[j] == p;
             ScanEnds(At(s, p, Scan(j + 1, kids')), s', p, j + 1, kids')
    ensures ScanEnds(s, s', p, j, kids)
  {
    var kids' := kids || s.parent[j] == p;
    ScanEndsFrom(s, s', p, Scan(j + 1, kids'), j + 1, kids');
    assert s.parent[j..] == [s.parent[j]] + s.parent[j + 1..];
  }

  lemma ScanStep(s: State, p: nat)
    requires Inv(s) && p < |s.pc| && s.pc[p].Scan? && s.pc[p].k <= |s.st|
    requires forall q :: 0 <= q < |s.pc| ==> !HasOwn(s.pc[q])
    ensures Enabled(s, Step(p)) && !s.st[p].ZOMBIE?
    ensures var s1, j, kids := Do(s, Step(p)), s.pc[p].k, s.pc[p].kids;
            if j < |s.st| && !IsZombieChild(s, j, p) then s1 == At(s, p, Scan(j + 1, kids || s.parent[j] == p))
            else ScanEnds(s, s1, p, j, kids)
  {
    hide Inv;
    InvHas(s, p);
  }

  lemma {:induction false} ScanRuns(s: State, p: nat) returns (acts: seq<Action>, s': State)
    requires Inv(s) && p < |s.pc| && s.pc[p].Scan? && s.pc[p].k <= |s.st|
    requires forall q :: 0 <= q < |s.pc| ==> !HasOwn(s.pc[q])
    ensures RunBy(s, acts, p) && s' == Exec(s, acts) && ScanEnds(s, s', p, s.pc[p].k, s.pc[p].kids)
    decreases |s.st| - s.pc[p].k
  {
    hide Inv, CanRun, Exec, Do, Enabled, ScanEnds;
    InvHas(s, p);
    ScanStep(s, p);
    OneStep(s, Step(p));
    var s1 := Do(s, Step(p));
    if s.pc[p].k < |s.st| && !IsZombieChild(s, s.pc[p].k, p) {
      var rest;
      rest, s' := ScanRuns(s1, p);
      First(s, Step(p), rest);
      acts := [Step(p)] + rest;
      ScanOn(s, s', p, s.pc[p].k, s.pc[p].kids);
    } else {
      s', acts := s1, [Step(p)];
    }
  }

  /** wait: the first ZOMBIE child is freed; with none, p sleeps if it has a child and returns if
      it has not, and all is as before. */
  lemma WaitRuns(s: State, p: nat) returns (acts: seq<Action>, s': State)
    requires Inv(s) && Quiet(s) && p < |s.pc| && s.pc[p].User?
    ensures RunBy(s, acts, p) && s' == Exec(s, acts)
    ensures if exists k: nat :: IsZombieChild(s, k, p) then
              exists k: nat :: Freed(s, s', p, k) && s'.pc == s.pc[k := Idle]
                               && forall j: nat :: j < k ==> !IsZombieChild(s, j, p)
            else s' == if p in s.parent then At(s, p, Asleep) else s
  {
    hide Inv, CanRun, Exec, Do, Enabled;
    InvHas(s, p);
    var start, s1 := WaitScans(s, p);
    var last;
    var k := FirstZombie(s.st, s.parent, p, 0);
    assert s.parent[0..] == s.parent;
    if k < |s.st| {
      assert IsZombieChild(s, k, p);
      InvHas(s, k);
      last, s' := ReturnRuns(s1, p);
      assert s'.pc == s.pc[k := Idle];
      assert Freed(s, s', p, k);
    } else if p in s.parent {
      last, s' := SleepRuns(s1, p);
      assert s'.pc == s.pc[p := Asleep];
    } else {
      last, s' := ReturnRuns(s1, p);
      assert s'.pc == s.pc;
    }
    Then(s, start, last, p);
    acts := start + last;
  }

  lemma WaitScans(s: State, p: nat) returns (acts: seq<Action>, s': State)
    requires Inv(s) && Quiet(s) && p < |s.pc| && s.pc[p].User?
    ensures RunBy(s, acts, p) && s' == Exec(s, acts) && ScanEnds(s, s', p, 0, false)
  {
    hide Inv, CanRun, Exec;
    InvHas(s, p);
    var s1 := Do(s, Action.Wait(p));
    StepKeeps(s, Action.Wait(p));
    var s2 := Do(s1, Step(p));
    StepKeeps(s1, Step(p));
    assert Quiet(s1);
    var scan;
    scan, s' := ScanRuns(s2, p);
    First(s1, Step(p), scan);
    First(s, Action.Wait(p), [Step(p)] + scan);
    acts := [Action.Wait(p)] + ([Step(p)] + scan);
    assert At(s1, p, s2.pc[p]).pc == At(s, p, s2.pc[p]).pc;
    ScanEndsFrom(s, s', p, s2.pc[p], 0, false);
  }

  lemma ReturnRuns(s: State, p: nat) returns (acts: seq<Action>, s': State)
    requires Inv(s) && p < |s.pc| && s.pc[p].WaitDone?
    ensures RunBy(s, acts, p) && s' == Exec(s, acts) && s' == At(s, p, User)
  {
    hide Inv, CanRun, Exec;
    InvHas(s, p);
    OneStep(s, Step(p));
    acts, s' := [Step(p)], Do(s, Step(p));
  }

  lemma SleepRuns(s: State, p: nat) returns (acts: seq<Action>, s': State)
    requires Inv(s) && p < |s.pc| && s.pc[p].WantOwn?
    ensures RunBy(s, acts, p) && s' == Exec(s, acts) && s' == At(s, p, Asleep)
  {
    hide Inv, CanRun, Exec;
    InvHas(s, p);
    var s1 := Do(s, Step(p));
    OneStep(s, Step(p));
    OneStep(s1, Step(p));
    var s2 := Do(s1, Step(p));
    OneStep(s2, Step(p));
    var s3 := Do(s2, Step(p));
    OneStep(s3, Step(p));
    s' := Do(s3, Step(p));
    Then(s2, [Step(p)], [Step(p)], p);
    Then(s1, [Step(p)], [Step(p)] + [Step(p)], p);
    Then(s, [Step(p)], [Step(p)] + ([Step(p)] + [Step(p)]), p);
    acts := [Step(p)] + ([Step(p)] + ([Step(p)] + [Step(p)]));
    assert s'.pc == s.pc[p := Asleep];
  }

  /** A process that forks a child and, when the child has exited, waits, gets the child's pid
      and leaves the process table as it was. */
  lemma ForkExitWait(s: State, p: nat, np: nat) returns (fork: seq<Action>, exit: seq<Action>, wait: seq<Action>)
    requires Inv(s) && Quiet(s) && p < |s.pc| && s.pc[p].User? && 0 < np < |s.st| && s.st[np].UNUSED?
    requires forall k: nat :: !IsZombieChild(s, k, p)
    ensures RunBy(s, fork, p) && RunBy(Exec(s, fork), exit, np) && RunBy(Exec(Exec(s, fork), exit), wait, p)
    ensures var s1, s' := Exec(s, fork), Exec(Exec(Exec(s, fork), exit), wait);
            && |s1.id| == |s.id| && s1.id[np] !in s.id && s1.id[np] !in s.reaped
            && s' == s.(next := s1.next, mother := s.mother[s1.id[np] := s.id[p]],
                        reaped := s.reaped[s1.id[np] := s.id[p]])
  {
    hide Inv, CanRun, Exec;
    InvHas(s, p);
    InvHas(s, np);
    var s1, s2, s3;
    fork, s1 := ForkRuns(s, p, np);
    NoChildOf(s, np);
    exit, s2 := ExitRuns(s1, np);
    assert s2.parent == s1.parent && s2.parent[np] == p;
    assert s2.pc == s1.pc[np := Gone];
    wait, s3 := WaitRuns(s2, p);
    assert IsZombieChild(s2, np, p);
    forall k: nat | IsZombieChild(s2, k, p) ensures k == np { assert k != np ==> !IsZombieChild(s, k, p); }
    var k: nat :| Freed(s2, s3, p, k) && s3.pc == s2.pc[k := Idle];
    assert IsZombieChild(s2, k, p);
    assert s3.st == s.st && s3.parent == s.parent && s3.id == s.id && s3.pc == s.pc;
  }

  /** A slot that is not in use is nobody's parent. */
  lemma NoChildOf(s: State, np: nat)
    requires Inv(s) && np < |s.st| && s.st[np].UNUSED?
    ensures np !in s.parent
  {
    forall k: nat | k < |s.parent| ensures s.parent[k] != np { assert ParentOk(s, k); }
  }
}
