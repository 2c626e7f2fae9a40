/** Sleeplocks (kernel/sleeplock.c) over sleep and wakeup (kernel/proc.c), for any number of
    processes on any number of harts. A step is what happens between two lock operations; the
    spinlocks are atomic.

    Process p is in slot p of the process table. Whether it holds the inner spinlock lk->lk, or
    its own p->lock, is part of where it is in the code. */
module SleepLock {
  datatype Pc =
    | Out                  // in neither acquiresleep nor releasesleep, without the sleeplock
    | WantLk               // acquiresleep: at acquire(&lk->lk)
    | Testing              // has lk->lk, at the test of lk->locked
    | WantOwn              // sleep: has lk->lk, at acquire(&p->lock)
    | HasBoth              // sleep: has both, at release(lk)
    | Committed            // sleep: has p->lock, about to set p->chan and p->state
    | Dozing               // SLEEPING on lk, still with p->lock, on the way to the scheduler
    | Asleep               // SLEEPING on lk
    | Roused               // RUNNABLE; sleep will return to acquire(lk)
    | Holding              // has the sleeplock
    | RelWant              // releasesleep: at acquire(&lk->lk)
    | RelHas               // has lk->lk, about to clear lk->locked
    | Waking(next: nat)    // wakeup: has lk->lk, about to look at process `next`
    | RelDone              // has lk->lk, at release(&lk->lk)

  predicate HasLk(pc: Pc) { pc.Testing? || pc.WantOwn? || pc.HasBoth? || pc.RelHas? || pc.Waking? || pc.RelDone? }

  predicate HasOwn(pc: Pc) { pc.HasBoth? || pc.Committed? || pc.Dozing? }

  predicate IsHolder(pc: Pc) { pc.Holding? || pc.RelWant? || pc.RelHas? }

  /** Asleep on the lock, or past the test that sends it to sleep. */
  predicate Sleepy(pc: Pc) { pc.WantOwn? || pc.HasBoth? || pc.Committed? || pc.Dozing? || pc.Asleep? }

  /** `owner` is lk->pid. */
  datatype State = State(pc: seq<Pc>, locked: bool, owner: nat)

  datatype Action =
    | Acquire(p: nat)   // a call of acquiresleep
    | Release(p: nat)   // a call of releasesleep
    | Step(p: nat)      // the next step of a call
    | Kill(p: nat)      // kill wakes a sleeping process

  ghost predicate LkFree(s: State) {
    forall p :: 0 <= p < |s.pc| ==> !HasLk(s.pc[p])
  }

  ghost predicate Enabled(s: State, a: Action) {
    a.p < |s.pc| &&
    match a
    case Acquire(p) => s.pc[p].Out?
    case Release(p) => s.pc[p].Holding?
    case Kill(p) => s.pc[p].Asleep?
    case Step(p) =>
      match s.pc[p] {
        case Out => false
        case Holding => false
        case Asleep => false
        case WantLk => LkFree(s)
        case RelWant => LkFree(s)
        case Waking(k) => k < |s.pc| ==> !HasOwn(s.pc[k])
        case _ => true
      }
  }

  function Do(s: State, a: Action): State
    requires a.p < |s.pc|
  {
    match a
    case Acquire(p) => s.(pc := s.pc[p := WantLk])
    case Release(p) => s.(pc := s.pc[p := RelWant])
    case Kill(p) => s.(pc := s.pc[p := Roused])
    case Step(p) =>
      match s.pc[p] {
        case WantLk => s.(pc := s.pc[p := Testing])
        case Testing =>
          if s.locked then s.(pc := s.pc[p := WantOwn])
          else s.(pc := s.pc[p := Holding], locked := true, owner := p)
        case WantOwn => s.(pc := s.pc[p := HasBoth])
        case HasBoth => s.(pc := s.pc[p := Committed])
        case Committed => s.(pc := s.pc[p := Dozing])
        case Dozing => s.(pc := s.pc[p := Asleep])
        case Roused => s.(pc := s.pc[p := WantLk])
        case RelWant => s.(pc := s.pc[p := RelHas])
        case RelHas => s.(pc := s.pc[p := Waking(0)], locked := false, owner := 0)
        case Waking(k) =>
          if k >= |s.pc| then s.(pc := s.pc[p := RelDone])
          else
            // wakeup passes over its own process and over those that do not sleep on lk
            var s1 := s.(pc := s.pc[p := Waking(k + 1)]);
            if k != p && s.pc[k].Asleep? then s1.(pc := s1.pc[k := Roused]) else s1
        case RelDone => s.(pc := s.pc[p := Out])
        case _ => s
      }
  }

  // ----- Invariant -----

  ghost predicate ExclusiveOk(s: State, p: nat, q: nat) {
    p < |s.pc| && q < |s.pc| && p != q ==> !(HasLk(s.pc[p]) && HasLk(s.pc[q]))
  }

  /** lk->locked is set exactly while some process has the sleeplock, and lk->pid is its pid. */
  ghost predicate HolderOk(s: State, p: nat) {
    p < |s.pc| ==> (IsHolder(s.pc[p]) <==> s.locked && s.owner == p)
  }

  ghost predicate WakerBefore(s: State, r: nat, q: nat) {
    r < |s.pc| && s.pc[r].Waking? && s.pc[r].next <= q
  }

  /** A process asleep on the lock while it is not locked is about to be woken up. */
  ghost predicate SleeperOk(s: State, q: nat) {
    q < |s.pc| && Sleepy(s.pc[q]) ==> s.locked || exists r: nat :: WakerBefore(s, r, q)
  }

  /** releasesleep keeps lk->lk from clearing lk->locked to its end. */
  ghost predicate ReleaserOk(s: State, p: nat) {
    p < |s.pc| && (s.pc[p].Waking? || s.pc[p].RelDone?) ==> !s.locked
  }

  ghost predicate Inv(s: State) {
    && (forall p, q :: ExclusiveOk(s, p, q)) && (forall p :: HolderOk(s, p)) && (forall q :: SleeperOk(s, q))
    && (forall p :: ReleaserOk(s, p))
    && (s.locked ==> s.owner < |s.pc|)
  }

  ghost predicate Init(s: State) {
    !s.locked && forall p :: 0 <= p < |s.pc| ==> s.pc[p].Out?
  }

  lemma InitInv(s: State)
    requires Init(s)
    ensures Inv(s)
  {
  }

  lemma StepKeeps(s: State, a: Action)
    requires Inv(s) && Enabled(s, a)
    ensures Inv(Do(s, a)) && |Do(s, a).pc| == |s.pc|
  {
    var s' := Do(s, a);
    forall p, q ensures ExclusiveOk(s', p, q) { assert ExclusiveOk(s, p, q); }
    forall p ensures HolderOk(s', p) { assert HolderOk(s, p) && HolderOk(s, a.p); }
    forall p ensures ReleaserOk(s', p) { assert ReleaserOk(s, p) && ExclusiveOk(s, p, a.p); }
    forall q ensures SleeperOk(s', q) { SleeperStays(s, a, q); }
  }

  lemma SleeperStays(s: State, a: Action, q: nat)
    requires Inv(s) && Enabled(s, a)
    ensures SleeperOk(Do(s, a), q)
  {
    var s', p := Do(s, a), a.p;
    assert SleeperOk(s, q) && HolderOk(s, p) && ExclusiveOk(s, p, q);
    if q < |s.pc| && Sleepy(s'.pc[q]) && !s'.locked {
      if a.Step? && s.pc[p].RelHas? {
        assert WakerBefore(s', p, q);
      } else if Sleepy(s.pc[q]) && !s.locked {
        var r: nat :| WakerBefore(s, r, q);
        assert ExclusiveOk(s, r, q) && ExclusiveOk(s, r, p);
        assert WakerBefore(s', r, q);
      }
    }
  }

  // ----- Every run -----

  ghost predicate CanRun(s: State, acts: seq<Action>)
    decreases |acts|
  {
    acts == [] || (Enabled(s, acts[0]) && CanRun(Do(s, acts[0]), acts[1..]))
  }

  function Exec(s: State, acts: seq<Action>): State
    requires CanRun(s, acts)
    decreases |acts|
  {
    if acts == [] then s else Exec(Do(s, acts[0]), acts[1..])
  }

  lemma {:induction false} RunKeeps(s: State, acts: seq<Action>)
    requires Inv(s) && CanRun(s, acts)
    ensures Inv(Exec(s, acts))
    decreases |acts|
  {
    if acts != [] {
      StepKeeps(s, acts[0]);
      RunKeeps(Do(s, acts[0]), acts[1..]);
    }
  }

  /** In every run, at most one process has the sleeplock, and holdingsleep says of each
      process whether it is that one. */
  lemma MutualExclusion(s: State, acts: seq<Action>, p: nat, q: nat)
    requires Init(s) && CanRun(s, acts) && p < |Exec(s, acts).pc| && q < |Exec(s, acts).pc|
    ensures var t := Exec(s, acts);
            && (IsHolder(t.pc[p]) && IsHolder(t.pc[q]) ==> p == q)
            && (IsHolder(t.pc[p]) <==> t.locked && t.owner == p)
  {
    InitInv(s);
    RunKeeps(s, acts);
    var t := Exec(s, acts);
    assert HolderOk(t, p) && HolderOk(t, q);
  }

  /** In every run, whenever lk->lk is free, no process is asleep on the sleeplock, or on its
      way to sleep, while it is not locked. */
  lemma NoLostWakeup(s: State, acts: seq<Action>, q: nat)
    requires Init(s) && CanRun(s, acts) && LkFree(Exec(s, acts)) && q < |Exec(s, acts).pc|
    ensures Sleepy(Exec(s, acts).pc[q]) ==> Exec(s, acts).locked
  {
    InitInv(s);
    RunKeeps(s, acts);
    assert SleeperOk(Exec(s, acts), q);
  }

  /** When the wakeup of releasesleep is over, every process that slept on the lock has been
      woken up. */
  lemma AllRoused(s: State, acts: seq<Action>, r: nat, q: nat)
    requires Init(s) && CanRun(s, acts) && r < |Exec(s, acts).pc| && q < |Exec(s, acts).pc|
             && Exec(s, acts).pc[r].RelDone?
    ensures !Sleepy(Exec(s, acts).pc[q])
  {
    InitInv(s);
    RunKeeps(s, acts);
    var t := Exec(s, acts);
    assert SleeperOk(t, q) && ReleaserOk(t, r);
    forall x: nat ensures !WakerBefore(t, x, q) { assert ExclusiveOk(t, x, r); }
  }

  predicate Waits(pc: Pc) { pc.WantLk? || pc.Testing? || pc.Roused? || Sleepy(pc) }

  /** While the sleeplock is free, a process that waits for it never finds everyone stuck. */
  lemma SomeoneCanStep(s: State, q: nat)
    requires Inv(s) && !s.locked && q < |s.pc| && Waits(s.pc[q])
    ensures exists p: nat :: Enabled(s, Step(p))
  {
    if LkFree(s) {
      assert SleeperOk(s, q);
      assert Enabled(s, Step(q));
    } else {
      var r: nat :| r < |s.pc| && HasLk(s.pc[r]);
      if s.pc[r].Waking? && s.pc[r].next < |s.pc| && HasOwn(s.pc[s.pc[r].next]) {
        assert Enabled(s, Step(s.pc[r].next));
      } else {
        assert Enabled(s, Step(r));
      }
    }
  }

  /** In every run, a step that takes a process out of acquiresleep finds the sleeplock free and
      gives it to that process, and changes nothing else. */
  lemma LeavesAsHolder(s: State, acts: seq<Action>, a: Action, p: nat)
    requires Init(s) && CanRun(s, acts) && Enabled(Exec(s, acts), a) && p < |Exec(s, acts).pc|
    requires Waits(Exec(s, acts).pc[p])
    ensures var t, t' := Exec(s, acts), Do(Exec(s, acts), a);
            |t'.pc| == |t.pc| && (!Waits(t'.pc[p]) ==> !t.locked && t' == State(t.pc[p := Holding], true, p))
  {
    hide CanRun, Exec;
  }

  // ----- What a call does when nobody interferes -----

  /** Nobody has lk->lk or the lock of a process. */
  ghost predicate Quiet(s: State) {
    forall q :: 0 <= q < |s.pc| ==> !HasLk(s.pc[q]) && !HasOwn(s.pc[q])
  }

  ghost predicate RunBy(s: State, acts: seq<Action>, p: nat) {
    CanRun(s, acts) && forall a :: a in acts ==> a.p == p
  }

  lemma First(s: State, a: Action, acts: seq<Action>)
    requires Enabled(s, a) && RunBy(Do(s, a), acts, a.p)
    ensures RunBy(s, [a] + acts, a.p) && Exec(s, [a] + acts) == Exec(Do(s, a), acts)
  {
    hide Do, Enabled;
    assert ([a] + acts)[1..] == acts;
  }

  lemma None(s: State, p: nat)
    ensures RunBy(s, [], p) && Exec(s, []) == s
  {
  }

  /** acquiresleep: the process has the sleeplock if it was free, and is asleep on it if not. */
  lemma AcquireRuns(s: State, p: nat) returns (acts: seq<Action>)
    requires Quiet(s) && p < |s.pc| && s.pc[p].Out?
    ensures RunBy(s, acts, p)
    ensures Exec(s, acts) == if s.locked then s.(pc := s.pc[p := Asleep]) else State(s.pc[p := Holding], true, p)
  {
    hide CanRun, Exec;
    var s1 := Do(s, Acquire(p));
    assert LkFree(s1);
    var s2 := Do(s1, Step(p));
    var s3 := Do(s2, Step(p));
    if s.locked {
      acts := SleepRuns(s3, p);
    } else {
      None(s3, p);
      acts := [];
    }
    First(s2, Step(p), acts);
    First(s1, Step(p), [Step(p)] + acts);
    First(s, Acquire(p), [Step(p)] + ([Step(p)] + acts));
    acts := [Acquire(p)] + ([Step(p)] + ([Step(p)] + acts));
  }

  lemma SleepRuns(s: State, p: nat) returns (acts: seq<Action>)
    requires p < |s.pc| && s.pc[p].WantOwn?
    ensures RunBy(s, acts, p) && Exec(s, acts) == s.(pc := s.pc[p := Asleep])
  {
    hide CanRun, Exec;
    var s1 := Do(s, Step(p));
    var s2 := Do(s1, Step(p));
    var s3 := Do(s2, Step(p));
    None(Do(s3, Step(p)), p);
    First(s3, Step(p), []);
    First(s2, Step(p), [Step(p)] + []);
    First(s1, Step(p), [Step(p)] + ([Step(p)] + []));
    First(s, Step(p), [Step(p)] + ([Step(p)] + ([Step(p)] + [])));
    acts := [Step(p)] + ([Step(p)] + ([Step(p)] + ([Step(p)] + [])));
  }

  /** Everyone from process k on that was asleep on the lock has been woken up. */
  ghost predicate WokenFrom(s: State, s': State, p: nat, k: nat) {
    && |s'.pc| == |s.pc| && s'.locked == s.locked && s'.owner == s.owner
    && forall q :: 0 <= q < |s.pc| && q != p ==> s'.pc[q] == if q >= k && s.pc[q].Asleep? then Roused else s.pc[q]
  }

  lemma {:induction false} WakeRuns(s: State, p: nat) returns (acts: seq<Action>, s': State)
    requires p < |s.pc| && s.pc[p].Waking? && s.pc[p].next <= |s.pc|
    requires forall q :: 0 <= q < |s.pc| ==> !HasOwn(s.pc[q])
    ensures RunBy(s, acts, p) && s' == Exec(s, acts) && WokenFrom(s, s', p, s.pc[p].next) && s'.pc[p].Out?
    decreases |s.pc| - s.pc[p].next
  {
    hide CanRun, Exec;
    var k, s1 := s.pc[p].next, Do(s, Step(p));
    if k == |s.pc| {
      s' := Do(s1, Step(p));
      None(s', p);
      First(s1, Step(p), []);
      First(s, Step(p), [Step(p)] + []);
      acts := [Step(p)] + ([Step(p)] + []);
    } else {
      acts, s' := WakeRuns(s1, p);
      First(s, Step(p), acts);
      acts := [Step(p)] + acts;
    }
  }

  /** releasesleep: the sleeplock is free, and everyone that was asleep on it has been woken up. */
  lemma ReleaseRuns(s: State, p: nat) returns (acts: seq<Action>, s': State)
    requires Quiet(s) && p < |s.pc| && s.pc[p].Holding?
    ensures RunBy(s, acts, p) && s' == Exec(s, acts) && |s'.pc| == |s.pc| && !s'.locked && s'.pc[p].Out?
    ensures forall q :: 0 <= q < |s.pc| && q != p ==> s'.pc[q] == if s.pc[q].Asleep? then Roused else s.pc[q]
  {
    hide CanRun, Exec;
    var s1 := Do(s, Release(p));
    assert LkFree(s1);
    var s2 := Do(s1, Step(p));
    var s3 := Do(s2, Step(p));
    acts, s' := WakeRuns(s3, p);
    First(s2, Step(p), acts);
    First(s1, Step(p), [Step(p)] + acts);
    First(s, Release(p), [Step(p)] + ([Step(p)] + acts));
    acts := [Release(p)] + ([Step(p)] + ([Step(p)] + acts));
  }

  /** A process that was woken up or killed asks for the sleeplock again. */
  lemma KilledAsksAgain(s: State, p: nat)
    requires Quiet(s) && p < |s.pc| && s.pc[p].Asleep?
    ensures RunBy(s, [Kill(p), Step(p)], p) && Exec(s, [Kill(p), Step(p)]) == s.(pc := s.pc[p := WantLk])
  {
    hide CanRun, Exec;
    var s1 := Do(s, Kill(p));
    None(Do(s1, Step(p)), p);
    First(s1, Step(p), []);
    First(s, Kill(p), [Step(p)] + []);
    assert [Kill(p)] + ([Step(p)] + []) == [Kill(p), Step(p)];
  }
}
