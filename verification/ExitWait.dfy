/** fork, exit and wait of kernel/proc.c for any number of processes on any number of harts. A
    step is what happens between two lock operations; the spinlocks are atomic.

    A process is its slot in the process table, and slot 0 has the init process. Whether a
    process holds wait_lock, or its own p->lock, is part of where it is in the code. */
module ExitWait {
  /** ALIVE stands for RUNNABLE, RUNNING and SLEEPING. */
  datatype Status = UNUSED | USED | ALIVE | ZOMBIE

  datatype Pc =
    | Idle                           // not running: UNUSED or USED
    | User                           // anywhere else
    | ForkWant(np: nat)              // fork: np is USED; at acquire(&wait_lock)
    | ForkHas(np: nat)               // has wait_lock, about to set np->parent
    | ForkSet(np: nat)               // about to make np RUNNABLE
    | ExitWant                       // exit: at acquire(&wait_lock)
    | Reparent(k: nat)               // has wait_lock; reparent looks at process k
    | ReparentWake(k: nat)           // has wait_lock; child k is init's, wakeup(initproc) is next
    | ExitWake                       // has wait_lock; wakeup(p->parent) is next
    | ExitZombie                     // has wait_lock; becoming a ZOMBIE is next
    | Dying                          // ZOMBIE, has p->lock, on the way to the scheduler
    | Gone                           // ZOMBIE
    | WaitWant                       // wait: at acquire(&wait_lock)
    | Scan(k: nat, kids: bool)       // has wait_lock, about to look at process k
    | WantOwn                        // sleep: has wait_lock, at acquire(&p->lock)
    | HasBoth                        // sleep: has both, at release(&wait_lock)
    | Committed                      // sleep: has p->lock, about to be SLEEPING
    | Dozing                         // SLEEPING, has p->lock, on the way to the scheduler
    | Asleep                         // SLEEPING in wait
    | Roused                         // RUNNABLE; sleep will return to acquire(&wait_lock)
    | WaitDone                       // has wait_lock, at its release and the return of wait

  predicate HasWait(pc: Pc) {
    pc.ForkHas? || pc.Reparent? || pc.ReparentWake? || pc.ExitWake? || pc.ExitZombie? || pc.Scan? || pc.WantOwn?
      || pc.HasBoth? || pc.WaitDone?
  }

  predicate HasOwn(pc: Pc) { pc.HasBoth? || pc.Committed? || pc.Dozing? || pc.Dying? }

  /** Asleep in wait, or past the scan that sends it to sleep. */
  predicate Sleepy(pc: Pc) { pc.WantOwn? || pc.HasBoth? || pc.Committed? || pc.Dozing? || pc.Asleep? }

  predicate Exiting(pc: Pc) { pc.ExitWant? || pc.Reparent? || pc.ReparentWake? || pc.ExitWake? || pc.ExitZombie? }

  predicate Forking(pc: Pc) { pc.ForkWant? || pc.ForkHas? || pc.ForkSet? }

  /** `parent` is |st| when there is none. `id` is the pid, `mother` the pid of the process that
      forked a pid, and `reaped` gives for each pid that wait freed the pid of the waiter. */
  datatype State = State(st: seq<Status>, parent: seq<nat>, pc: seq<Pc>, id: seq<nat>, next: nat, mother: map<nat, nat>,
      reaped: map<nat, nat>)

  datatype Action =
    | Fork(p: nat, np: nat)      // allocproc has found np
    | Abort(p: nat)              // fork frees np again
    | Exit(p: nat)
    | Wait(p: nat)
    | Step(p: nat)
    | GiveUp(p: nat)             // wait returns -1 because p was killed or copyout failed
    | Kill(p: nat)               // kill wakes a process asleep in wait

  ghost predicate WaitFree(s: State) {
    forall p :: 0 <= p < |s.pc| ==> !HasWait(s.pc[p])
  }

  ghost predicate Shape(s: State) {
    |s.st| > 0 && |s.parent| == |s.st| && |s.pc| == |s.st| && |s.id| == |s.st|
  }

  /** wakeup must get the lock of the process it wakes. */
  predicate CanWake(s: State, t: nat) {
    t < |s.pc| ==> !HasOwn(s.pc[t])
  }

  ghost predicate Enabled(s: State, a: Action)
    requires Shape(s)
  {
    a.p < |s.pc| &&
    match a
    case Fork(p, np) => s.pc[p].User? && np < |s.st| && s.st[np].UNUSED?
    case Abort(p) => s.pc[p].ForkWant? && s.pc[p].np < |s.st|
    case Exit(p) => s.pc[p].User? && p != 0
    case Wait(p) => s.pc[p].User?
    case GiveUp(p) => s.pc[p].Scan?
    case Kill(p) => s.pc[p].Asleep?
    case Step(p) =>
      match s.pc[p] {
        case Idle => false
        case User => false
        case Gone => false
        case Asleep => false
        case ForkWant(np) => np < |s.st| && WaitFree(s)
        case ForkHas(np) => np < |s.st|
        case ForkSet(np) => np < |s.st|
        case ExitWant => WaitFree(s)
        case WaitWant => WaitFree(s)
        case ReparentWake(_) => CanWake(s, 0)
        case ExitWake => CanWake(s, s.parent[p])
        case Scan(k, _) => k < |s.st| && s.parent[k] == p ==> !HasOwn(s.pc[k])
        case _ => true
      }
  }

  function Woken(s: State, t: nat): State {
    if t < |s.pc| && s.pc[t].Asleep? then s.(pc := s.pc[t := Roused]) else s
  }

  function At(s: State, p: nat, pc: Pc): State
    requires p < |s.pc|
  {
    s.(pc := s.pc[p := pc])
  }

  ghost function Do(s: State, a: Action): State
    requires Shape(s) && Enabled(s, a)
  {
    match a
    case Fork(p, np) =>
      At(s.(st := s.st[np := USED], id := s.id[np := s.next], next := s.next + 1,
          mother := s.mother[s.next := s.id[p]]), p, ForkWant(np))
    case Abort(p) =>
      var np := s.pc[p].np;
      At(s.(st := s.st[np := UNUSED], id := s.id[np := 0], parent := s.parent[np := |s.st|]), p, User)
    case Exit(p) => At(s, p, ExitWant)
    case Wait(p) => At(s, p, WaitWant)
    case GiveUp(p) => At(s, p, WaitDone)
    case Kill(p) => At(s, p, Roused)
    case Step(p) =>
      match s.pc[p] {
        case ForkWant(np) => At(s, p, ForkHas(np))
        case ForkHas(np) => At(s.(parent := s.parent[np := p]), p, ForkSet(np))
        case ForkSet(np) => At(At(s.(st := s.st[np := ALIVE]), np, User), p, User)
        case ExitWant => At(s, p, Reparent(0))
        case Reparent(k) =>
          if k >= |s.st| then At(s, p, ExitWake)
          else if s.parent[k] == p then At(s.(parent := s.parent[k := 0]), p, ReparentWake(k))
          else At(s, p, Reparent(k + 1))
        case ReparentWake(k) => At(Woken(s, 0), p, Reparent(k + 1))
        case ExitWake => At(Woken(s, s.parent[p]), p, ExitZombie)
        case ExitZombie => At(s.(st := s.st[p := ZOMBIE]), p, Dying)
        case Dying => At(s, p, Gone)
        case WaitWant => At(s, p, Scan(0, false))
        case Scan(k, kids) =>
          if k >= |s.st| then At(s, p, if kids then WantOwn else WaitDone)
          else if s.parent[k] != p then At(s, p, Scan(k + 1, kids))
          else if s.st[k].ZOMBIE? then
            At(At(s.(st := s.st[k := UNUSED], parent := s.parent[k := |s.st|], id := s.id[k := 0],
                reaped := s.reaped[s.id[k] := s.id[p]]), k, Idle), p, WaitDone)
          else At(s, p, Scan(k + 1, true))
        case WantOwn => At(s, p, HasBoth)
        case HasBoth => At(s, p, Committed)
        case Committed => At(s, p, Dozing)
        case Dozing => At(s, p, Asleep)
        case Roused => At(s, p, WaitWant)
        case WaitDone => At(s, p, User)
        case _ => s
      }
  }

  // ----- Invariant -----

  ghost predicate LockOk(s: State, p: nat, q: nat) {
    p < |s.pc| && q < |s.pc| && p != q ==> !(HasWait(s.pc[p]) && HasWait(s.pc[q]))
  }

  ghost predicate StatusOk(s: State, p: nat) {
    p < |s.pc| && p < |s.st| && p < |s.id| && p < |s.parent| ==>
      && (s.st[p].UNUSED? || s.st[p].USED? <==> s.pc[p].Idle?)
      && (s.st[p].ZOMBIE? <==> s.pc[p].Dying? || s.pc[p].Gone?)
      && (s.st[p].UNUSED? ==> s.parent[p] == |s.st|)
      && (s.st[p].UNUSED? <==> s.id[p] == 0) && s.id[p] < s.next
  }

  /** The parent of a process is alive. */
  ghost predicate ParentOk(s: State, k: nat) {
    k < |s.parent| && s.parent[k] != |s.st| ==> s.parent[k] < |s.st| && s.st[s.parent[k]].ALIVE?
  }

  /** The child that fork is making is its own. */
  ghost predicate ForkOk(s: State, p: nat) {
    p < |s.pc| && Forking(s.pc[p]) ==>
      var np := s.pc[p].np;
      && np < |s.st| && np < |s.parent| && np < |s.id| && p < |s.id|
      && s.st[np].USED? && s.parent[np] == (if s.pc[p].ForkSet? then p else |s.st|)
      && s.id[np] in s.mother && s.mother[s.id[np]] == s.id[p]
  }

  ghost predicate ForksOk(s: State, p: nat, q: nat) {
    p < |s.pc| && q < |s.pc| && p != q && Forking(s.pc[p]) && Forking(s.pc[q]) ==> s.pc[p].np != s.pc[q].np
  }

  /** How far reparent has come. */
  ghost predicate ExitOk(s: State, p: nat, k: nat) {
    p < |s.pc| && k < |s.parent| && s.parent[k] == p ==>
      match s.pc[p] {
        case Reparent(j) => j <= k
        case ReparentWake(j) => j < k
        case ExitWake => false
        case ExitZombie => false
        case _ => true
      }
  }

  ghost predicate IsZombieChild(s: State, k: nat, p: nat) {
    k < |s.parent| && k < |s.st| && s.parent[k] == p && s.st[k].ZOMBIE?
  }

  /** How far the scan of wait has come, and what it has seen. */
  ghost predicate ScanOk(s: State, p: nat, k: nat) {
    p < |s.pc| && k < |s.parent| && s.parent[k] == p ==>
      match s.pc[p] {
        case Scan(j, kids) => k < j ==> kids && !IsZombieChild(s, k, p)
        case WantOwn => !IsZombieChild(s, k, p)
        case HasBoth => !IsZombieChild(s, k, p)
        case _ => true
      }
  }

  ghost predicate Rousing(s: State, r: nat) {
    r < |s.pc| && s.pc[r].ReparentWake?
  }

  /** A process that sleeps in wait has no child to reap, except that init may be about to be
      woken up for one that was just given to it. */
  ghost predicate SleeperOk(s: State, p: nat, k: nat) {
    p < |s.pc| && Sleepy(s.pc[p]) && IsZombieChild(s, k, p) ==> p == 0 && exists r: nat :: Rousing(s, r)
  }

  /** Between waking its parent and becoming a zombie, a process has wait_lock. */
  ghost predicate WokenOk(s: State, p: nat) {
    p < |s.pc| && p < |s.parent| && s.pc[p].ExitZombie? && s.parent[p] < |s.pc| ==> !Sleepy(s.pc[s.parent[p]])
  }

  ghost predicate IdOk(s: State, p: nat, q: nat) {
    p < |s.id| && q < |s.id| && p != q && s.id[p] != 0 ==> s.id[p] != s.id[q]
  }

  /** A process is the child of the process that forked it or of init. */
  ghost predicate MotherOk(s: State, k: nat) {
    k < |s.id| && k < |s.parent| && s.parent[k] < |s.id| ==>
      s.id[k] in s.mother && (s.parent[k] == 0 || s.id[s.parent[k]] == s.mother[s.id[k]])
  }

  /** A pid that wait has freed is gone for good, and was freed by its mother or by init. */
  ghost predicate ReapedOk(s: State, c: nat) {
    c in s.reaped ==> 0 < c < s.next && c !in s.id && c in s.mother && (s.reaped[c] == s.mother[c] || s.reaped[c] == 1)
  }

  ghost predicate InitOk(s: State)
    requires Shape(s)
  {
    s.st[0].ALIVE? && !Exiting(s.pc[0]) && s.id[0] == 1 && s.parent[0] == |s.st| && s.next > 1
  }

  ghost predicate Inv(s: State) {
    && Shape(s) && InitOk(s)
    && (forall p, q :: LockOk(s, p, q)) && (forall p :: StatusOk(s, p)) && (forall k :: ParentOk(s, k))
    && (forall p :: ForkOk(s, p)) && (forall p, q :: ForksOk(s, p, q))
    && (forall p, k :: ExitOk(s, p, k)) && (forall p, k :: ScanOk(s, p, k)) && (forall p, k :: SleeperOk(s, p, k))
    && (forall p :: WokenOk(s, p)) && (forall p, q :: IdOk(s, p, q)) && (forall k :: MotherOk(s, k))
      && (forall c :: ReapedOk(s, c))
  }
}
