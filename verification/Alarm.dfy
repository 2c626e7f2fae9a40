/** Alarms: the timer branch of usertrap (kernel/trap.c) and the calls sigalarm and sigreturn
    (kernel/sysproc.c), for one process. */
module Alarm {
  /** The user program counter and registers in the trapframe. */
  datatype Frame = Frame(pc: nat, regs: seq<nat>)

  datatype Saved = None | At(page: nat, frame: Frame)

  /** `interval`, `count` and `handling` are ticks, cur_ticks and in_alarm_handler; `alarmTf` is
      the saved trapframe; `nextPage` numbers the pages that kalloc returns, and `pages` are the
      ones taken for alarms and not freed. */
  datatype State = State(frame: Frame, interval: int, count: nat, handler: nat, handling: bool, alarmTf: Saved,
      nextPage: nat, pages: set<nat>)

  datatype Action =
    | Run(frame: Frame)                      // user code runs
    | Tick                                   // a timer interrupt in user mode
    | Sigalarm(interval: int, handler: nat)
    | Sigreturn

  predicate Fires(s: State) {
    s.interval > 0 && s.count + 1 >= s.interval && !s.handling
  }

  /** A process calls sigreturn only from its handler. */
  predicate Enabled(s: State, a: Action) {
    a.Sigreturn? ==> s.handling
  }

  function Do(s: State, a: Action): State
  {
    match a
    case Run(frame) => s.(frame := frame)
    case Tick =>
      var s1 := s.(count := s.count + 1);
      if !Fires(s) then s1 else
        s1.(handling := true, alarmTf := At(s.nextPage, s.frame), nextPage := s.nextPage + 1,
            pages := s.pages + {s.nextPage},
            frame := s.frame.(pc := s.handler), count := 0)
    case Sigalarm(interval, handler) => s.(interval := interval, handler := handler)
    case Sigreturn =>
      // the source copies the page that alarm_tf points at, and does not return a value
      if s.alarmTf.None? then s else
        s.(frame := s.alarmTf.frame, pages := s.pages - {s.alarmTf.page}, alarmTf := None, count := 0,
            handling := false)
  }

  /** In the handler, and only there, there is a saved trapframe, in the one page taken. */
  predicate Inv(s: State) {
    && (s.handling <==> s.alarmTf.At?)
    && s.pages == (if s.alarmTf.At? then {s.alarmTf.page} else {})
    && (s.alarmTf.At? ==> s.alarmTf.page < s.nextPage)
  }

  predicate CanRun(s: State, acts: seq<Action>)
    decreases |acts|
  {
    acts == [] || (Enabled(s, acts[0]) && CanRun(Do(s, acts[0]), acts[1..]))
  }

  function Exec(s: State, acts: seq<Action>): State
    decreases |acts|
  {
    if acts == [] then s else Exec(Do(s, acts[0]), acts[1..])
  }

  lemma {:induction false} RunKeeps(s: State, acts: seq<Action>)
    requires Inv(s) && CanRun(s, acts)
    ensures Inv(Exec(s, acts))
    decreases |acts|
  {
    if acts != [] {
      RunKeeps(Do(s, acts[0]), acts[1..]);
    }
  }

  predicate NoReturn(acts: seq<Action>) { forall i :: 0 <= i < |acts| ==> !acts[i].Sigreturn? }

  lemma {:induction false} SavedStays(s: State, acts: seq<Action>)
    requires Inv(s) && s.handling && CanRun(s, acts) && NoReturn(acts)
    ensures Exec(s, acts).handling && Exec(s, acts).alarmTf == s.alarmTf && Exec(s, acts).pages == s.pages
            && Exec(s, acts).nextPage == s.nextPage
    decreases |acts|
  {
    if acts != [] {
      SavedStays(Do(s, acts[0]), acts[1..]);
    }
  }

  /** Whatever runs in the handler, it is not entered again, and sigreturn brings back the
      program counter and every register that the process had at the interrupt, with no page
      left over. */
  lemma AlarmRoundTrip(s: State, acts: seq<Action>)
    requires Inv(s) && Fires(s) && CanRun(Do(s, Tick), acts) && NoReturn(acts)
    ensures var t := Exec(Do(s, Tick), acts);
            && Do(s, Tick).frame == s.frame.(pc := s.handler) && Do(s, Tick).count == 0
            && t.handling && !Fires(t)
            && Do(t, Sigreturn).frame == s.frame && Do(t, Sigreturn).pages == s.pages == {} && Inv(Do(t, Sigreturn))
  {
    SavedStays(Do(s, Tick), acts);
    RunKeeps(Do(s, Tick), acts);
  }

  function Ticks(acts: seq<Action>): nat {
    if acts == [] then 0 else (if acts[0].Tick? then 1 else 0) + Ticks(acts[1..])
  }

  /** No handler is entered during the run. */
  predicate Quiet(s: State, acts: seq<Action>)
    decreases |acts|
  {
    acts == [] || (!(acts[0].Tick? && Fires(s)) && Quiet(Do(s, acts[0]), acts[1..]))
  }

  lemma {:induction false} CountIs(s: State, acts: seq<Action>)
    requires Inv(s) && !s.handling && CanRun(s, acts) && Quiet(s, acts)
    ensures !Exec(s, acts).handling && Exec(s, acts).count == s.count + Ticks(acts)
    decreases |acts|
  {
    if acts != [] {
      CountIs(Do(s, acts[0]), acts[1..]);
    }
  }

  /** After sigreturn the next alarm comes exactly at the first tick at which as many ticks have
      passed as the interval then asks for. */
  lemma NextAlarm(s: State, acts: seq<Action>)
    requires Inv(s) && s.handling && CanRun(Do(s, Sigreturn), acts) && Quiet(Do(s, Sigreturn), acts)
    ensures var t := Exec(Do(s, Sigreturn), acts);
            Fires(t) <==> t.interval > 0 && Ticks(acts) + 1 >= t.interval
  {
    CountIs(Do(s, Sigreturn), acts);
  }

  /** sigalarm does not restart the count, so the first alarm after it comes sooner by the ticks
      that were counted before. */
  lemma FirstAlarm(s: State, interval: nat, handler: nat, acts: seq<Action>)
    requires Inv(s) && !s.handling && interval > 0
    requires var s1 := Do(s, Sigalarm(interval, handler));
             CanRun(s1, acts) && Quiet(s1, acts) && Exec(s1, acts).interval == interval
    ensures Fires(Exec(Do(s, Sigalarm(interval, handler)), acts)) <==> s.count + Ticks(acts) + 1 >= interval
  {
    CountIs(Do(s, Sigalarm(interval, handler)), acts);
  }

  /** A process that has never set an alarm, in a slot of the table that is used for the first
      time. allocproc resets all of this but in_alarm_handler, which a process that exits inside
      its handler leaves set for the next one in its slot. */
  function Fresh(frame: Frame): State {
    State(frame, 0, 0, 0, false, None, 0, {})
  }

  function Repeat(n: nat): (acts: seq<Action>)
    ensures |acts| == n && Ticks(acts) == n && NoReturn(acts)
  {
    if n == 0 then [] else [Tick] + Repeat(n - 1)
  }

  lemma {:induction false} IdleTicks(s: State, n: nat)
    requires s.interval <= 0
    ensures CanRun(s, Repeat(n)) && Exec(s, Repeat(n)) == s.(count := s.count + n)
    decreases n
  {
    if n > 0 {
      assert Repeat(n)[1..] == Repeat(n - 1);
      IdleTicks(s.(count := s.count + 1), n - 1);
    }
  }

  /** When sigalarm is the first alarm call of a process that has run for n ticks, the alarm
      comes at once exactly if no more than n + 1 ticks were asked for. */
  lemma AtOnce(frame: Frame, n: nat, interval: int, handler: nat)
    ensures var s := Exec(Fresh(frame), Repeat(n));
            && CanRun(Fresh(frame), Repeat(n)) && Inv(s)
            && (Fires(Do(s, Sigalarm(interval, handler))) <==> 0 < interval <= n + 1)
  {
    IdleTicks(Fresh(frame), n);
  }

  /** After a hundred ticks, an alarm for fifty ticks later comes at the next one. */
  lemma EarlyAlarm(frame: Frame)
    ensures var s := Exec(Fresh(frame), Repeat(100));
            CanRun(Fresh(frame), Repeat(100)) && !Fires(s) && Fires(Do(s, Sigalarm(50, 0)))
  {
    IdleTicks(Fresh(frame), 100);
    AtOnce(frame, 100, 50, 0);
  }

  // ----- The code -----

  class Process {
    var frame: Frame
    var interval: int
    var count: nat
    var handler: nat
    var handling: bool
    var alarmTf: Saved
    var nextPage: nat
    var pages: set<nat>
    /** What the process had when its handler was last entered. */
    ghost var interrupted: Frame

    ghost function S(): State
      reads this
    {
      State(frame, interval, count, handler, handling, alarmTf, nextPage, pages)
    }

    ghost predicate Valid()
      reads this
    {
      Inv(S()) && (handling ==> alarmTf.frame == interrupted)
    }

    constructor (frame: Frame)
      ensures Valid() && S() == Fresh(frame)
    {
      this.frame, interval, count, handler := frame, 0, 0, 0;
      handling, alarmTf, nextPage, pages := false, None, 0, {};
      interrupted := frame;
    }

    /** The timer branch of usertrap, without scheduling. The handler is entered exactly when an
        alarm is due outside of it; the registers are then all there for it, and kept in a page
        of their own. kalloc must succeed. */
    method TimerTick() returns (entered: bool)
      requires Valid()
      modifies this
      ensures Valid() && interval == old(interval) && handler == old(handler)
      ensures entered <==> interval > 0 && old(count) + 1 >= interval && !old(handling)
      ensures S() == Do(old(S()), Tick)
      ensures entered ==> handling && frame == old(frame).(pc := handler) && interrupted == old(frame) && |pages| == 1
      ensures entered ==> count == 0
      ensures !entered ==> handling == old(handling) && frame == old(frame) && interrupted == old(interrupted)
      ensures !entered ==> pages == old(pages) && count == old(count) + 1
    {
      count := count + 1;
      entered := interval > 0 && count >= interval && !handling;
      if entered {
        handling := true;
        var tf := nextPage;
        nextPage, pages := nextPage + 1, pages + {tf};
        alarmTf := At(tf, frame);
        interrupted := frame;
        frame := frame.(pc := handler);
        count := 0;
      }
    }

    method Sigalarm(interval: int, handler: nat)
      requires Valid()
      modifies this`interval, this`handler
      ensures Valid() && this.interval == interval && this.handler == handler
      ensures S() == Do(old(S()), Action.Sigalarm(interval, handler))
    {
      this.interval, this.handler := interval, handler;
    }

    /** The process goes on as if the handler had not run, with no page left over. */
    method Sigreturn()
      requires Valid() && handling
      modifies this
      ensures Valid() && !handling && frame == old(interrupted) && pages == {} && count == 0
      ensures interval == old(interval) && handler == old(handler) && S() == Do(old(S()), Action.Sigreturn)
    {
      frame := alarmTf.frame;
      pages := pages - {alarmTf.page};
      alarmTf := None;
      count := 0;
      handling := false;
    }

    /** An interrupt at which an alarm is due, a handler that does what it likes, and its
        sigreturn: the handler is entered once, and afterwards the process is where it was. */
    method Handle(acts: seq<Action>) returns (entries: int)
      requires Valid() && Fires(S()) && NoReturn(acts)
      modifies this
      ensures Valid() && !handling && frame == old(frame) && pages == {} && count == 0 && entries == 1
    {
      var entered := TimerTick();
      entries := if entered then 1 else 0;
      for i := 0 to |acts|
        invariant Valid() && handling && interrupted == old(frame) && entries == 1
      {
        match acts[i]
        case Run(f) => frame := f;
        case Tick =>
          entered := TimerTick();
          entries := if entered then entries + 1 else entries;
        case Sigalarm(n, h) => Sigalarm(n, h);
        case Sigreturn =>
      }
      Sigreturn();
    }
  }
}
