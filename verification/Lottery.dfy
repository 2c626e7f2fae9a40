/** The lottery scheduler of kernel/proc.c: how many draws select each process, and which
    process then runs. */
module Lottery {
  datatype Proc = Proc(runnable: bool, tickets: nat, arrival: nat)

  /** The tickets of the runnable processes before i. */
  function Sum(proc: seq<Proc>, i: nat): nat
    requires i <= |proc|
  {
    if i == 0 then 0 else Sum(proc, i - 1) + if proc[i - 1].runnable then proc[i - 1].tickets else 0
  }

  lemma {:induction false} SumUp(proc: seq<Proc>, i: nat, j: nat)
    requires i <= j <= |proc|
    ensures Sum(proc, i) <= Sum(proc, j)
    decreases j
  {
    if i < j {
      SumUp(proc, i, j - 1);
    }
  }

  /** The first loop: all tickets. */
  method TotalTickets(proc: seq<Proc>) returns (total: nat)
    ensures total == Sum(proc, |proc|)
  {
    total := 0;
    for i := 0 to |proc|
      invariant total == Sum(proc, i)
    {
      if proc[i].runnable {
        total := total + proc[i].tickets;
      }
    }
  }

  /** The process that a draw selects, or |proc|: the first runnable one at which the running
      sum reaches the drawn value. */
  ghost predicate Selects(proc: seq<Proc>, value: nat, i: nat) {
    i < |proc| && proc[i].runnable && Sum(proc, i) < value <= Sum(proc, i + 1)
  }

  /** The second loop. */
  method Draw(proc: seq<Proc>, value: nat) returns (winner: nat)
    requires value > 0
    ensures winner <= |proc|
    ensures winner < |proc| ==> Selects(proc, value, winner)
    ensures winner == |proc| ==> value > Sum(proc, |proc|)
  {
    var sum := 0;
    for i := 0 to |proc|
      invariant sum == Sum(proc, i) && sum < value
    {
      if proc[i].runnable {
        sum := sum + proc[i].tickets;
        if sum >= value {
          return i;
        }
      }
    }
    return |proc|;
  }

  /** A draw selects at most one process. */
  lemma SelectsOne(proc: seq<Proc>, value: nat, i: nat, j: nat)
    requires Selects(proc, value, i) && Selects(proc, value, j)
    ensures i == j
  {
    if i < j {
      SumUp(proc, i + 1, j);
    } else if j < i {
      SumUp(proc, j + 1, i);
    }
  }

  // ----- Counting draws -----

  /** rand_at_max(total) + 1 is one of 1 .. total + 1. */
  ghost function Draws(total: nat): set<nat> {
    Between(0, total + 1)
  }

  /** The numbers above lo up to hi. */
  ghost function Between(lo: nat, hi: nat): (s: set<nat>)
    ensures forall v :: v in s <==> lo < v <= hi
    ensures lo <= hi ==> |s| == hi - lo
    decreases hi
  {
    if hi <= lo then {} else Between(lo, hi - 1) + {hi}
  }

  ghost function SelectingDraws(proc: seq<Proc>, i: nat): set<nat> {
    set v | v in Draws(Sum(proc, |proc|)) && Selects(proc, v, i)
  }

  ghost predicate SelectsSome(proc: seq<Proc>, v: nat) {
    exists i: nat :: Selects(proc, v, i)
  }

  ghost function IdleDraws(proc: seq<Proc>): set<nat> {
    set v | v in Draws(Sum(proc, |proc|)) && !SelectsSome(proc, v)
  }

  /** Of the total + 1 possible draws, as many select a runnable process as it has tickets. */
  lemma DrawsPerProcess(proc: seq<Proc>, i: nat)
    requires i < |proc| && proc[i].runnable
    ensures |SelectingDraws(proc, i)| == proc[i].tickets
  {
    SumUp(proc, i + 1, |proc|);
    assert SelectingDraws(proc, i) == Between(Sum(proc, i), Sum(proc, i + 1));
  }

  /** Exactly one of them, the largest, selects nobody. */
  lemma OneIdleDraw(proc: seq<Proc>)
    ensures IdleDraws(proc) == {Sum(proc, |proc|) + 1} && |Draws(Sum(proc, |proc|))| == Sum(proc, |proc|) + 1
  {
    var total, top := Sum(proc, |proc|), Sum(proc, |proc|) + 1;
    forall v: nat | 0 < v <= total ensures SelectsSome(proc, v) {
      var i := Reaches(proc, v, |proc|);
      assert Selects(proc, v, i);
    }
    forall i: nat ensures !Selects(proc, top, i) {
      if i < |proc| { SumUp(proc, i + 1, |proc|); }
    }
  }

  lemma {:induction false} Reaches(proc: seq<Proc>, v: nat, n: nat) returns (i: nat)
    requires n <= |proc| && 0 < v <= Sum(proc, n)
    ensures Selects(proc, v, i)
    decreases n
  {
    if v <= Sum(proc, n - 1) {
      i := Reaches(proc, v, n - 1);
    } else {
      i := n - 1;
    }
  }

  // ----- The process that runs -----

  /** The last loop: among the runnable processes with as many tickets as the selected one, one
      that arrived first. */
  method FirstArrived(proc: seq<Proc>, selected: nat) returns (winner: nat)
    requires selected < |proc| && proc[selected].runnable
    ensures winner < |proc| && proc[winner].runnable && proc[winner].tickets == proc[selected].tickets
    ensures forall q :: 0 <= q < |proc| && proc[q].runnable && proc[q].tickets == proc[selected].tickets ==>
              proc[winner].arrival <= proc[q].arrival
  {
    winner := selected;
    for p := 0 to |proc|
      invariant winner < |proc| && proc[winner].runnable && proc[winner].tickets == proc[selected].tickets
      invariant proc[winner].arrival <= proc[selected].arrival
      invariant forall q :: 0 <= q < p && proc[q].runnable && proc[q].tickets == proc[selected].tickets ==>
                  proc[winner].arrival <= proc[q].arrival
    {
      if proc[p].runnable && proc[p].tickets == proc[winner].tickets {
        if proc[p].arrival < proc[winner].arrival {
          winner := p;
        }
      }
    }
  }

  /** A round of the scheduler: `random` is what rand() returned. */
  method Schedule(proc: seq<Proc>, random: nat) returns (winner: nat)
    ensures winner <= |proc|
    ensures winner < |proc| ==> proc[winner].runnable
    ensures var total := Sum(proc, |proc|);
            winner == |proc| <==> total == 0 || random % (total + 1) == total
    ensures winner < |proc| ==>
              exists i: nat ::
                && Selects(proc, random % (Sum(proc, |proc|) + 1) + 1, i) && proc[winner].tickets == proc[i].tickets
                && forall q :: 0 <= q < |proc| && proc[q].runnable && proc[q].tickets == proc[i].tickets ==>
                    proc[winner].arrival <= proc[q].arrival
  {
    winner := |proc|;
    var total := TotalTickets(proc);
    if total > 0 {
      var value := random % (total + 1) + 1;
      var selected := Draw(proc, value);
      if selected < |proc| {
        SumUp(proc, selected + 1, |proc|);
        winner := FirstArrived(proc, selected);
      }
    }
  }
}
