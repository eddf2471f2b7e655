/** How many recovery scans a due row can wait, in any run, counting the rows that come back. */
module Dispatch {
  import opened Types
  import opened Rules
  import opened Lifecycle
  import opened Protocol
  import opened Invariant
  import opened Coverage
  import opened Recovery

  /** Row `x` was attempted, or ended, between the two states. */
  predicate Processed(s: State, s': State, x: Id) {
    x in s.rows && x in s'.rows && (s'.rows[x].attempts > s.rows[x].attempts || s'.rows[x].status != Pending)
  }

  /** One step either leaves a row as it is or attempts or ends it; a row that has ended is left. */
  lemma RowStep(c: Config, s: State, step: Step, s': State, x: Id)
    requires Base(c, s) && Next(c, s, step, s') && x in s.rows
    ensures x in s'.rows && s.rows[x].attempts <= s'.rows[x].attempts
    ensures s'.rows[x] == s.rows[x] || (s.rows[x].status == Pending && Processed(s, s', x))
  {
    RowsByStep(c, s, step, s', x);
  }

  lemma {:induction false} RowAdvances(c: Config, states: seq<State>, steps: seq<Step>, i: nat, j: nat, x: Id)
    requires Run(c, states, steps) && Base(c, states[0]) && i <= j <= |steps| && x in states[i].rows
    ensures x in states[j].rows && states[i].rows[x].attempts <= states[j].rows[x].attempts
    ensures states[j].rows[x] == states[i].rows[x] || Processed(states[i], states[j], x)
  {
    if i < j {
      RowAdvances(c, states, steps, i, j - 1, x);
      BaseAlways(c, states, steps, j - 1);
      RowStep(c, states[j - 1], steps[j - 1], states[j], x);
    }
  }

  predicate Climbing(scans: seq<nat>, n: nat) {
    && (forall k :: 0 <= k < |scans| ==> scans[k] < n)
    && (forall k :: 0 <= k < |scans| - 1 ==> scans[k] < scans[k + 1])
  }

  /** `scans` are positions of recovery scans, with the batch each of them picked. */
  ghost predicate Scans(states: seq<State>, steps: seq<Step>, scans: seq<nat>, picks: seq<seq<Id>>) {
    && |picks| == |scans|
    && Climbing(scans, |steps|)
    && (forall k :: 0 <= k < |scans| ==> steps[scans[k]].Task? && steps[scans[k]].act == Scan(picks[k]))
  }

  /** Every row picked by a scan has been processed by the time of the next scan. */
  ghost predicate BatchesProcessed(states: seq<State>, steps: seq<Step>, scans: seq<nat>, picks: seq<seq<Id>>)
    requires |states| == |steps| + 1 && Scans(states, steps, scans, picks)
  {
    forall k, x :: 0 <= k < |scans| - 1 && x in picks[k] ==> Processed(states[scans[k]], states[scans[k + 1]], x)
  }

  /** A scan that passes a due row over picks a full batch of rows ahead of it. */
  lemma PassedOver(c: Config, s: State, m: Id, picked: seq<Id>, s': State, d: Id)
    requires Acts(c, s, m, Scan(picked), s') && d in s.rows && Stuck(s.rows[d], s.now) && d !in picked
    ensures |picked| == c.batch && Distinct(picked)
    ensures forall x :: x in picked ==> x in Ahead(s.rows, s.rows[d].nextRetry.value)
  {
  }

  lemma {:induction false} ScansRise(states: seq<State>, steps: seq<Step>, scans: seq<nat>, picks: seq<seq<Id>>,
                                     i: nat, j: nat)
    requires Scans(states, steps, scans, picks) && i <= j < |scans|
    ensures scans[i] <= scans[j] < |steps|
  {
    if i < j {
      ScansRise(states, steps, scans, picks, i, j - 1);
      assert scans[j - 1] < scans[j - 1 + 1];
    }
  }

  // ----- rows that come back -----

  /** The row a step commits so late that its retry is due by `due`, if it does. */
  function LateIn(s: State, step: Step, due: Time): set<Id> {
    if step.Task? && step.act.Commit? && step.m in s.msgs && s.msgs[step.m].body.Deliver?
       && s.msgs[step.m].phase.Staged? && Stuck(s.msgs[step.m].phase.row, due)
    then {s.msgs[step.m].body.delivery} else {}
  }

  /** The rows committed so late between two points of a run. */
  function LateRows(states: seq<State>, steps: seq<Step>, i: nat, j: nat, due: Time): set<Id>
    requires |states| == |steps| + 1 && i <= j <= |steps|
  {
    if i == j then {} else LateRows(states, steps, i, j - 1, due) + LateIn(states[j - 1], steps[j - 1], due)
  }

  /** A row at or before `due` after a step was there before it, the same, or was committed late by it. */
  lemma AheadByStep(c: Config, s: State, step: Step, s': State, due: Time, x: Id)
    requires Base(c, s) && Next(c, s, step, s') && x in Ahead(s'.rows, due) && x !in LateIn(s, step, due)
    ensures x in Ahead(s.rows, due) && s.rows[x] == s'.rows[x]
  {
    RowsByStep(c, s, step, s', x);
  }

  lemma AheadOn(c: Config, states: seq<State>, steps: seq<Step>, k: nat, due: Time, x: Id)
    requires Run(c, states, steps) && Base(c, states[0]) && k < |steps|
    requires x in Ahead(states[k + 1].rows, due) && x !in LateIn(states[k], steps[k], due)
    ensures x in Ahead(states[k].rows, due) && states[k].rows[x] == states[k + 1].rows[x]
  {
    BaseAlways(c, states, steps, k);
    AheadByStep(c, states[k], steps[k], states[k + 1], due, x);
  }

  /** Step `k` puts `x` at or before `due` only by committing it late. */
  predicate Carried(states: seq<State>, steps: seq<Step>, k: nat, due: Time, x: Id)
    requires |states| == |steps| + 1 && k < |steps|
  {
    x in Ahead(states[k + 1].rows, due) && x !in LateIn(states[k], steps[k], due) ==>
      x in Ahead(states[k].rows, due) && states[k].rows[x] == states[k + 1].rows[x]
  }

  lemma {:induction false} CarriedBack(states: seq<State>, steps: seq<Step>, i: nat, j: nat, due: Time, x: Id)
    requires |states| == |steps| + 1 && i <= j <= |steps|
    requires forall k :: i <= k < j ==> Carried(states, steps, k, due, x)
    requires x in Ahead(states[j].rows, due) && x !in LateRows(states, steps, i, j, due)
    ensures x in Ahead(states[i].rows, due) && states[i].rows[x] == states[j].rows[x]
  {
    if i < j {
      assert Carried(states, steps, j - 1, due, x);
      CarriedBack(states, steps, i, j - 1, due, x);
    }
  }

  /** What is at or before `due` now was there before, untouched, or has been committed late since. */
  lemma AheadUnlessLate(c: Config, states: seq<State>, steps: seq<Step>, i: nat, j: nat, due: Time, x: Id)
    requires Run(c, states, steps) && Base(c, states[0]) && i <= j <= |steps|
    requires x in Ahead(states[j].rows, due) && x !in LateRows(states, steps, i, j, due)
    ensures x in Ahead(states[i].rows, due) && states[i].rows[x] == states[j].rows[x]
  {
    forall k | i <= k < j ensures Carried(states, steps, k, due, x) {
      if x in Ahead(states[k + 1].rows, due) && x !in LateIn(states[k], steps[k], due) {
        AheadOn(c, states, steps, k, due, x);
      }
    }
    CarriedBack(states, steps, i, j, due, x);
  }

  // ----- scans that pass a row over -----

  /** A scan that passes a due row over sees more than a batch of rows at or before it. */
  lemma MoreThanABatch(c: Config, s: State, m: Id, picked: seq<Id>, s': State, d: Id)
    requires Acts(c, s, m, Scan(picked), s') && d in s.rows && Stuck(s.rows[d], s.now) && d !in picked
    ensures |Ahead(s.rows, s.rows[d].nextRetry.value)| > c.batch
  {
    PassedOver(c, s, m, picked, s', d);
    DistinctSize(picked);
    var batch := set x | x in picked;
    assert |batch + {d}| == c.batch + 1;
    Subset(batch + {d}, Ahead(s.rows, s.rows[d].nextRetry.value));
  }

  /** At scan number `k` the row is still the same due row, and is not picked either. */
  predicate Waits(states: seq<State>, scans: seq<nat>, picks: seq<seq<Id>>, d: Id, row: Delivery, k: nat)
    requires |picks| == |scans| && k < |scans| && scans[k] < |states|
  {
    d !in picks[k] && d in states[scans[k]].rows && states[scans[k]].rows[d] == row
  }

  /** A scan that passes the row over takes a batch off the rows at or before it, and late rows come back. */
  lemma ScanTakesBatch(c: Config, states: seq<State>, steps: seq<Step>, scans: seq<nat>, picks: seq<seq<Id>>,
                       d: Id, row: Delivery, k: nat)
    requires Run(c, states, steps) && Base(c, states[0])
    requires Scans(states, steps, scans, picks) && BatchesProcessed(states, steps, scans, picks)
    requires k + 1 < |scans| && Waits(states, scans, picks, d, row, k) && Stuck(row, states[scans[k]].now)
    ensures var due := row.nextRetry.value;
            |Ahead(states[scans[k + 1]].rows, due)| + c.batch
            <= |Ahead(states[scans[k]].rows, due)| + |LateRows(states, steps, scans[k], scans[k + 1], due)|
  {
    var i, j := scans[k], scans[k + 1]; var due := row.nextRetry.value;
    var late := LateRows(states, steps, i, j, due);
    assert Next(c, states[i], steps[i], states[i + 1]);
    BatchTaken(c, states[i], steps[i].m, picks[k], states[i + 1], d);
    forall x | x in Ahead(states[j].rows, due) && x !in late ensures x in Ahead(states[i].rows, due) && x !in picks[k] {
      AheadUnlessLate(c, states, steps, i, j, due, x);
      assert x in picks[k] ==> Processed(states[i], states[j], x);
    }
    var batch := set x | x in picks[k];
    Accounted(Ahead(states[i].rows, due), batch, Ahead(states[j].rows, due), late);
  }

  lemma BatchTaken(c: Config, s: State, m: Id, picked: seq<Id>, s': State, d: Id)
    requires Acts(c, s, m, Scan(picked), s') && d in s.rows && Stuck(s.rows[d], s.now) && d !in picked
    ensures |set x | x in picked| == c.batch
    ensures forall x :: x in picked ==> x in Ahead(s.rows, s.rows[d].nextRetry.value)
  {
    PassedOver(c, s, m, picked, s', d);
    DistinctSize(picked);
  }

  lemma Accounted(before: set<Id>, batch: set<Id>, after: set<Id>, late: set<Id>)
    requires forall x :: x in batch ==> x in before
    requires forall x :: x in after && x !in late ==> x in before && x !in batch
    ensures |after| + |batch| <= |before| + |late|
  {
    forall x | x in batch ensures x in before {
    }
    assert |before - batch| == |before| - |batch|;
    forall x | x in after ensures x in (before - batch) + late {
    }
    Subset(after, (before - batch) + late);
  }

  /** How many rows were committed late between each scan and the next. */
  function LateCounts(states: seq<State>, steps: seq<Step>, scans: seq<nat>, due: Time): seq<nat>
    requires |states| == |steps| + 1 && scans != [] && Climbing(scans, |steps|)
  {
    seq(|scans| - 1, k requires 0 <= k < |scans| - 1 => LateCount(states, steps, scans, due, k))
  }

  function LateCount(states: seq<State>, steps: seq<Step>, scans: seq<nat>, due: Time, k: nat): nat
    requires |states| == |steps| + 1 && Climbing(scans, |steps|) && k + 1 < |scans|
  {
    |LateRows(states, steps, scans[k], scans[k + 1], due)|
  }

  /** All late rows of the first `n` intervals between scans, counted once for each interval. */
  function LateTotal(states: seq<State>, steps: seq<Step>, scans: seq<nat>, due: Time, n: nat): nat
    requires |states| == |steps| + 1 && n < |scans| && Climbing(scans, |steps|)
  {
    Sum(LateCounts(states, steps, scans, due)[..n])
  }

  /** Ranks that fall by a batch at each scan, but for the late rows of that interval. */
  lemma {:induction false} SumFalls(ranks: seq<nat>, late: seq<nat>, batch: nat, n: nat)
    requires n <= |late| && n < |ranks|
    requires forall k :: 0 <= k < n ==> ranks[k + 1] + batch <= ranks[k] + late[k]
    ensures ranks[n] + n * batch <= ranks[0] + Sum(late[..n])
  {
    if n > 0 {
      SumFalls(ranks, late, batch, n - 1);
      assert late[..n][..n - 1] == late[..n - 1];
      assert ranks[n - 1 + 1] + batch <= ranks[n - 1] + late[n - 1];
      OneBatchMore(n - 1, batch);
    }
  }

  lemma {:induction false} SumOfNone(late: seq<nat>)
    requires forall k :: 0 <= k < |late| ==> late[k] == 0
    ensures Sum(late) == 0
  {
    if late != [] {
      SumOfNone(late[..|late| - 1]);
    }
  }

  lemma StillDue(c: Config, states: seq<State>, steps: seq<Step>, scans: seq<nat>, picks: seq<seq<Id>>,
                 row: Delivery, k: nat)
    requires Run(c, states, steps) && Base(c, states[0]) && Scans(states, steps, scans, picks)
    requires k < |scans| && Stuck(row, states[scans[0]].now)
    ensures scans[k] < |steps| && Stuck(row, states[scans[k]].now)
  {
    ScansRise(states, steps, scans, picks, 0, k);
    ClockRuns(c, states, steps, scans[0], scans[k]);
  }

  /** The rows at or before the row when each scan is made. */
  function Ranks(states: seq<State>, scans: seq<nat>, due: Time): seq<nat>
    requires forall k :: 0 <= k < |scans| ==> scans[k] < |states|
  {
    seq(|scans|, k requires 0 <= k < |scans| => |Ahead(states[scans[k]].rows, due)|)
  }

  /** While due row `d` is passed over, each scan takes a whole batch off the rows at or before it. */
  lemma RankFalls(c: Config, states: seq<State>, steps: seq<Step>, scans: seq<nat>, picks: seq<seq<Id>>,
                  d: Id, row: Delivery, n: nat)
    requires Run(c, states, steps) && Base(c, states[0])
    requires Scans(states, steps, scans, picks) && BatchesProcessed(states, steps, scans, picks)
    requires n < |scans| && Stuck(row, states[scans[0]].now)
    requires forall k :: 0 <= k < n ==> Waits(states, scans, picks, d, row, k)
    ensures var due := row.nextRetry.value;
            |Ahead(states[scans[n]].rows, due)| + n * c.batch
            <= |Ahead(states[scans[0]].rows, due)| + LateTotal(states, steps, scans, due, n)
  {
    var due := row.nextRetry.value;
    var ranks, late := Ranks(states, scans, due), LateCounts(states, steps, scans, due);
    forall k | 0 <= k < n ensures ranks[k + 1] + c.batch <= ranks[k] + late[k] {
      assert Waits(states, scans, picks, d, row, k);
      StillDue(c, states, steps, scans, picks, row, k);
      ScanTakesBatch(c, states, steps, scans, picks, d, row, k);
    }
    SumFalls(ranks, late, c.batch, n);
  }

  lemma OneBatchMore(n: nat, batch: nat)
    ensures (n + 1) * batch == n * batch + batch
  {
  }

  /** Passed over by n scans: more than n batches of rows were at or before it, or came back late. */
  lemma PassedOverBy(c: Config, states: seq<State>, steps: seq<Step>, scans: seq<nat>, picks: seq<seq<Id>>,
                     d: Id, row: Delivery, n: nat)
    requires Run(c, states, steps) && Base(c, states[0])
    requires Scans(states, steps, scans, picks) && BatchesProcessed(states, steps, scans, picks)
    requires 0 < n <= |scans| && Stuck(row, states[scans[0]].now)
    requires forall k :: 0 <= k < n ==> Waits(states, scans, picks, d, row, k)
    ensures var due := row.nextRetry.value;
            |Ahead(states[scans[0]].rows, due)| + LateTotal(states, steps, scans, due, n - 1) > n * c.batch
  {
    RankFalls(c, states, steps, scans, picks, d, row, n - 1);
    StillDue(c, states, steps, scans, picks, row, n - 1);
    assert Waits(states, scans, picks, d, row, n - 1);
    var i := scans[n - 1];
    assert Next(c, states[i], steps[i], states[i + 1]);
    MoreThanABatch(c, states[i], steps[i].m, picks[n - 1], states[i + 1], d);
    OneBatchMore(n - 1, c.batch);
  }

  /**
   In any run: a due row with at most n batches of rows at or before it, itself among them and the
   rows committed late before the last of the scans counted in, is dispatched within n scans. One of
   the next n scans picks it, unless it was attempted or ended before that scan.
   */
  lemma DispatchedInAnyRun(c: Config, states: seq<State>, steps: seq<Step>, scans: seq<nat>, picks: seq<seq<Id>>,
                           d: Id, n: nat)
    requires Run(c, states, steps) && Reachable(c, states[0])
    requires Scans(states, steps, scans, picks) && BatchesProcessed(states, steps, scans, picks)
    requires 0 < n <= |scans| && d in states[scans[0]].rows && Stuck(states[scans[0]].rows[d], states[scans[0]].now)
    requires var due := states[scans[0]].rows[d].nextRetry.value;
             |Ahead(states[scans[0]].rows, due)| + LateTotal(states, steps, scans, due, n - 1) <= n * c.batch
    ensures exists k :: 0 <= k < n && (d in picks[k] || Processed(states[scans[0]], states[scans[k]], d))
  {
    var row := states[scans[0]].rows[d];
    ReachableBase(c, states[0]);
    if forall k :: 0 <= k < n ==> d !in picks[k] && !Processed(states[scans[0]], states[scans[k]], d) {
      forall k | 0 <= k < n ensures Waits(states, scans, picks, d, row, k) {
        ScansRise(states, steps, scans, picks, 0, k);
        RowAdvances(c, states, steps, scans[0], scans[k], d);
      }
      PassedOverBy(c, states, steps, scans, picks, d, row, n);
    }
  }

  // ----- with prompt commits -----

  lemma PromptIsNeverLate(c: Config, lag: Time, states: seq<State>, steps: seq<Step>, k: nat, due: Time)
    requires PromptRun(c, lag, states, steps) && Base(c, states[0]) && LagBelowDelays(c, lag)
    requires k < |steps| && due <= states[k].now
    ensures LateIn(states[k], steps[k], due) == {}
  {
    BaseAlways(c, states, steps, k);
    assert Next(c, states[k], steps[k], states[k + 1]) && Prompt(states[k], steps[k], lag);
    PromptIsTimely(c, states[k], steps[k], states[k + 1], lag);
  }

  lemma {:induction false} NoneLate(states: seq<State>, steps: seq<Step>, i: nat, j: nat, due: Time)
    requires |states| == |steps| + 1 && i <= j <= |steps|
    requires forall k :: i <= k < j ==> LateIn(states[k], steps[k], due) == {}
    ensures LateRows(states, steps, i, j, due) == {}
  {
    if i < j {
      NoneLate(states, steps, i, j - 1, due);
      assert LateIn(states[j - 1], steps[j - 1], due) == {};
    }
  }

  lemma PromptHasNoLateRows(c: Config, lag: Time, states: seq<State>, steps: seq<Step>, i: nat, j: nat, due: Time)
    requires PromptRun(c, lag, states, steps) && Base(c, states[0]) && LagBelowDelays(c, lag)
    requires i <= j <= |steps| && due <= states[i].now
    ensures LateRows(states, steps, i, j, due) == {}
  {
    forall k | i <= k < j ensures LateIn(states[k], steps[k], due) == {} {
      ClockRuns(c, states, steps, i, k);
      PromptIsNeverLate(c, lag, states, steps, k, due);
    }
    NoneLate(states, steps, i, j, due);
  }

  lemma PromptHasNoLateTotal(c: Config, lag: Time, states: seq<State>, steps: seq<Step>, scans: seq<nat>,
                             picks: seq<seq<Id>>, due: Time, n: nat)
    requires PromptRun(c, lag, states, steps) && Base(c, states[0]) && LagBelowDelays(c, lag)
    requires Scans(states, steps, scans, picks) && n < |scans| && due <= states[scans[0]].now
    ensures LateTotal(states, steps, scans, due, n) == 0
  {
    var late := LateCounts(states, steps, scans, due);
    forall k | 0 <= k < n ensures late[k] == 0 {
      ScansRise(states, steps, scans, picks, 0, k);
      ClockRuns(c, states, steps, scans[0], scans[k]);
      PromptHasNoLateRows(c, lag, states, steps, scans[k], scans[k + 1], due);
    }
    SumOfNone(late[..n]);
  }

  /** With prompt commits no row comes back: n batches of rows at or before it take at most n scans. */
  lemma DispatchedWithin(c: Config, lag: Time, states: seq<State>, steps: seq<Step>, t: Time,
                         scans: seq<nat>, picks: seq<seq<Id>>, d: Id, n: nat)
    requires PromptRun(c, lag, states, steps) && states[0] == Init(t) && LagBelowDelays(c, lag)
    requires Scans(states, steps, scans, picks) && BatchesProcessed(states, steps, scans, picks)
    requires 0 < n <= |scans| && d in states[scans[0]].rows && Stuck(states[scans[0]].rows[d], states[scans[0]].now)
    requires |Ahead(states[scans[0]].rows, states[scans[0]].rows[d].nextRetry.value)| <= n * c.batch
    ensures exists k :: 0 <= k < n && (d in picks[k] || Processed(states[scans[0]], states[scans[k]], d))
  {
    ReachablePrefix(c, states, steps, t, 0);
    PromptHasNoLateTotal(c, lag, states, steps, scans, picks, states[scans[0]].rows[d].nextRetry.value, n - 1);
    DispatchedInAnyRun(c, states, steps, scans, picks, d, n);
  }
}
