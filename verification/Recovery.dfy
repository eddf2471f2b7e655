/** Does recovery let a due row be overtaken? Only by a first attempt that commits after its own retry is due;
    later attempts never enter the rows `Ahead` of it. */
module Recovery {
  import opened Types
  import opened Rules
  import opened Lifecycle
  import opened Protocol
  import opened Invariant
  import opened Attempts
  import opened Coverage
  import opened StalledCommit
  import opened TwoDeliveries

  /** The rows the recovery query orders at or before a row due at `due`. */
  function Ahead(rows: map<Id, Delivery>, due: Time): set<Id> {
    set d | d in rows && Stuck(rows[d], due)
  }

  /** The step writes row `d`. */
  predicate Writes(s: State, step: Step, d: Id) {
    step.Task? && step.act.Commit? && step.m in s.msgs && s.msgs[step.m].body.Deliver?
    && s.msgs[step.m].body.delivery == d && s.msgs[step.m].phase.Staged?
  }

  /** Rows are only ever written by their own commit, and only ever added by a fan-out, with no retry time. */
  lemma RowsByStep(c: Config, s: State, step: Step, s': State, d: Id)
    requires Base(c, s) && Next(c, s, step, s')
    ensures d in s.rows ==> d in s'.rows
    ensures d in s.rows && !Writes(s, step, d) ==> s'.rows[d] == s.rows[d]
    ensures d in s.rows && Writes(s, step, d) ==> s'.rows[d] == s.msgs[step.m].phase.row && MessageOk(c, s, step.m)
    ensures d !in s.rows && d in s'.rows ==> s'.rows[d].nextRetry.None? && s'.rows[d].attempts == 0
    ensures s.now <= s'.now
  {
    match step
    case Task(m, act) =>
      assert MessageOk(c, s, m);
      TaskRows(c, s, m, act, s', d);
    case Tick(_) =>
    case Duplicate(_, _) =>
    case Beat(_) =>
    case Api(r, move) => if move.DispatchEvent? { MoveAnnounces(s, r, move.copy, s'); }
      else { MoveAside(s, r, move, s'); }
    case Admin(change) => ChangeAside(s, change, s');
  }

  lemma TaskRows(c: Config, s: State, m: Id, act: Act, s': State, d: Id)
    requires m in s.msgs && MessageOk(c, s, m) && Acts(c, s, m, act, s')
    ensures d in s.rows ==> d in s'.rows
    ensures d in s.rows && !Writes(s, Task(m, act), d) ==> s'.rows[d] == s.rows[d]
    ensures d in s.rows && Writes(s, Task(m, act), d) ==> s'.rows[d] == s.msgs[m].phase.row
    ensures d !in s.rows && d in s'.rows ==> s'.rows[d].nextRetry.None? && s'.rows[d].attempts == 0
    ensures s'.now == s.now
  {
    if !Visible(act) {
      TaskFrame(c, s, m, act, s');
    } else if act.Expand? {
      Grows(s, m, act.ids, act.created);
    }
  }

  /** The step commits the first failure of a row so late that its retry is due by `due`. */
  predicate LateFirst(s: State, step: Step, due: Time) {
    && step.Task? && step.act.Commit? && step.m in s.msgs && s.msgs[step.m].phase.Staged?
    && s.msgs[step.m].phase.row.attempts == 1 && Stuck(s.msgs[step.m].phase.row, due)
  }

  /** What is known of an attempt about to commit, from the history of its row. */
  lemma WrittenAfterDue(c: Config, s: State, step: Step, s': State, d: Id)
    requires Reachable(c, s) && Next(c, s, step, s') && Writes(s, step, d)
    ensures d in s.rows && Shape(c.delays, s.rows[d]) && s.rows[d].status == Pending
    ensures var r := s.msgs[step.m].phase.row;
            r.status == Pending && r.nextRetry.Some? ==>
              && r.attempts == s.rows[d].attempts + 1
              && (s.rows[d].nextRetry.Some? ==> s.rows[d].nextRetry.value <= r.nextRetry.value)
  {
    ReachableBase(c, s);
    assert MessageOk(c, s, step.m) && Lives(c, s, d);
    RowShapes(c, s, d);
    ReplyAfterDue(c.delays, Origin(s.rows[d]), s.epoch, s.hist[d]);
    CommittedShape(c, s, step.m);
  }

  /** Exactly when a step puts a new row at or before a row already due: a late first failure. */
  lemma OvertakesIff(c: Config, s: State, step: Step, s': State, due: Time)
    requires Reachable(c, s) && Next(c, s, step, s') && due <= s.now
    ensures !(Ahead(s'.rows, due) <= Ahead(s.rows, due)) <==> LateFirst(s, step, due)
  {
    ReachableBase(c, s);
    forall d | d in Ahead(s'.rows, due) && d !in Ahead(s.rows, due) ensures LateFirst(s, step, due) {
      RowsByStep(c, s, step, s', d);
      WrittenAfterDue(c, s, step, s', d);
    }
    if LateFirst(s, step, due) {
      var d := s.msgs[step.m].body.delivery;
      assert MessageOk(c, s, step.m);
      RowsByStep(c, s, step, s', d);
      WrittenAfterDue(c, s, step, s', d);
      assert d in Ahead(s'.rows, due) && d !in Ahead(s.rows, due);
    }
  }

  predicate FirstLagBelow(c: Config, lag: Time) {
    c.delays == [] || lag < c.delays[0] * SECOND
  }

  lemma PromptIsNotLate(c: Config, s: State, step: Step, s': State, lag: Time, due: Time)
    requires Base(c, s) && Next(c, s, step, s') && Prompt(s, step, lag) && FirstLagBelow(c, lag) && due <= s.now
    ensures !LateFirst(s, step, due)
  {
    if LateFirst(s, step, due) {
      assert MessageOk(c, s, step.m);
      CommittedShape(c, s, step.m);
    }
  }

  lemma {:induction false} ReachablePrefix(c: Config, states: seq<State>, steps: seq<Step>, t: Time, i: nat)
    requires Run(c, states, steps) && states[0] == Init(t) && i <= |steps|
    ensures Reachable(c, states[i])
  {
    var states', steps' := states[..i + 1], steps[..i];
    assert forall k :: 0 <= k < |steps'| ==> steps'[k] == steps[k];
    assert Run(c, states', steps') && states'[0] == Init(t) && states'[|steps'|] == states[i];
  }

  lemma ClockRuns(c: Config, states: seq<State>, steps: seq<Step>, i: nat, j: nat)
    requires Run(c, states, steps) && i <= j <= |steps| && Base(c, states[0])
    ensures states[i].now <= states[j].now
  {
    if i < j {
      ClockRuns(c, states, steps, i, j - 1);
      BaseAlways(c, states, steps, j - 1);
      RowsByStep(c, states[j - 1], steps[j - 1], states[j], 0);
    }
  }

  lemma AheadOn(c: Config, lag: Time, states: seq<State>, steps: seq<Step>, t: Time, k: nat, due: Time)
    requires PromptRun(c, lag, states, steps) && states[0] == Init(t) && FirstLagBelow(c, lag)
    requires k < |steps| && due <= states[k].now
    ensures Ahead(states[k + 1].rows, due) <= Ahead(states[k].rows, due)
  {
    ReachablePrefix(c, states, steps, t, k);
    ReachableBase(c, states[k]);
    PromptIsNotLate(c, states[k], steps[k], states[k + 1], lag, due);
    OvertakesIff(c, states[k], steps[k], states[k + 1], due);
  }

  lemma AheadOnlyShrinks(c: Config, lag: Time, states: seq<State>, steps: seq<Step>, t: Time, i: nat, j: nat, due: Time)
    requires PromptRun(c, lag, states, steps) && states[0] == Init(t) && FirstLagBelow(c, lag)
    requires i <= j <= |steps| && due <= states[i].now
    ensures Ahead(states[j].rows, due) <= Ahead(states[i].rows, due)
  {
    if i < j {
      AheadOnlyShrinks(c, lag, states, steps, t, i, j - 1, due);
      ClockRuns(c, states, steps, i, j - 1);
      AheadOn(c, lag, states, steps, t, j - 1, due);
    }
  }

  /** `s'` follows `s` in some run from the start whose retries are committed within `lag`. */
  ghost predicate Later(c: Config, lag: Time, s: State, s': State) {
    exists t, states, steps, i ::
      PromptRun(c, lag, states, steps) && states[0] == Init(t) && 0 <= i <= |steps| && states[i] == s
        && states[|steps|] == s'
  }

  lemma LaterBy(c: Config, lag: Time, t: Time, s: State, step: Step, s': State)
    requires Reaches(c, lag, Init(t), s) && Next(c, s, step, s') && Prompt(s, step, lag)
    ensures Later(c, lag, s, s')
  {
    var states, steps :| PromptRun(c, lag, states, steps) && states[0] == Init(t) && states[|steps|] == s;
    Append(c, lag, states, steps, step, s');
    var states' := states + [s'];
    assert states'[0] == Init(t) && states'[|steps|] == s && states'[|steps + [step]|] == s';
  }

  /**
   Never overtaken: whatever runs in between, the rows ordered at or before a due row only shrink,
   if and only if the first failure is committed within less than the first delay.
   */
  lemma NeverOvertakenIff(c: Config, lag: Time)
    requires lag >= 0
    ensures FirstLagBelow(c, lag) <==>
            forall s, s', d :: Later(c, lag, s, s') && d in s.rows && Stuck(s.rows[d], s.now) ==>
              Ahead(s'.rows, s.rows[d].nextRetry.value) <= Ahead(s.rows, s.rows[d].nextRetry.value)
  {
    if FirstLagBelow(c, lag) {
      forall s, s', d | Later(c, lag, s, s') && d in s.rows && Stuck(s.rows[d], s.now)
        ensures Ahead(s'.rows, s.rows[d].nextRetry.value) <= Ahead(s.rows, s.rows[d].nextRetry.value)
      {
        LaterShrinks(c, lag, s, s', s.rows[d].nextRetry.value);
      }
    } else {
      var s, s' := Overtaking(c, lag);
    }
  }

  lemma LaterShrinks(c: Config, lag: Time, s: State, s': State, due: Time)
    requires FirstLagBelow(c, lag) && Later(c, lag, s, s') && due <= s.now
    ensures Ahead(s'.rows, due) <= Ahead(s.rows, due)
  {
    var t, states, steps, i :|
      PromptRun(c, lag, states, steps) && states[0] == Init(t) && 0 <= i <= |steps| && states[i] == s
        && states[|steps|] == s';
    AheadOnlyShrinks(c, lag, states, steps, t, i, |steps|, due);
  }

  /**
   A due row overtaken: two deliveries fail at the same time; one commits at once and comes due, and
   only then the other commits, due no later.
   */
  lemma Overtaking(c: Config, lag: Time) returns (s: State, s': State)
    requires lag >= 0 && !FirstLagBelow(c, lag)
    ensures Later(c, lag, s, s') && 0 in s.rows && Stuck(s.rows[0], s.now)
    ensures var due := s.rows[0].nextRetry.value; 1 in Ahead(s'.rows, due) && 1 !in Ahead(s.rows, due)
  {
    var s1 := TwoFailing(c, lag);
    var s2 := Settle(c, lag, Init(0), s1, 1, 0);
    s := SetClock(s2, c.delays[0] * SECOND);
    Then(c, lag, Init(0), s2, Tick(c.delays[0] * SECOND), s);
    s' := CommitRow(s, 2);
    LaterBy(c, lag, 0, s, Task(2, Commit), s');
  }

  lemma DistinctSize(xs: seq<Id>)
    requires Distinct(xs)
    ensures |set x | x in xs| == |xs|
  {
    if xs != [] {
      DistinctSize(xs[1..]);
      assert (set x | x in xs) == (set x | x in xs[1..]) + {xs[0]};
      assert xs[0] !in xs[1..];
    }
  }

  lemma Subset(a: set<Id>, b: set<Id>)
    requires a <= b
    ensures |a| <= |b|
  {
    assert b == a + (b - a);
  }
}
