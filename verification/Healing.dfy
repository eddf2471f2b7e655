/** What recovery heals: in any run, however late its commits, recovery requests are all it takes to bring
    everything that is not adrift to an end. */
module Healing {
  import opened Types
  import opened Rules
  import opened Protocol
  import opened Invariant
  import opened Coverage
  import opened FiniteWork
  import opened BoundedWork
  import opened Sorting
  import opened Rest
  import opened StalledCommit
  import opened Stranded
  import opened RunToRest

  // ----- where any run comes to rest -----

  predicate AtRest(s: State) {
    s.msgs == map[]
  }

  lemma NoOneCanAct(c: Config, s: State)
    requires Reachable(c, s) && forall m, to :: !CanAct(c, s, m, to)
    ensures AtRest(s)
  {
    forall m ensures m !in s.msgs {
      if m in s.msgs {
        AlwaysCanAct(c, s, m);
      }
    }
  }

  lemma NoneLocked(c: Config, s: State, d: Id)
    requires Tasks(c, s) && AtRest(s)
    ensures d !in s.locks
  {
    assert d in s.locks ==> LockOk(s, d);
  }

  lemma AtRestFacts(c: Config, s: State)
    requires Reachable(c, s) && AtRest(s)
    ensures Base(c, s) && Unreleased(s)
  {
    ReachableBase(c, s);
    var t, states, steps :| Run(c, states, steps) && states[0] == Init(t) && states[|steps|] == s;
    UnreleasedAlways(c, states, steps, t, |steps|);
  }

  /**
   Where any run has come to rest, a pending delivery is adrift if it has no retry time, and the
   recovery query selects it from its retry time on if it has one.
   */
  lemma PendingAtRest(c: Config, s: State, d: Id)
    requires Reachable(c, s) && (forall m, to :: !CanAct(c, s, m, to)) && d in s.rows && s.rows[d].status == Pending
    ensures Adrift(s, d) <==> s.rows[d].nextRetry.None?
    ensures !Adrift(s, d) ==> forall now :: s.rows[d].nextRetry.value <= now ==> Stuck(s.rows[d], now)
  {
    NoOneCanAct(c, s);
    QuietPending(c, s, d);
  }

  lemma QuietPending(c: Config, s: State, d: Id)
    requires Reachable(c, s) && AtRest(s) && d in s.rows && s.rows[d].status == Pending
    ensures Adrift(s, d) <==> s.rows[d].nextRetry.None?
  {
    AtRestFacts(c, s);
    assert forall m :: !Announces(s.msgs, m, d) && !Wakes(s, m, d);
    if !Adrift(s, d) {
      ForgottenOnlyUntilRecovery(c, s, d);
    }
  }

  // ----- no row gets adrift without a crash -----

  /** Nothing comes in but recovery requests. */
  predicate Healing(step: Step) {
    Quiet(step) || step.Beat?
  }

  predicate AllHealing(steps: seq<Step>) {
    forall k :: 0 <= k < |steps| ==> Healing(steps[k])
  }

  lemma {:induction false} ReachableAlong(c: Config, states: seq<State>, steps: seq<Step>, i: nat)
    requires Run(c, states, steps) && Reachable(c, states[0]) && i <= |steps|
    ensures Reachable(c, states[i])
  {
    if i > 0 {
      ReachableAlong(c, states, steps, i - 1);
      ReachableNext(c, states[i - 1], steps[i - 1], states[i]);
    }
  }

  lemma SafeOn(c: Config, states: seq<State>, steps: seq<Step>, k: nat, d: Id)
    requires Run(c, states, steps) && Reachable(c, states[0]) && k < |steps| && Healing(steps[k])
    ensures !Adrift(states[k], d) ==> !Adrift(states[k + 1], d)
  {
    ReachableAlong(c, states, steps, k);
    StrandsIff(c, states[k], steps[k], states[k + 1], d);
  }

  lemma {:induction false} StaysFalse(lost: seq<bool>, n: nat)
    requires n < |lost| && !lost[0] && forall k :: 0 <= k < |lost| - 1 && !lost[k] ==> !lost[k + 1]
    ensures !lost[n]
  {
    if n > 0 {
      StaysFalse(lost, n - 1);
      assert !lost[n - 1 + 1];
    }
  }

  lemma NoneGetsAdrift(c: Config, states: seq<State>, steps: seq<Step>, d: Id)
    requires Run(c, states, steps) && Reachable(c, states[0]) && AllHealing(steps) && Adrift(states[|steps|], d)
    ensures Adrift(states[0], d)
  {
    if !Adrift(states[0], d) {
      ghost var lost := seq(|states|, k requires 0 <= k < |states| => Adrift(states[k], d));
      forall k | 0 <= k < |lost| - 1 && !lost[k] ensures !lost[k + 1] {
        SafeOn(c, states, steps, k, d);
      }
      StaysFalse(lost, |steps|);
    }
  }

  // ----- a claimed row does not come back as it was -----

  ghost predicate NoFanOut(s: State) {
    forall m :: m in s.msgs ==> !s.msgs[m].body.FanOut?
  }

  /** A quiet step: the row stays locked, or its attempt commits. */
  lemma StepSpends(c: Config, s: State, step: Step, s': State, x: Id)
    requires Reachable(c, s) && Next(c, s, step, s') && Quiet(step) && NoFanOut(s)
    ensures NoFanOut(s') && AttemptsLeft(c, s') <= AttemptsLeft(c, s)
    ensures x in s.locks ==> x in s'.locks || AttemptsLeft(c, s') < AttemptsLeft(c, s)
  {
    AttemptsSpent(c, s, step, s');
    if step.Task? {
      TaskLocks(c, s, step.m, step.act, s', x);
    } else if step.Api? {
      MoveAside(s, step.r, step.move, s');
    } else if step.Admin? {
      ChangeAside(s, step.change, s');
    }
  }

  lemma TaskLocks(c: Config, s: State, m: Id, act: Act, s': State, x: Id)
    requires Acts(c, s, m, act, s') && NoFanOut(s) && !act.Crash?
    ensures NoFanOut(s') && !act.Expand?
    ensures x in s.locks && !act.Commit? ==> x in s'.locks
  {
  }

  lemma {:induction false} HeldOrSpent(left: seq<nat>, held: seq<bool>, n: nat)
    requires |held| == |left| && n < |left| && held[0]
    requires forall k :: 0 <= k < |left| - 1 ==> left[k + 1] <= left[k]
    requires forall k :: 0 <= k < |left| - 1 && held[k] ==> held[k + 1] || left[k + 1] < left[k]
    ensures left[n] <= left[0] && (held[n] || left[n] < left[0])
  {
    if n > 0 {
      HeldOrSpent(left, held, n - 1);
      assert left[n - 1 + 1] <= left[n - 1];
      assert held[n - 1] ==> held[n - 1 + 1] || left[n - 1 + 1] < left[n - 1];
    }
  }

  lemma {:induction false} NoFanOutAlong(c: Config, states: seq<State>, steps: seq<Step>, i: nat)
    requires Run(c, states, steps) && Reachable(c, states[0]) && AllQuiet(steps) && NoFanOut(states[0]) && i <= |steps|
    ensures NoFanOut(states[i])
  {
    if i > 0 {
      NoFanOutAlong(c, states, steps, i - 1);
      ReachableAlong(c, states, steps, i - 1);
      StepSpends(c, states[i - 1], steps[i - 1], states[i], 0);
    }
  }

  lemma SpendsOn(c: Config, states: seq<State>, steps: seq<Step>, k: nat, x: Id)
    requires Run(c, states, steps) && Reachable(c, states[0]) && AllQuiet(steps) && NoFanOut(states[0]) && k < |steps|
    ensures AttemptsLeft(c, states[k + 1]) <= AttemptsLeft(c, states[k])
    ensures x in states[k].locks ==>
              x in states[k + 1].locks || AttemptsLeft(c, states[k + 1]) < AttemptsLeft(c, states[k])
  {
    ReachableAlong(c, states, steps, k);
    NoFanOutAlong(c, states, steps, k);
    StepSpends(c, states[k], steps[k], states[k + 1], x);
  }

  /** By the time the row is unlocked an attempt has been spent. */
  lemma LockedIsSpent(c: Config, states: seq<State>, steps: seq<Step>, x: Id)
    requires Run(c, states, steps) && Reachable(c, states[0]) && AllQuiet(steps) && NoFanOut(states[0])
    requires x in states[0].locks && x !in states[|steps|].locks
    ensures AttemptsLeft(c, states[|steps|]) < AttemptsLeft(c, states[0])
  {
    ghost var left := seq(|states|, k requires 0 <= k < |states| => AttemptsLeft(c, states[k]));
    var held := seq(|states|, k requires 0 <= k < |states| => x in states[k].locks);
    forall k | 0 <= k < |left| - 1
      ensures left[k + 1] <= left[k] && (held[k] ==> held[k + 1] || left[k + 1] < left[k])
    {
      SpendsOn(c, states, steps, k, x);
    }
    HeldOrSpent(left, held, |steps|);
  }

  // ----- one recovery request -----

  /** A run of healing steps, in time, leads from `a` to `b`; delivery `d` hears only the receiver. */
  ghost predicate HealsTo(c: Config, lag: Time, a: State, b: State, d: Id, settings: Receiver.Settings) {
    && (exists states, steps :: Heals(c, lag, states, steps, a, b))
    && b.endpoints == a.endpoints && (Serves(a, d, settings) ==> Serves(b, d, settings))
  }

  ghost predicate Heals(c: Config, lag: Time, states: seq<State>, steps: seq<Step>, a: State, b: State) {
    PromptRun(c, lag, states, steps) && AllHealing(steps) && states[0] == a && states[|steps|] == b
  }

  /** One more step that commits nothing and lets no one hear an answer. */
  lemma HealsThen(c: Config, lag: Time, a: State, b: State, step: Step, b': State, d: Id, settings: Receiver.Settings)
    requires HealsTo(c, lag, a, b, d, settings) && Next(c, b, step, b') && Healing(step)
    requires !(step.Task? && step.act.Commit?) && b'.endpoints == b.endpoints
    requires Serves(b, d, settings) ==> Serves(b', d, settings)
    ensures HealsTo(c, lag, a, b', d, settings)
  {
    var states, steps :| Heals(c, lag, states, steps, a, b);
    Append(c, lag, states, steps, step, b');
    assert Heals(c, lag, states + [b'], steps + [step], a, b');
  }

  lemma HealsHere(c: Config, lag: Time, a: State, d: Id, settings: Receiver.Settings)
    ensures HealsTo(c, lag, a, a, d, settings)
  {
    assert Heals(c, lag, [a], [], a, a);
  }

  lemma HealsOn(c: Config, lag: Time, a: State, b: State, b': State, d: Id, settings: Receiver.Settings)
    requires HealsTo(c, lag, a, b, d, settings) && HealsTo(c, lag, b, b', d, settings)
    ensures HealsTo(c, lag, a, b', d, settings)
  {
    var states1, steps1 :| Heals(c, lag, states1, steps1, a, b);
    var states2, steps2 :| Heals(c, lag, states2, steps2, b, b');
    Glue(c, lag, states1, steps1, states2, steps2);
    assert Heals(c, lag, states1 + states2[1..], steps1 + steps2, a, b');
  }

  predicate Unwritten(s: State, s': State) {
    s'.rows == s.rows && s'.hist == s.hist && s'.locks == s.locks && s'.endpoints == s.endpoints
  }

  lemma WaitUntil(c: Config, lag: Time, s: State, due: Time, d: Id, settings: Receiver.Settings) returns (s': State)
    ensures HealsTo(c, lag, s, s', d, settings) && Unwritten(s, s') && s'.msgs == s.msgs && s'.now >= due
  {
    var to := if s.now < due then due else s.now;
    HealsHere(c, lag, s, d, settings);
    s' := SetClock(s, to);
    HealsThen(c, lag, s, s, Tick(to), s', d, settings);
  }

  lemma Beats(c: Config, lag: Time, a: State, s: State, d: Id, settings: Receiver.Settings) returns (s': State)
    requires HealsTo(c, lag, a, s, d, settings) && AtRest(s)
    ensures HealsTo(c, lag, a, s', d, settings) && Unwritten(s, s') && s'.now == s.now
    ensures s'.msgs == map[0 := Envelope(Recover, Queued)]
  {
    s' := Enqueue(s, 0, Recover);
    HealsThen(c, lag, a, s, Beat(0), s', d, settings);
  }

  lemma Starts(c: Config, lag: Time, a: State, s: State, m: Id, d: Id, settings: Receiver.Settings) returns (s': State)
    requires HealsTo(c, lag, a, s, d, settings) && m in s.msgs && s.msgs[m].phase.Queued?
    requires s.msgs[m].body.Deliver? ==> s.msgs[m].body.eta <= s.now
    ensures HealsTo(c, lag, a, s', d, settings) && Unwritten(s, s') && s'.now == s.now
    ensures s'.msgs == s.msgs[m := Envelope(s.msgs[m].body, Received)]
  {
    s' := SetPhase(s, m, Received);
    HealsThen(c, lag, a, s, Task(m, Start), s', d, settings);
  }

  /** At rest, a row `x0` with a retry time: time passes until it is due, and recovery is asked. */
  lemma AskWhenDue(c: Config, lag: Time, s: State, x0: Id, d: Id, settings: Receiver.Settings) returns (s': State)
    requires AtRest(s) && x0 in s.rows && s.rows[x0].status == Pending && s.rows[x0].nextRetry.Some?
    ensures HealsTo(c, lag, s, s', d, settings) && s'.msgs == map[0 := Envelope(Recover, Received)]
    ensures Unwritten(s, s') && Stuck(s.rows[x0], s'.now)
  {
    var s1 := WaitUntil(c, lag, s, s.rows[x0].nextRetry.value, d, settings);
    var s2 := Beats(c, lag, s, s1, d, settings);
    s' := Starts(c, lag, s, s2, 0, d, settings);
  }

  /** Recovery is about to send for row `x`, which is due. */
  ghost predicate Rescanned(s: State, x: Id) {
    && s.msgs.Keys == {0} && s.msgs[0].body == Recover && s.msgs[0].phase.Sending? && s.msgs[0].phase.todo != []
    && x in s.rows && s.msgs[0].phase.todo[0] == (x, s.rows[x].tenant) && Stuck(s.rows[x], s.now)
  }

  /** The scan of a state with a due row picks something, if it may. */
  lemma ScanFinds(c: Config, s: State, x0: Id) returns (picked: seq<Id>)
    requires c.batch >= 1 && x0 in s.rows && Stuck(s.rows[x0], s.now)
    ensures IsScan(s.rows, s.now, c.batch, picked) && picked != []
  {
    picked := First(DueFirst(s.rows, s.now), c.batch);
    FirstIsScan(s.rows, s.now, c.batch);
    assert x0 in picked || |picked| == c.batch;
  }

  lemma Rescan(c: Config, lag: Time, a: State, s: State, x0: Id, d: Id, settings: Receiver.Settings)
    returns (s': State, x: Id)
    requires HealsTo(c, lag, a, s, d, settings) && s.msgs == map[0 := Envelope(Recover, Received)]
    requires c.batch >= 1 && x0 in s.rows && Stuck(s.rows[x0], s.now)
    ensures HealsTo(c, lag, a, s', d, settings) && Unwritten(s, s') && Rescanned(s', x)
  {
    var picked := ScanFinds(c, s, x0);
    x := picked[0];
    s' := SetPhase(s, 0, Sending(WithTenants(s.rows, picked)));
    HealsThen(c, lag, a, s, Task(0, Scan(picked)), s', d, settings);
  }

  lemma Sends(c: Config, lag: Time, a: State, s: State, x: Id, d: Id, settings: Receiver.Settings)
    returns (s': State)
    requires HealsTo(c, lag, a, s, d, settings) && Rescanned(s, x)
    ensures HealsTo(c, lag, a, s', d, settings) && Unwritten(s, s') && s'.now == s.now
    ensures s'.msgs.Keys == {0, 1} && s'.msgs[0].phase.Sending? && s'.msgs[0].body == Recover
    ensures s'.msgs[1] == Envelope(Deliver(x, s.rows[x].tenant, s.now), Queued)
  {
    s' := SendNext(s, 0, 1);
    HealsThen(c, lag, a, s, Task(0, Send(1)), s', d, settings);
  }

  lemma Claims(c: Config, lag: Time, a: State, s: State, m: Id, x: Id, d: Id, settings: Receiver.Settings)
    returns (s': State)
    requires HealsTo(c, lag, a, s, d, settings) && m in s.msgs && s.msgs[m].phase.Received? && s.msgs[m].body.Deliver?
    requires s.msgs[m].body.delivery == x && CanClaim(s, x, s.msgs[m].body.tenant)
    ensures HealsTo(c, lag, a, s', d, settings) && s'.rows == s.rows && x in s'.locks
    ensures s'.msgs == s.msgs[m := Envelope(s.msgs[m].body, Claimed(s.rows[x]))]
  {
    s' := ClaimRow(s, m);
    if Serves(s, d, settings) {
      var h := if d in s.hist then s.hist[d] else [];
      LoopGoesOn(settings, h, Lifecycle.Took(m, s.now));
    }
    HealsThen(c, lag, a, s, Task(m, Claim), s', d, settings);
  }

  /** The message is sent, and its execution claims the row. */
  lemma PickUp(c: Config, lag: Time, a: State, s: State, x: Id, d: Id, settings: Receiver.Settings)
    returns (s': State)
    requires HealsTo(c, lag, a, s, d, settings) && Rescanned(s, x) && x !in s.locks
    ensures HealsTo(c, lag, a, s', d, settings)
    ensures s'.rows == s.rows && x in s'.locks && NoFanOut(s') && Punctual(s', lag)
  {
    var s1 := Sends(c, lag, a, s, x, d, settings);
    var s2 := Starts(c, lag, a, s1, 1, d, settings);
    s' := Claims(c, lag, a, s2, 1, x, d, settings);
  }

  lemma HealsIsReachable(c: Config, lag: Time, a: State, b: State, d: Id, settings: Receiver.Settings)
    requires HealsTo(c, lag, a, b, d, settings) && Reachable(c, a)
    ensures Reachable(c, b)
  {
    var states, steps :| Heals(c, lag, states, steps, a, b);
    ReachableAlong(c, states, steps, |steps|);
  }

  /** From any state in which every retry commit is in time, the workers finish all there is to do. */
  lemma FinishHeals(c: Config, lag: Time, s: State, d: Id, settings: Receiver.Settings) returns (s': State)
    requires lag >= 0 && Reachable(c, s) && Punctual(s, lag)
    ensures HealsTo(c, lag, s, s', d, settings) && AtRest(s')
    ensures NoFanOut(s) && (exists x :: x in s.locks) ==> AttemptsLeft(c, s') < AttemptsLeft(c, s)
  {
    var states, steps := Finish(c, lag, s, d, settings);
    s' := states[|steps|];
    assert Heals(c, lag, states, steps, s, s');
    if NoFanOut(s) && exists x :: x in s.locks {
      var x :| x in s.locks;
      ReachableAlong(c, states, steps, |steps|);
      ReachableBase(c, s');
      NoneLocked(c, s', x);
      LockedIsSpent(c, states, steps, x);
    }
  }

  /** One recovery request, and what follows from it, spends at least one attempt. */
  lemma Round(c: Config, lag: Time, s: State, x0: Id, d: Id, settings: Receiver.Settings) returns (s': State)
    requires lag >= 0 && Reachable(c, s) && AtRest(s) && c.batch >= 1
    requires x0 in s.rows && s.rows[x0].status == Pending && s.rows[x0].nextRetry.Some?
    ensures HealsTo(c, lag, s, s', d, settings) && AtRest(s') && AttemptsLeft(c, s') < AttemptsLeft(c, s)
  {
    var s1 := AskWhenDue(c, lag, s, x0, d, settings);
    var s2, x := Rescan(c, lag, s, s1, x0, d, settings);
    ReachableBase(c, s);
    NoneLocked(c, s, x);
    var s3 := PickUp(c, lag, s, s2, x, d, settings);
    HealsIsReachable(c, lag, s, s3, d, settings);
    s' := FinishHeals(c, lag, s3, d, settings);
    HealsOn(c, lag, s, s3, s', d, settings);
  }

  /** Only what is adrift is still pending. */
  ghost predicate Healed(s: State) {
    forall d :: d in s.rows && s.rows[d].status == Pending ==> Adrift(s, d)
  }

  lemma {:induction false} HealAtRest(c: Config, lag: Time, s: State, d: Id, settings: Receiver.Settings)
    returns (s': State)
    requires lag >= 0 && Reachable(c, s) && AtRest(s) && c.batch >= 1
    ensures HealsTo(c, lag, s, s', d, settings) && AtRest(s') && Healed(s')
    decreases AttemptsLeft(c, s)
  {
    if x0 :| x0 in s.rows && s.rows[x0].status == Pending && !Adrift(s, x0) {
      QuietPending(c, s, x0);
      var s1 := Round(c, lag, s, x0, d, settings);
      HealsIsReachable(c, lag, s, s1, d, settings);
      s' := HealAtRest(c, lag, s1, d, settings);
      HealsOn(c, lag, s, s1, s', d, settings);
    } else {
      s' := s;
      HealsHere(c, lag, s, d, settings);
    }
  }

  // ----- from any state -----

  lemma LongEnough(s: State, ms: set<Id>) returns (lag: Time)
    requires forall m :: m in ms ==> m in s.msgs
    ensures lag >= 0 && forall m :: m in ms ==> InTime(s.msgs[m].phase, s.now, lag)
  {
    lag := 0;
    if ms != {} {
      SomeMember(ms);
      var m :| m in ms;
      var rest := LongEnough(s, ms - {m});
      var p := s.msgs[m].phase;
      var own := if p.Answered? then s.now - p.at else if p.Staged? && p.cause.Replied? then s.now - p.cause.at else 0;
      lag := if rest < own then own else rest;
      assert forall x :: x in ms ==> x == m || x in ms - {m};
    }
  }

  /** Every commit there is can still be made within some time. */
  lemma SomeLag(s: State) returns (lag: Time)
    ensures lag >= 0 && Punctual(s, lag)
  {
    lag := LongEnough(s, s.msgs.Keys);
  }

  /** Recovery heals: the run goes on, with nothing new but recovery requests, until all have ended. */
  lemma Heal(c: Config, s: State, d: Id, settings: Receiver.Settings) returns (lag: Time, s': State)
    requires Reachable(c, s) && c.batch >= 1
    ensures HealsTo(c, lag, s, s', d, settings) && AtRest(s') && Healed(s')
  {
    lag := SomeLag(s);
    var s1 := FinishHeals(c, lag, s, d, settings);
    HealsIsReachable(c, lag, s, s1, d, settings);
    s' := HealAtRest(c, lag, s1, d, settings);
    HealsOn(c, lag, s, s1, s', d, settings);
  }

  // ----- and what is adrift cannot be healed -----

  /** A row that has not been announced is as it was inserted. */
  ghost predicate UnannouncedPend(s: State) {
    forall d :: d in s.rows && d !in s.released ==> s.rows[d].status == Pending
  }

  lemma StepUnannounced(c: Config, s: State, step: Step, s': State)
    requires Base(c, s) && Known(s) && UnannouncedPend(s) && Next(c, s, step, s')
    ensures UnannouncedPend(s')
  {
    forall d | d in s'.rows && d !in s'.released ensures s'.rows[d].status == Pending {
      NotYetAnnounced(c, s, step, s');
      if d in s.rows {
        KeptOrReleased(c, s, step, s', d);
      } else {
        Inserted(c, s, step, s', d);
      }
    }
  }

  lemma NotYetAnnounced(c: Config, s: State, step: Step, s': State)
    requires Next(c, s, step, s')
    ensures s.released <= s'.released
  {
    if !step.Task? {
      StepAside(c, s, step, s');
    } else if !step.act.Send? {
      ReleasedStays(c, s, step.m, step.act, s');
    }
  }

  lemma KeptOrReleased(c: Config, s: State, step: Step, s': State, d: Id)
    requires Base(c, s) && Known(s) && Next(c, s, step, s') && d in s.rows && d !in s.released
    ensures d in s'.rows && s'.rows[d] == s.rows[d]
  {
    if step.Task? {
      assert MessageOk(c, s, step.m);
      ActUntouched(c, s, step.m, step.act, s', d);
    } else {
      StepAside(c, s, step, s');
    }
  }

  lemma Inserted(c: Config, s: State, step: Step, s': State, d: Id)
    requires Base(c, s) && Next(c, s, step, s') && d !in s.rows && d in s'.rows
    ensures s'.rows[d].status == Pending
  {
    assert step.Task? ==> MessageOk(c, s, step.m);
    if step.Task? && step.act.Expand? {
      Grows(s, step.m, step.act.ids, step.act.created);
      assert d in step.act.ids;
    } else if !(step.Task? && step.act.Commit?) {
      SameRows(c, s, step, s');
    }
  }

  lemma {:induction false} UnannouncedAlways(c: Config, states: seq<State>, steps: seq<Step>, t: Time, i: nat)
    requires Run(c, states, steps) && states[0] == Init(t) && i <= |steps|
    ensures UnannouncedPend(states[i])
  {
    if i > 0 {
      UnannouncedAlways(c, states, steps, t, i - 1);
      UnreleasedAlways(c, states, steps, t, i - 1);
      AlwaysKnown(c, states, steps, t, i - 1);
      StepUnannounced(c, states[i - 1], steps[i - 1], states[i]);
    }
  }

  /** An adrift row is still pending at the end of every run that goes on from there. */
  lemma AdriftStaysPending(c: Config, states: seq<State>, steps: seq<Step>, d: Id)
    requires Run(c, states, steps) && Reachable(c, states[0]) && Adrift(states[0], d)
    ensures d in states[|steps|].rows && states[|steps|].rows[d].status == Pending
  {
    var t, before, steps0 :| Run(c, before, steps0) && before[0] == Init(t) && before[|steps0|] == states[0];
    Join(c, before, steps0, states, steps);
    var all, allSteps := before + states[1..], steps0 + steps;
    StrandedForever(c, all, allSteps, t, |steps0|, |allSteps|, d);
    UnannouncedAlways(c, all, allSteps, t, |steps0|);
  }

  /**
   From any reachable state, however late its commits, the run can go on, with nothing new coming in
   but recovery requests, to an empty queue; the deliveries pending there are exactly those that were
   adrift at the start.
   */
  lemma RecoveryHeals(c: Config, s: State) returns (states: seq<State>, steps: seq<Step>)
    requires Reachable(c, s) && c.batch >= 1
    ensures Run(c, states, steps) && AllHealing(steps) && states[0] == s
    ensures var e := states[|steps|];
            e.msgs == map[] && forall d :: d in e.rows && e.rows[d].status == Pending <==> Adrift(s, d)
  {
    var lag, e := Heal(c, s, 0, Receiver.DEFAULTS);
    states, steps :| Heals(c, lag, states, steps, s, e);
    forall d | d in e.rows && e.rows[d].status == Pending ensures Adrift(s, d) {
      NoneGetsAdrift(c, states, steps, d);
    }
    forall d | Adrift(s, d) ensures d in e.rows && e.rows[d].status == Pending {
      AdriftStaysPending(c, states, steps, d);
    }
  }

  ghost predicate NonePending(s: State) {
    forall d :: d in s.rows ==> s.rows[d].status != Pending
  }

  /** Some continuation of the run, of any steps whatever, ends with no pending delivery. */
  ghost predicate CanEnd(c: Config, s: State) {
    exists states, steps :: Run(c, states, steps) && states[0] == s && NonePending(states[|steps|])
  }

  /** So all deliveries can be brought to an end if and only if none is adrift. */
  lemma HealsIff(c: Config, s: State)
    requires Reachable(c, s) && c.batch >= 1
    ensures CanEnd(c, s) <==> forall d :: !Adrift(s, d)
  {
    if forall d :: !Adrift(s, d) {
      var states, steps := RecoveryHeals(c, s);
      assert NonePending(states[|steps|]);
    }
    forall d, states, steps | Run(c, states, steps) && states[0] == s && Adrift(s, d)
      ensures !NonePending(states[|steps|])
    {
      AdriftStaysPending(c, states, steps, d);
    }
  }
}
