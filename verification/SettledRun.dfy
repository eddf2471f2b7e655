/** Runs in which the receiver's own answers take a delivery to its end, as configured. */
module SettledRun {
  import opened Types
  import opened Lifecycle
  import opened Protocol
  import opened Invariant
  import opened Ownership
  import opened Coverage
  import opened Recovery
  import opened AtMostOnce
  import opened StalledCommit
  import opened BoundedWork
  import opened Rest
  import opened ClosedLoop
  import opened Stranded
  import opened RunToRest
  import opened Healing

  /** Delivery `d` may go on: nothing died working on it, its endpoint is there, the receiver answered it. */
  predicate Playing(s: State, d: Id, settings: Receiver.Settings) {
    && d in s.rows && d in s.hist && CrashFree(s.hist[d]) && Loop(settings, s.hist[d])
    && s.rows[d].endpoint in s.endpoints && s.endpoints[s.rows[d].endpoint].active
  }

  /** Delivery `d`, answered by the receiver alone, has ended as a receiver told to fail `n` times has it. */
  predicate Played(c: Config, s: State, d: Id, settings: Receiver.Settings, n: int) {
    && d in s.rows && d in s.hist && CrashFree(s.hist[d]) && Loop(settings, s.hist[d])
    && var r := s.rows[d]; var k := Failures(n);
       if k <= |c.delays| then r.status == Success && r.attempts == k + 1
       else r.status == Exhausted && r.attempts == |c.delays| + 1
  }

  lemma {:induction false} StaysCrashFree(c: Config, states: seq<State>, steps: seq<Step>, d: Id, i: nat)
    requires Run(c, states, steps) && AllHealing(steps) && Base(c, states[0]) && i <= |steps|
    requires d in states[0].rows && d in states[0].hist && CrashFree(states[0].hist[d])
    ensures d in states[i].rows && d in states[i].hist && CrashFree(states[i].hist[d])
    ensures states[i].rows[d].endpoint == states[0].rows[d].endpoint
  {
    if i > 0 {
      StaysCrashFree(c, states, steps, d, i - 1);
      BaseAlways(c, states, steps, i - 1);
      CrashFreeOn(c, states[i - 1], steps[i - 1], states[i], d);
    }
  }

  lemma CrashFreeOn(c: Config, s: State, step: Step, s': State, d: Id)
    requires Base(c, s) && Next(c, s, step, s') && Healing.Healing(step)
    requires d in s.rows && d in s.hist && CrashFree(s.hist[d])
    ensures d in s'.rows && d in s'.hist && CrashFree(s'.hist[d]) && s'.rows[d].endpoint == s.rows[d].endpoint
  {
    RowsByStep(c, s, step, s', d);
    StepCrashFree(c, s, step, s', d);
  }

  /** A delivery that was playing and is no longer pending has ended as configured. */
  lemma EndedAsConfigured(c: Config, states: seq<State>, steps: seq<Step>, d: Id, settings: Receiver.Settings, n: int)
    requires Run(c, states, steps) && AllHealing(steps) && Reachable(c, states[0]) && Playing(states[0], d, settings)
    requires FailsThenAccepts(settings, n)
    requires var e := states[|steps|];
             && e.endpoints == states[0].endpoints && Serves(e, d, settings)
             && (d in e.rows ==> e.rows[d].status != Pending)
    ensures Played(c, states[|steps|], d, settings, n)
  {
    var e := states[|steps|];
    ReachableBase(c, states[0]);
    StaysCrashFree(c, states, steps, d, |steps|);
    ReachableAlong(c, states, steps, |steps|);
    ReachableOwned(c, e);
    assert RowOwned(e, e.rows[d]);
    EndsAsConfigured(c, e, d, settings, n);
  }

  /**
   The closed loop ends: from any reachable state, however late its commits, a delivery that is not
   adrift can be taken to its end by the receiver's answers, with nothing new coming in but recovery
   requests; it succeeds on attempt n+1 if n <= len(delays), and is exhausted otherwise.
   */
  lemma SettlesInSomeRun(c: Config, s: State, d: Id, settings: Receiver.Settings, n: int)
    returns (states: seq<State>, steps: seq<Step>)
    requires Reachable(c, s) && c.batch >= 1 && Playing(s, d, settings) && !Adrift(s, d)
    requires FailsThenAccepts(settings, n)
    ensures Run(c, states, steps) && AllHealing(steps) && states[0] == s
    ensures states[|steps|].msgs == map[] && Played(c, states[|steps|], d, settings, n)
  {
    var lag, e := Heal(c, s, d, settings);
    states, steps :| Heals(c, lag, states, steps, s, e);
    if Adrift(e, d) {
      NoneGetsAdrift(c, states, steps, d);
    }
    EndedAsConfigured(c, states, steps, d, settings, n);
  }

  /** With prompt commits and no fan-out dead in its window no recovery request is needed. */
  lemma SettlesUnaided(c: Config, lag: Time, t: Time, states: seq<State>, steps: seq<Step>, d: Id,
                       settings: Receiver.Settings, n: int)
    returns (states': seq<State>, steps': seq<Step>)
    requires PromptRun(c, lag, states, steps) && GapFreeRun(c, states, steps) && states[0] == Init(t)
    requires lag >= 0 && LagBelowDelays(c, lag) && Punctual(states[|steps|], lag)
    requires Playing(states[|steps|], d, settings) && FailsThenAccepts(settings, n)
    ensures states <= states' && steps <= steps' && PromptRun(c, lag, states', steps') && AllQuiet(steps'[|steps|..])
    ensures states'[|steps'|].msgs == map[] && Played(c, states'[|steps'|], d, settings, n)
  {
    var s := states[|steps|];
    ReachablePrefix(c, states, steps, t, |steps|);
    var states2, steps2 := Finish(c, lag, s, d, settings);
    Glue(c, lag, states, steps, states2, steps2);
    states', steps' := states + states2[1..], steps + steps2;
    assert steps'[|steps|..] == steps2;
    PrefixGapFree(c, states, steps, states', steps');
    QuietIsGapFree(c, states', steps', |steps|);
    NothingLeft(c, lag, t, states', steps');
    EndedAsConfigured(c, states2, steps2, d, settings, n);
  }

  /** Every configuration is played to its end by some run from the empty system. */
  lemma EveryConfigurationEnds(c: Config, settings: Receiver.Settings, n: int) returns (s: State)
    requires c.batch >= 1 && settings.failNext == n && settings.failCount == 0 && !settings.hang
    requires 200 <= settings.status <= 299 && settings.delay < 10.0
    ensures Reachable(c, s) && Played(c, s, 0, settings, n) && 0 in s.rows
    ensures var r := s.rows[0];
            && r.attempts == (if n <= 0 then 1 else if n <= |c.delays| then n + 1 else |c.delays| + 1)
            && r.status == (if n <= |c.delays| then Success else Exhausted)
            && r.code == (if n <= |c.delays| then Some(settings.status) else Some(500))
  {
    var s0 := FirstDelivery(c, 0);
    var states0, steps0 :| PromptRun(c, 0, states0, steps0) && states0[0] == Init(0) && states0[|steps0|] == s0;
    assert Reachable(c, s0) && Loop(settings, []);
    var states, steps := SettlesInSomeRun(c, s0, 0, settings, n);
    ReachableAlong(c, states, steps, |steps|);
    s := states[|steps|];
    EndsAsConfigured(c, s, 0, settings, n);
  }
}
