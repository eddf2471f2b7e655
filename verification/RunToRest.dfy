/**
 Runs that reach rest. From any point of a run with prompt commits in which no fan-out died in its
 window and no retry commit is overdue, the workers can finish all there is to do, promptly, with
 nothing new coming in, within the stock of work. One delivery of choice can be answered by the test
 receiver on the way.
 */
module RunToRest {
  import opened Types
  import opened Lifecycle
  import opened Protocol
  import opened Invariant
  import opened Attempts
  import opened Coverage
  import opened Recovery
  import opened AtMostOnce
  import opened FiniteWork
  import opened BoundedWork
  import opened Rest
  import opened Stranded
  import opened ClosedLoop
  import opened Ownership
  import Receiver

  /** A retry that is still to commit can still do so in time. */
  predicate InTime(p: Phase, now: Time, lag: Time) {
    && (p.Answered? ==> now - p.at <= lag)
    && (p.Staged? && p.cause.Replied? && p.row.status == Pending ==> now - p.cause.at <= lag)
  }

  ghost predicate Punctual(s: State, lag: Time) {
    forall m :: m in s.msgs ==> InTime(s.msgs[m].phase, s.now, lag)
  }

  /** Acting at once keeps everyone in time. */
  lemma ActInTime(c: Config, lag: Time, s: State, m: Id, act: Act, s': State)
    requires lag >= 0 && Punctual(s, lag) && Acts(c, s, m, act, s') && !act.Crash?
    ensures Prompt(s, Task(m, act), lag) && Punctual(s', lag)
  {
    assert InTime(s.msgs[m].phase, s.now, lag);
    forall x | x in s'.msgs ensures InTime(s'.msgs[x].phase, s'.now, lag) {
      SameClock(c, s, m, act, s');
      if x == m {
        OwnInTime(c, lag, s, m, act, s');
      } else {
        TaskOthers(c, s, m, act, s', x);
      }
    }
  }

  lemma SameClock(c: Config, s: State, m: Id, act: Act, s': State)
    requires Acts(c, s, m, act, s')
    ensures s'.now == s.now
  {
    if !Visible(act) {
      TaskFrame(c, s, m, act, s');
    }
  }

  lemma OwnInTime(c: Config, lag: Time, s: State, m: Id, act: Act, s': State)
    requires lag >= 0 && m in s.msgs && InTime(s.msgs[m].phase, s.now, lag) && Acts(c, s, m, act, s') && !act.Crash?
    ensures m in s'.msgs ==> InTime(s'.msgs[m].phase, s.now, lag)
  {
  }

  /** Quiet and prompt steps that lead from one state to another. */
  ghost predicate Finishes(c: Config, lag: Time, states: seq<State>, steps: seq<Step>, s: State) {
    PromptRun(c, lag, states, steps) && AllQuiet(steps) && states[0] == s
  }

  lemma BusyAct(c: Config, s: State, m: Id) returns (act: Act, s': State)
    requires Reachable(c, s) && m in s.msgs && !s.msgs[m].phase.Queued?
    ensures !act.Crash? && Acts(c, s, m, act, s')
  {
    BusyCanAct(c, s, m);
    assert SetClock(s, s.now) == s;
    act, s' :| !act.Crash? && Acts(c, SetClock(s, s.now), m, act, s');
  }

  /** Someone being executed acts. */
  lemma BusyMove(c: Config, lag: Time, s: State, m: Id) returns (states: seq<State>, steps: seq<Step>)
    requires lag >= 0 && Reachable(c, s) && Punctual(s, lag) && m in s.msgs && !s.msgs[m].phase.Queued?
    ensures Finishes(c, lag, states, steps, s) && Punctual(states[|steps|], lag) && Work(steps) == 1
    ensures |steps| == 1 && steps[0].Task? && steps[0].m == m
  {
    var act, s' := BusyAct(c, s, m);
    ActInTime(c, lag, s, m, act, s');
    states, steps := [s, s'], [Task(m, act)];
    WorkOfOne(Task(m, act));
  }

  lemma WorkOfOne(step: Step)
    requires Acting(step)
    ensures Work([step]) == 1
  {
    assert [step][..0] == [];
  }

  lemma WorkOfTwo(tick: Step, step: Step)
    requires !Acting(tick) && Acting(step)
    ensures Work([tick, step]) == 1
  {
    var one, two := [tick], [tick, step];
    assert one[..|one| - 1] == [] && Work(one) == 0;
    assert two[..|two| - 1] == one;
  }

  /** If everyone waits, time passes and someone starts. */
  lemma IdleMove(c: Config, lag: Time, s: State, m: Id) returns (states: seq<State>, steps: seq<Step>)
    requires m in s.msgs && forall x :: x in s.msgs ==> s.msgs[x].phase.Queued?
    ensures Finishes(c, lag, states, steps, s) && Punctual(states[|steps|], lag) && Work(steps) == 1
    ensures states[|steps|].hist == s.hist && states[|steps|].endpoints == s.endpoints
  {
    var s1 := SetClock(s, StartTime(s, m));
    var s2 := SetPhase(s1, m, Received);
    states, steps := [s, s1, s2], [Tick(StartTime(s, m)), Task(m, Start)];
    assert Next(c, s, steps[0], s1) && Next(c, s1, steps[1], s2);
    assert Run(c, states, steps);
    WorkOfTwo(Tick(StartTime(s, m)), Task(m, Start));
    assert Punctual(s2, lag);
  }

  // ----- one delivery is answered by the receiver -----

  /** What delivery `d` has heard so far are the receiver's answers. */
  predicate Serves(s: State, d: Id, settings: Receiver.Settings) {
    d in s.hist ==> Loop(settings, s.hist[d])
  }

  /** Execution `m` waits for the answer to a POST for delivery `d`. */
  predicate Hearing(s: State, m: Id, d: Id) {
    m in s.msgs && s.msgs[m].body.Deliver? && s.msgs[m].body.delivery == d && s.msgs[m].phase.InFlight?
  }

  lemma LoopGoesOn(settings: Receiver.Settings, h: seq<Obs>, o: Obs)
    requires Loop(settings, h)
    requires o.Heard? ==> Posts(h) > 0 && o.answer == HeardAs(Receiver.Reply(settings, Posts(h) - 1))
    ensures Loop(settings, h + [o])
  {
    assert (h + [o])[..|h + [o]| - 1] == h;
  }

  /** Whatever else is done, the delivery hears nothing. */
  lemma OthersServe(c: Config, s: State, m: Id, act: Act, s': State, d: Id, settings: Receiver.Settings)
    requires Base(c, s) && Acts(c, s, m, act, s') && !(act.Hear? && Hearing(s, m, d)) && Serves(s, d, settings)
    ensures Serves(s', d, settings)
  {
    if act.Expand? {
      Grows(s, m, act.ids, act.created);
      assert Grown(s, s', m, act.ids, act.created);
      assert Loop(settings, []);
    } else if act.Claim? || act.Post? || act.Hear? || act.Commit? || act.Crash? {
      HearsNothing(c, s, m, act, s', d);
      if d in s.hist && s'.hist[d] != s.hist[d] {
        LoopGoesOn(settings, s.hist[d], s'.hist[d][|s.hist[d]|]);
      }
    } else {
      NoNews(c, s, m, act, s');
    }
  }

  lemma HearsNothing(c: Config, s: State, m: Id, act: Act, s': State, d: Id)
    requires Base(c, s) && Acts(c, s, m, act, s') && !(act.Hear? && Hearing(s, m, d))
    requires act.Claim? || act.Post? || act.Hear? || act.Commit? || act.Crash?
    ensures d in s'.hist ==> d in s.hist
    ensures d in s.hist ==> d in s'.hist
    ensures d in s.hist && s'.hist[d] != s.hist[d] ==>
              |s'.hist[d]| == |s.hist[d]| + 1 && s'.hist[d] == s.hist[d] + [s'.hist[d][|s.hist[d]|]]
              && !s'.hist[d][|s.hist[d]|].Heard?
  {
    assert MessageOk(c, s, m);
  }

  /** The answer the receiver gives to the latest POST for `d`. */
  function ReceiverAnswer(s: State, d: Id, settings: Receiver.Settings): Answer
    requires d in s.hist && Posts(s.hist[d]) > 0
  {
    HeardAs(Receiver.Reply(settings, Posts(s.hist[d]) - 1))
  }

  lemma WasPosted(c: Config, s: State, m: Id, d: Id)
    requires Reachable(c, s) && Hearing(s, m, d)
    ensures d in s.hist && Posts(s.hist[d]) > 0 && s.msgs[m].phase.row.attempts >= 1
  {
    ReachableBase(c, s);
    assert MessageOk(c, s, m) && Holds(s, m, d);
    PostAccounting(c, s, d);
  }

  /** The receiver answers. */
  lemma ReceiverMove(c: Config, lag: Time, s: State, m: Id, d: Id, settings: Receiver.Settings)
    returns (states: seq<State>, steps: seq<Step>)
    requires lag >= 0 && Reachable(c, s) && Punctual(s, lag) && Hearing(s, m, d)
    ensures MovesOn(c, lag, states, steps, s, d, settings)
  {
    WasPosted(c, s, m, d);
    var act := Hear(ReceiverAnswer(s, d, settings));
    var s' := TakeAnswer(c, s, m, act.answer);
    ActInTime(c, lag, s, m, act, s');
    states, steps := [s, s'], [Task(m, act)];
    WorkOfOne(Task(m, act));
    if Serves(s, d, settings) {
      LoopGoesOn(settings, s.hist[d], Heard(m, s.now, act.answer));
    }
  }

  /** One worker action, in time, at which delivery `d` hears nothing but the receiver. */
  ghost predicate MovesOn(c: Config, lag: Time, states: seq<State>, steps: seq<Step>, s: State, d: Id,
                         settings: Receiver.Settings)
  {
    && Finishes(c, lag, states, steps, s) && Punctual(states[|steps|], lag) && Work(steps) == 1
    && states[|steps|].endpoints == s.endpoints
    && (Serves(s, d, settings) ==> Serves(states[|steps|], d, settings))
  }

  lemma OneMove(c: Config, lag: Time, s: State, d: Id, settings: Receiver.Settings)
    returns (states: seq<State>, steps: seq<Step>)
    requires lag >= 0 && Reachable(c, s) && Punctual(s, lag) && exists m :: m in s.msgs
    ensures MovesOn(c, lag, states, steps, s, d, settings)
  {
    if m :| Hearing(s, m, d) {
      states, steps := ReceiverMove(c, lag, s, m, d, settings);
    } else if m :| m in s.msgs && !s.msgs[m].phase.Queued? {
      states, steps := BusyMove(c, lag, s, m);
      ReachableBase(c, s);
      assert Next(c, s, steps[0], states[1]);
      TaskSameApi(c, s, m, steps[0].act, states[1]);
      if Serves(s, d, settings) {
        OthersServe(c, s, m, steps[0].act, states[1], d, settings);
      }
    } else {
      var m :| m in s.msgs;
      states, steps := IdleMove(c, lag, s, m);
    }
  }

  /** Where two runs are joined at a common state, each step stands between the states it stood between. */
  lemma JoinedAt(states1: seq<State>, steps1: seq<Step>, states2: seq<State>, steps2: seq<Step>, i: nat)
    requires |states1| == |steps1| + 1 && |states2| == |steps2| + 1 && states1[|steps1|] == states2[0]
    requires i < |steps1| + |steps2|
    ensures var states, steps, n := states1 + states2[1..], steps1 + steps2, |steps1|;
            if i < n then steps[i] == steps1[i] && states[i] == states1[i] && states[i + 1] == states1[i + 1]
            else steps[i] == steps2[i - n] && states[i] == states2[i - n] && states[i + 1] == states2[i - n + 1]
  {
  }

  /** A run goes on where another one ends. */
  lemma Join(c: Config, states1: seq<State>, steps1: seq<Step>, states2: seq<State>, steps2: seq<Step>)
    requires Run(c, states1, steps1) && Run(c, states2, steps2) && states1[|steps1|] == states2[0]
    ensures Run(c, states1 + states2[1..], steps1 + steps2)
    ensures (states1 + states2[1..])[|steps1 + steps2|] == states2[|steps2|]
  {
    var states, steps := states1 + states2[1..], steps1 + steps2;
    forall i | 0 <= i < |steps| ensures Next(c, states[i], steps[i], states[i + 1]) {
      JoinedAt(states1, steps1, states2, steps2, i);
    }
  }

  lemma Glue(c: Config, lag: Time, states1: seq<State>, steps1: seq<Step>, states2: seq<State>, steps2: seq<Step>)
    requires PromptRun(c, lag, states1, steps1) && PromptRun(c, lag, states2, steps2) && states1[|steps1|] == states2[0]
    ensures PromptRun(c, lag, states1 + states2[1..], steps1 + steps2)
    ensures (states1 + states2[1..])[|steps1 + steps2|] == states2[|steps2|]
  {
    var states, steps := states1 + states2[1..], steps1 + steps2;
    Join(c, states1, steps1, states2, steps2);
    forall i {:trigger steps[i]} | 0 <= i < |steps| ensures Prompt(states[i], steps[i], lag) {
      JoinedAt(states1, steps1, states2, steps2, i);
    }
  }

  /** As long as there is stock there is a next move; without messages there is none to make. */
  lemma {:induction false} Finish(c: Config, lag: Time, s: State, d: Id, settings: Receiver.Settings)
    returns (states: seq<State>, steps: seq<Step>)
    requires lag >= 0 && Reachable(c, s) && Punctual(s, lag)
    ensures Finishes(c, lag, states, steps, s) && states[|steps|].msgs == map[]
    ensures states[|steps|].endpoints == s.endpoints
    ensures Serves(s, d, settings) ==> Serves(states[|steps|], d, settings)
    decreases Stock(c, s)
  {
    if exists m :: m in s.msgs {
      var states1, steps1 := OneMove(c, lag, s, d, settings);
      QuietWorkBounded(c, states1, steps1);
      WorkBounded(c, states1, steps1);
      var states2, steps2 := Finish(c, lag, states1[|steps1|], d, settings);
      Glue(c, lag, states1, steps1, states2, steps2);
      states, steps := states1 + states2[1..], steps1 + steps2;
    } else {
      states, steps := [s], [];
    }
  }

  lemma QuietIsGapFree(c: Config, states: seq<State>, steps: seq<Step>, n: nat)
    requires Run(c, states, steps) && n <= |steps| && AllQuiet(steps[n..])
    requires forall i {:trigger steps[i]} :: 0 <= i < n ==> !Gap(states[i], steps[i])
    ensures GapFreeRun(c, states, steps)
  {
    forall i {:trigger steps[i]} | 0 <= i < |steps| ensures !Gap(states[i], steps[i]) {
      if i >= n {
        assert steps[n..][i - n] == steps[i];
      }
    }
  }

  /**
   Rest is reached: such a run can be continued, with prompt commits and nothing new coming in, by at
   most `Stock` worker actions to a state with an empty queue and no pending delivery.
   */
  lemma RestIsReached(c: Config, lag: Time, t: Time, states: seq<State>, steps: seq<Step>)
    returns (states': seq<State>, steps': seq<Step>)
    requires PromptRun(c, lag, states, steps) && GapFreeRun(c, states, steps) && states[0] == Init(t)
    requires lag >= 0 && LagBelowDelays(c, lag) && Punctual(states[|steps|], lag)
    ensures states <= states' && steps <= steps' && PromptRun(c, lag, states', steps')
    ensures AllQuiet(steps'[|steps|..]) && Work(steps'[|steps|..]) <= Stock(c, states[|steps|])
    ensures var s := states'[|steps'|]; s.msgs == map[] && forall d :: d in s.rows ==> s.rows[d].status != Pending
  {
    var s := states[|steps|];
    ReachablePrefix(c, states, steps, t, |steps|);
    var states2, steps2 := Finish(c, lag, s, 0, Receiver.DEFAULTS);
    QuietWorkBounded(c, states2, steps2);
    Glue(c, lag, states, steps, states2, steps2);
    states', steps' := states + states2[1..], steps + steps2;
    assert steps'[|steps|..] == steps2;
    PrefixGapFree(c, states, steps, states', steps');
    QuietIsGapFree(c, states', steps', |steps|);
    NothingLeft(c, lag, t, states', steps');
  }

  lemma PrefixGapFree(c: Config, states: seq<State>, steps: seq<Step>, states': seq<State>, steps': seq<Step>)
    requires GapFreeRun(c, states, steps) && states <= states' && steps <= steps'
    ensures forall i {:trigger steps'[i]} :: 0 <= i < |steps| ==> !Gap(states'[i], steps'[i])
  {
    forall i {:trigger steps'[i]} | 0 <= i < |steps| ensures !Gap(states'[i], steps'[i]) {
      assert steps'[i] == steps[i] && states'[i] == states[i];
    }
  }
}
