/** Deliveries lost for good: a fan-out dies between its commit and its last dispatch. */
module Stranded {
  import opened Types
  import opened Protocol
  import opened Invariant
  import opened Ownership
  import opened Coverage
  import opened Recovery
  import opened AtMostOnce
  import opened StalledCommit
  import opened FiniteWork
  import opened Rest

  /** Row `d` is committed, was never announced, and no fan-out is about to announce it. */
  ghost predicate Adrift(s: State, d: Id) {
    d in s.rows && !Announced(s, d)
  }

  /** Recovery only ever sends for rows that have been announced. */
  predicate RescansKnown(s: State, m: Id)
    requires m in s.msgs
  {
    s.msgs[m].body.Recover? && s.msgs[m].phase.Sending? ==> forall t :: t in s.msgs[m].phase.todo ==> t.0 in s.released
  }

  ghost predicate AllRescansKnown(s: State) {
    forall m :: m in s.msgs ==> RescansKnown(s, m)
  }

  ghost predicate Known(s: State) {
    Unreleased(s) && AllRescansKnown(s)
  }

  // ----- adrift means adrift for ever -----

  lemma ScanKnown(c: Config, s: State, m: Id, picked: seq<Id>)
    requires Unreleased(s) && IsScan(s.rows, s.now, c.batch, picked)
    ensures forall t :: t in WithTenants(s.rows, picked) ==> t.0 in s.released
  {
    forall t | t in WithTenants(s.rows, picked) ensures t.0 in s.released {
      var i :| 0 <= i < |picked| && WithTenants(s.rows, picked)[i] == t;
    }
  }

  lemma ActKnown(c: Config, s: State, m: Id, act: Act, s': State)
    requires Known(s) && Acts(c, s, m, act, s') && m in s'.msgs
    ensures RescansKnown(s', m)
  {
    assert RescansKnown(s, m);
    if act.Scan? {
      ScanKnown(c, s, m, act.picked);
    }
  }

  lemma StepKnown(c: Config, s: State, step: Step, s': State)
    requires Known(s) && Next(c, s, step, s')
    ensures AllRescansKnown(s')
  {
    forall m | m in s'.msgs ensures RescansKnown(s', m) {
      if m in s.msgs {
        assert RescansKnown(s, m);
      }
      if step.Task? && m == step.m {
        ActKnown(c, s, m, step.act, s');
      } else {
        OthersKept(c, s, step, s', m);
      }
    }
  }

  /** A message not being executed by the step stays as it is; a new one is queued. */
  lemma OthersKept(c: Config, s: State, step: Step, s': State, x: Id)
    requires Next(c, s, step, s') && x in s'.msgs && !(step.Task? && x == step.m)
    ensures s.released <= s'.released && (s'.msgs[x].phase.Queued? || (x in s.msgs && s'.msgs[x] == s.msgs[x]))
  {
    if !step.Task? {
      StepAside(c, s, step, s');
      if x !in s.msgs {
        NewQueued(c, s, step, s', x);
      }
    } else {
      TaskOthers(c, s, step.m, step.act, s', x);
    }
  }

  lemma TaskOthers(c: Config, s: State, m: Id, act: Act, s': State, x: Id)
    requires Acts(c, s, m, act, s') && x in s'.msgs && x != m
    ensures s.released <= s'.released && (s'.msgs[x].phase.Queued? || (x in s.msgs && s'.msgs[x] == s.msgs[x]))
  {
    if !Visible(act) {
      TaskFrame(c, s, m, act, s');
    }
  }

  lemma NewQueued(c: Config, s: State, step: Step, s': State, x: Id)
    requires Next(c, s, step, s') && x in s'.msgs && !step.Task? && x !in s.msgs
    ensures s'.msgs[x].phase.Queued?
  {
    if step.Api? {
      if step.move.DispatchEvent? {
        MoveAnnounces(s, step.r, step.move.copy, s');
      } else {
        MoveAside(s, step.r, step.move, s');
      }
    } else if step.Admin? {
      ChangeAside(s, step.change, s');
    }
  }

  // ----- which rows a dying fan-out strands -----

  /** No row is announced by two fan-outs. */
  ghost predicate Solo(msgs: map<Id, Envelope>) {
    forall m1, m2, d :: Announces(msgs, m1, d) && Announces(msgs, m2, d) ==> m1 == m2
  }

  lemma AnnouncedIsRow(c: Config, s: State, m: Id, d: Id)
    requires Tasks(c, s) && Announces(s.msgs, m, d)
    ensures d in s.rows
  {
    assert MessageOk(c, s, m);
    var todo := s.msgs[m].phase.todo;
    var i :| 0 <= i < |todo| && todo[i].0 == d;
    assert todo[i] in todo;
  }

  /** A fan-out starts to announce a row only where it inserts it. */
  lemma TaskAnnouncer(c: Config, s: State, m: Id, act: Act, s': State, d: Id)
    requires Acts(c, s, m, act, s') && Announces(s'.msgs, m, d)
    ensures Announces(s.msgs, m, d) || d !in s.rows
  {
    if act.Send? {
      TailFrom(s.msgs[m].phase.todo, d);
    }
  }

  lemma TailFrom(todo: seq<(Id, Id)>, d: Id)
    requires todo != [] && exists i {:trigger todo[1..][i]} :: 0 <= i < |todo[1..]| && todo[1..][i].0 == d
    ensures exists i {:trigger todo[i]} :: 0 <= i < |todo| && todo[i].0 == d
  {
    var i :| 0 <= i < |todo[1..]| && todo[1..][i].0 == d;
    assert todo[i + 1].0 == d;
  }

  lemma OtherAnnouncer(c: Config, s: State, step: Step, s': State, x: Id, d: Id)
    requires Next(c, s, step, s') && Announces(s'.msgs, x, d) && !(step.Task? && x == step.m)
    ensures Announces(s.msgs, x, d)
  {
    OthersKept(c, s, step, s', x);
  }

  lemma StepSolo(c: Config, s: State, step: Step, s': State)
    requires Tasks(c, s) && Solo(s.msgs) && Next(c, s, step, s')
    ensures Solo(s'.msgs)
  {
    forall x, d | Announces(s'.msgs, x, d) && !(step.Task? && x == step.m)
      ensures Announces(s.msgs, x, d) && d in s.rows
    {
      OtherAnnouncer(c, s, step, s', x, d);
      AnnouncedIsRow(c, s, x, d);
    }
    forall d | step.Task? && Announces(s'.msgs, step.m, d) ensures Announces(s.msgs, step.m, d) || d !in s.rows {
      TaskAnnouncer(c, s, step.m, step.act, s', d);
    }
  }

  lemma {:induction false} AlwaysSolo(c: Config, states: seq<State>, steps: seq<Step>, i: nat)
    requires Run(c, states, steps) && i <= |steps| && Base(c, states[0]) && Solo(states[0].msgs)
    ensures Solo(states[i].msgs)
  {
    if i > 0 {
      AlwaysSolo(c, states, steps, i - 1);
      BaseAlways(c, states, steps, i - 1);
      StepSolo(c, states[i - 1], steps[i - 1], states[i]);
    }
  }

  lemma ReachableSolo(c: Config, s: State)
    requires Reachable(c, s)
    ensures Solo(s.msgs)
  {
    var t, states, steps :| Run(c, states, steps) && states[0] == Init(t) && states[|steps|] == s;
    AlwaysSolo(c, states, steps, |steps|);
  }

  /** Where a fan-out dies in its window, no one else announces its rows any more. */
  lemma GapSilences(s: State, m: Id, d: Id)
    requires m in s.msgs && Solo(s.msgs) && Announces(s.msgs, m, d)
    ensures forall x :: !Announces(CrashTask(s, m).msgs, x, d)
  {
    forall x ensures !Announces(CrashTask(s, m).msgs, x, d) {
      assert x != m ==> !Announces(s.msgs, x, d);
    }
  }

  /** The fan-out that is to announce row `d` dies before it does. */
  predicate Strands(s: State, step: Step, d: Id) {
    Gap(s, step) && Announces(s.msgs, step.m, d) && d !in s.released
  }

  /**
   Exactly which step sets which row adrift: the death of a fan-out between its commit and its last
   dispatch, for each row it still had to announce, and nothing else.
   */
  lemma StrandsIff(c: Config, s: State, step: Step, s': State, d: Id)
    requires Reachable(c, s) && Next(c, s, step, s')
    ensures !Adrift(s, d) && Adrift(s', d) <==>
            Strands(s, step, d)
  {
    ReachableBase(c, s);
    ReachableSolo(c, s);
    if Gap(s, step) {
      GapSets(c, s, step, s', d);
    } else if !Adrift(s, d) {
      StepAnnounces(c, s, step, s', d);
    }
  }

  lemma GapSets(c: Config, s: State, step: Step, s': State, d: Id)
    requires Base(c, s) && Solo(s.msgs) && Next(c, s, step, s') && Gap(s, step)
    ensures !Adrift(s, d) && Adrift(s', d) <==> Strands(s, step, d)
  {
    assert s'.rows == s.rows && s'.released == s.released && s'.msgs == s.msgs[step.m := s'.msgs[step.m]];
    if Announces(s.msgs, step.m, d) {
      AnnouncedIsRow(c, s, step.m, d);
      GapSilences(s, step.m, d);
    } else {
      forall x | Announces(s.msgs, x, d) ensures Announces(s'.msgs, x, d) {
        assert x != step.m;
      }
    }
  }

  /** Row `d` is exactly as it was, with nothing new in its history. */
  predicate Untouched(s: State, s': State, d: Id) {
    d in s.rows && d in s'.rows && s'.rows[d] == s.rows[d] && d in s.hist && d in s'.hist && s'.hist[d] == s.hist[d]
  }

  lemma ActUntouched(c: Config, s: State, m: Id, act: Act, s': State, d: Id)
    requires Known(s) && m in s.msgs && MessageOk(c, s, m) && Acts(c, s, m, act, s')
    requires d in s.rows && d in s.hist && d !in s.released
    ensures Untouched(s, s', d)
  {
    if act.Expand? {
      Grows(s, m, act.ids, act.created);
    } else if act.Claim? || act.Post? || act.Hear? || act.Commit? || act.Crash? {
      TransactionUntouched(c, s, m, act, s', d);
    } else {
      NoNews(c, s, m, act, s');
      SameRows(c, s, Task(m, act), s');
    }
  }

  lemma TransactionUntouched(c: Config, s: State, m: Id, act: Act, s': State, d: Id)
    requires Unreleased(s) && m in s.msgs && MessageOk(c, s, m) && Acts(c, s, m, act, s')
    requires act.Claim? || act.Post? || act.Hear? || act.Commit? || act.Crash?
    requires d in s.rows && d in s.hist && d !in s.released
    ensures Untouched(s, s', d)
  {
    assert s.msgs[m].body.Deliver? ==> s.msgs[m].body.delivery != d;
  }

  /** The sender of an adrift row's message could only be a fan-out announcing it, and there is none. */
  lemma ActAdrift(c: Config, s: State, m: Id, act: Act, s': State, d: Id)
    requires Known(s) && m in s.msgs && MessageOk(c, s, m) && Acts(c, s, m, act, s') && Adrift(s, d)
    ensures d !in s'.released && forall x :: !Announces(s'.msgs, x, d)
  {
    if act.Send? {
      SendAdrift(c, s, m, act.copy, d);
    } else {
      ReleasedStays(c, s, m, act, s');
      forall x ensures !Announces(s'.msgs, x, d) {
        assert !Announces(s.msgs, x, d);
        if x in s'.msgs && x != m {
          TaskOthers(c, s, m, act, s', x);
        } else if x == m {
          NoNewAnnouncer(c, s, m, act, s', d);
        }
      }
    }
  }

  lemma ReleasedStays(c: Config, s: State, m: Id, act: Act, s': State)
    requires Acts(c, s, m, act, s') && !act.Send?
    ensures s'.released == s.released
  {
    if !Visible(act) {
      TaskFrame(c, s, m, act, s');
    }
  }

  lemma NoNewAnnouncer(c: Config, s: State, m: Id, act: Act, s': State, d: Id)
    requires Acts(c, s, m, act, s') && !act.Send? && d in s.rows && !Announces(s.msgs, m, d)
    ensures !Announces(s'.msgs, m, d)
  {
  }

  lemma TailLacks(todo: seq<(Id, Id)>, d: Id)
    requires todo != [] && forall i {:trigger todo[i]} :: 0 <= i < |todo| ==> todo[i].0 != d
    ensures forall i {:trigger todo[1..][i]} :: 0 <= i < |todo[1..]| ==> todo[1..][i].0 != d
  {
  }

  lemma SendAdrift(c: Config, s: State, m: Id, copy: Id, d: Id)
    requires Known(s) && m in s.msgs && MessageOk(c, s, m) && s.msgs[m].phase.Sending? && s.msgs[m].phase.todo != []
    requires copy !in s.msgs && Adrift(s, d)
    ensures var s' := SendNext(s, m, copy); d !in s'.released && forall x :: !Announces(s'.msgs, x, d)
  {
    var s' := SendNext(s, m, copy); var todo := s.msgs[m].phase.todo;
    assert todo[0] in todo && RescansKnown(s, m);
    assert !Announces(s.msgs, m, d);
    assert todo[0].0 != d;
    forall x ensures !Announces(s'.msgs, x, d) {
      assert !Announces(s.msgs, x, d);
      if x == m {
        TailLacks(todo, d);
      }
    }
  }

  lemma StepAdrift(c: Config, s: State, step: Step, s': State, d: Id)
    requires Base(c, s) && Known(s) && Next(c, s, step, s') && Adrift(s, d)
    ensures Adrift(s', d) && Untouched(s, s', d)
  {
    if step.Task? {
      assert MessageOk(c, s, step.m);
      ActAdrift(c, s, step.m, step.act, s', d);
      ActUntouched(c, s, step.m, step.act, s', d);
    } else {
      StepAside(c, s, step, s');
      HistoriesStay(c, s, step, s');
      forall x ensures !Announces(s'.msgs, x, d) {
        assert !Announces(s.msgs, x, d);
        if x in s'.msgs && x !in s.msgs {
          NewQueued(c, s, step, s', x);
        }
      }
    }
  }

  lemma HistoriesStay(c: Config, s: State, step: Step, s': State)
    requires Next(c, s, step, s') && !step.Task?
    ensures s'.hist == s.hist
  {
    if step.Api? {
      if step.move.DispatchEvent? {
        MoveAnnounces(s, step.r, step.move.copy, s');
      } else {
        MoveAside(s, step.r, step.move, s');
      }
    } else if step.Admin? {
      ChangeAside(s, step.change, s');
    }
  }

  lemma UnreleasedAlways(c: Config, states: seq<State>, steps: seq<Step>, t: Time, i: nat)
    requires Run(c, states, steps) && states[0] == Init(t) && i <= |steps|
    ensures Base(c, states[i]) && Unreleased(states[i])
  {
    BaseAlways(c, states, steps, i);
    CoveredAlways(c, 0, states, steps, i, false);
  }

  lemma {:induction false} AlwaysKnown(c: Config, states: seq<State>, steps: seq<Step>, t: Time, i: nat)
    requires Run(c, states, steps) && states[0] == Init(t) && i <= |steps|
    ensures Known(states[i])
  {
    UnreleasedAlways(c, states, steps, t, i);
    if i > 0 {
      AlwaysKnown(c, states, steps, t, i - 1);
      KnownOn(c, states, steps, i - 1);
    }
  }

  lemma KnownOn(c: Config, states: seq<State>, steps: seq<Step>, k: nat)
    requires Run(c, states, steps) && k < |steps| && Known(states[k])
    ensures AllRescansKnown(states[k + 1])
  {
    StepKnown(c, states[k], steps[k], states[k + 1]);
  }

  lemma AdriftOn(c: Config, states: seq<State>, steps: seq<Step>, t: Time, k: nat, d: Id)
    requires Run(c, states, steps) && states[0] == Init(t) && k < |steps| && Adrift(states[k], d)
    ensures Adrift(states[k + 1], d) && Untouched(states[k], states[k + 1], d)
  {
    UnreleasedAlways(c, states, steps, t, k);
    AlwaysKnown(c, states, steps, t, k);
    StepAdrift(c, states[k], steps[k], states[k + 1], d);
  }

  /** Once adrift, a delivery stays `pending` for ever: no POST, no message, no recovery. */
  lemma {:induction false} StrandedForever(c: Config, states: seq<State>, steps: seq<Step>, t: Time, i: nat, j: nat,
                                           d: Id)
    requires Run(c, states, steps) && states[0] == Init(t) && i <= j <= |steps| && Adrift(states[i], d)
    ensures Adrift(states[j], d) && Untouched(states[i], states[j], d)
  {
    UnreleasedAlways(c, states, steps, t, i);
    if i < j {
      StrandedForever(c, states, steps, t, i, j - 1, d);
      AdriftOn(c, states, steps, t, j - 1, d);
    }
  }

  lemma LostOn(c: Config, states: seq<State>, steps: seq<Step>, t: Time, k: nat, d: Id)
    requires Run(c, states, steps) && states[0] == Init(t) && k < |steps|
    ensures Adrift(states[k + 1], d) <==> Adrift(states[k], d) || Strands(states[k], steps[k], d)
  {
    ReachablePrefix(c, states, steps, t, k);
    StrandsIff(c, states[k], steps[k], states[k + 1], d);
    if Adrift(states[k], d) {
      AdriftOn(c, states, steps, t, k, d);
    }
  }

  lemma {:induction false} Latched(lost: seq<bool>, hit: seq<bool>, n: nat)
    requires |lost| == |hit| + 1 && !lost[0] && n <= |hit|
    requires forall k :: 0 <= k < |hit| ==> (lost[k + 1] <==> lost[k] || hit[k])
    ensures lost[n] <==> exists i :: 0 <= i < n && hit[i]
  {
    if n > 0 {
      Latched(lost, hit, n - 1);
      assert lost[n - 1 + 1] <==> lost[n - 1] || hit[n - 1];
    }
  }

  /** Which rows are lost, over whole runs: those whose fan-out died before announcing them. */
  lemma LostIff(c: Config, states: seq<State>, steps: seq<Step>, t: Time, n: nat, d: Id)
    requires Run(c, states, steps) && states[0] == Init(t) && n <= |steps|
    ensures Adrift(states[n], d) <==> exists i :: 0 <= i < n && Strands(states[i], steps[i], d)
  {
    ghost var lost := seq(|states|, k requires 0 <= k < |states| => Adrift(states[k], d));
    var hit := seq(|steps|, k requires 0 <= k < |steps| => Strands(states[k], steps[k], d));
    forall k | 0 <= k < |hit| ensures lost[k + 1] <==> lost[k] || hit[k] {
      LostOn(c, states, steps, t, k, d);
    }
    Latched(lost, hit, n);
    SomeHit(states, steps, hit, n, d);
  }

  lemma SomeHit(states: seq<State>, steps: seq<Step>, hit: seq<bool>, n: nat, d: Id)
    requires |states| == |steps| + 1 && |hit| == |steps| && n <= |steps|
    requires forall k :: 0 <= k < |hit| ==> hit[k] == Strands(states[k], steps[k], d)
    ensures (exists i :: 0 <= i < n && hit[i]) <==> exists i :: 0 <= i < n && Strands(states[i], steps[i], d)
  {
    if i :| 0 <= i < n && Strands(states[i], steps[i], d) {
      assert hit[i];
    }
  }

  /** It does happen: a fan-out that dies right after its first commit. */
  lemma GapStrands(c: Config) returns (s: State, d: Id)
    ensures Reachable(c, s) && Adrift(s, d)
  {
    var s0 := Announcing(c, 0, Init(0));
    s := CrashTask(s0, 0);
    d := 0;
    Then(c, 0, Init(0), s0, Task(0, Crash), s);
    var states, steps :| PromptRun(c, 0, states, steps) && states[0] == Init(0) && states[|steps|] == s;
  }
}
