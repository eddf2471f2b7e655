/**
 A run in which recovery makes a due delivery wait: two deliveries are due, a batch holds one, the
 first scan picks one of them, which is delivered, and the second scan picks the other.
 */
module TwoScans {
  import opened Types
  import opened Rules
  import opened Protocol
  import opened Coverage
  import opened StalledCommit
  import opened TwoDeliveries
  import opened Recovery
  import opened Dispatch

  /** Two runs joined by a step. */
  lemma Concat(c: Config, lag: Time, states1: seq<State>, steps1: seq<Step>, step: Step, states2: seq<State>,
               steps2: seq<Step>)
    requires PromptRun(c, lag, states1, steps1) && PromptRun(c, lag, states2, steps2)
    requires Next(c, states1[|steps1|], step, states2[0]) && Prompt(states1[|steps1|], step, lag)
    ensures PromptRun(c, lag, states1 + states2, steps1 + [step] + steps2)
  {
    var states, steps, n := states1 + states2, steps1 + [step] + steps2, |steps1|;
    forall i | 0 <= i < |steps|
      ensures Next(c, states[i], steps[i], states[i + 1]) && Prompt(states[i], steps[i], lag)
    {
      if i < n {
        assert steps[i] == steps1[i];
      } else if i > n {
        assert steps[i] == steps2[i - n - 1];
      }
    }
  }

  /** Both deliveries have committed their first failure at time 0. */
  lemma BothCommitted(c: Config, lag: Time) returns (s: State)
    requires lag >= 0 && c.delays != []
    ensures Reaches(c, lag, Init(0), s) && s.now == 0 && Pair(s.rows, Refused(c, 0), Refused(c, 1))
    ensures 0 !in s.locks && 1 !in s.locks && Resolves(s, s.rows[0], 0) && Resolves(s, s.rows[1], 0)
    ensures s.msgs.Keys == {1, 2, 3, 4} && s.msgs[3] == RetryAt(c, 0)
  {
    var s1 := TwoFailing(c, lag);
    var s2 := Settle(c, lag, Init(0), s1, 1, 0);
    s := Settle(c, lag, Init(0), s2, 2, 1);
  }

  /** A recovery message is sent and received. */
  lemma AskRecovery(c: Config, lag: Time, a: State, s: State, copy: Id) returns (s': State)
    requires Reaches(c, lag, a, s) && copy !in s.msgs
    ensures Reaches(c, lag, a, s') && s'.now == s.now && s'.rows == s.rows && s'.locks == s.locks && SameWorld(s, s')
    ensures s'.msgs == s.msgs[copy := Envelope(Recover, Received)]
  {
    var s1 := Enqueue(s, copy, Recover);
    Then(c, lag, a, s, Beat(copy), s1);
    s' := SetPhase(s1, copy, Received);
    Then(c, lag, a, s1, Task(copy, Start), s');
  }

  /** Both deliveries are due and recovery message 5 is about to scan. */
  lemma BothDue(c: Config, lag: Time) returns (s: State)
    requires lag >= 0 && c.delays != []
    ensures Reaches(c, lag, Init(0), s) && s.now == c.delays[0] * SECOND && Pair(s.rows, Refused(c, 0), Refused(c, 1))
    ensures 0 !in s.locks && 1 !in s.locks && Resolves(s, s.rows[0], 0) && Resolves(s, s.rows[1], 0)
    ensures s.msgs.Keys == {1, 2, 3, 4, 5} && s.msgs[3] == RetryAt(c, 0) && s.msgs[5] == Envelope(Recover, Received)
  {
    var s1 := BothCommitted(c, lag);
    var s2 := SetClock(s1, c.delays[0] * SECOND);
    Then(c, lag, Init(0), s1, Tick(c.delays[0] * SECOND), s2);
    s := AskRecovery(c, lag, Init(0), s2, 5);
  }

  /** The delivery held by message `m` is accepted. */
  lemma Accept(c: Config, lag: Time, a: State, s: State, m: Id, d: Id) returns (s': State)
    requires Reaches(c, lag, a, s) && Poised(s, m, d)
    ensures Reaches(c, lag, a, s') && s'.now == s.now && s'.rows == s.rows[d := After(c, s, d, Response(200))]
    ensures SameWorld(s, s') && s'.msgs == s.msgs[m := s.msgs[m].(phase := Finished)]
  {
    var s1 := Ship(c, lag, a, s, m, d);
    var s2 := TakeAnswer(c, s1, m, Response(200));
    Then(c, lag, a, s1, Task(m, Hear(Response(200))), s2);
    s' := Settle(c, lag, a, s2, m, d);
  }

  /** From the first scan on: delivery 0 is accepted, and recovery message 6 is about to scan. */
  lemma OneLeft(c: Config, lag: Time, s: State) returns (s': State)
    requires c.delays != [] && Pair(s.rows, Refused(c, 0), Refused(c, 1))
    requires Poised(s, 3, 0) && s.msgs.Keys == {1, 2, 3, 4, 5}
    ensures Reaches(c, lag, s, s') && s'.now == s.now && Pair(s'.rows, After(c, s, 0, Response(200)), Refused(c, 1))
    ensures 6 in s'.msgs && s'.msgs[6] == Envelope(Recover, Received)
  {
    Stay(c, lag, s);
    var s1 := Accept(c, lag, s, s, 3, 0);
    s' := AskRecovery(c, lag, s, s1, 6);
  }

  lemma TwoScansAre(states: seq<State>, steps: seq<Step>, i: nat, j: nat, m1: Id, x: Id, m2: Id, y: Id)
    requires |states| == |steps| + 1 && i < j < |steps|
    requires steps[i] == Task(m1, Scan([x])) && steps[j] == Task(m2, Scan([y])) && Processed(states[i], states[j], x)
    ensures Scans(states, steps, [i, j], [[x], [y]]) && BatchesProcessed(states, steps, [i, j], [[x], [y]])
  {
  }

  lemma ScansJoined(c: Config, lag: Time, a: State, m1: Id, x: Id, a': State, b: State, m2: Id, y: Id, b': State)
    returns (states: seq<State>, steps: seq<Step>, scans: seq<nat>, picks: seq<seq<Id>>)
    requires Reaches(c, lag, Init(0), a) && Next(c, a, Task(m1, Scan([x])), a')
    requires Reaches(c, lag, a', b) && Next(c, b, Task(m2, Scan([y])), b') && Processed(a, b, x)
    ensures PromptRun(c, lag, states, steps) && states[0] == Init(0) && picks == [[x], [y]]
    ensures Scans(states, steps, scans, picks) && BatchesProcessed(states, steps, scans, picks)
    ensures |scans| == 2 && states[scans[0]] == a && states[scans[1]] == b
  {
    var states1, steps1 :| PromptRun(c, lag, states1, steps1) && states1[0] == Init(0) && states1[|steps1|] == a;
    var states2, steps2 :| PromptRun(c, lag, states2, steps2) && states2[0] == a' && states2[|steps2|] == b;
    var scan1, scan2 := Task(m1, Scan([x])), Task(m2, Scan([y]));
    Append(c, lag, states2, steps2, scan2, b');
    Concat(c, lag, states1, steps1, scan1, states2 + [b'], steps2 + [scan2]);
    states, steps := states1 + (states2 + [b']), steps1 + [scan1] + (steps2 + [scan2]);
    var i, j := |steps1|, |steps1| + 1 + |steps2|;
    scans, picks := [i, j], [[x], [y]];
    assert steps[i] == scan1 && steps[j] == scan2 && states[i] == a && states[j] == b;
    TwoScansAre(states, steps, i, j, m1, x, m2, y);
  }

  /** Both rows are at or before a row due after the first delay. */
  lemma BothAhead(c: Config, rows: map<Id, Delivery>)
    requires c.delays != [] && Pair(rows, Refused(c, 0), Refused(c, 1))
    ensures |Ahead(rows, c.delays[0] * SECOND)| == 2
  {
    assert rows[0].nextRetry == Some(c.delays[0] * SECOND) && rows[1].nextRetry == Some(c.delays[0] * SECOND);
    var ahead := Ahead(rows, c.delays[0] * SECOND);
    forall x | x in ahead ensures x in {0, 1} {
      assert x in rows;
    }
    assert 0 in ahead && 1 in ahead;
    Subset({0, 1}, ahead);
    Subset(ahead, {0, 1});
  }

  /** The states before and after the two scans. */
  lemma FourStates(c: Config, lag: Time) returns (a: State, a': State, b: State, b': State)
    requires c.batch == 1 && c.delays != [] && lag >= 0
    ensures Reaches(c, lag, Init(0), a) && Next(c, a, Task(5, Scan([0])), a')
    ensures Reaches(c, lag, a', b) && Next(c, b, Task(6, Scan([1])), b')
    ensures a.now == c.delays[0] * SECOND && Pair(a.rows, Refused(c, 0), Refused(c, 1))
    ensures Processed(a, b, 0) && !Processed(a, b, 1)
  {
    a := BothDue(c, lag);
    a' := SetPhase(a, 5, Sending(WithTenants(a.rows, [0])));
    FirstScan(c, a, a');
    b := OneLeft(c, lag, a');
    b' := SetPhase(b, 6, Sending(WithTenants(b.rows, [1])));
    SecondScan(c, a, b, b');
  }

  /**
   What `DispatchedWithin` speaks of happens: with a batch of one, delivery 1 has two rows at or
   before it, the first of two scans passes it over, and the second picks it.
   */
  lemma WaitsForTheSecondScan(c: Config, lag: Time)
    returns (states: seq<State>, steps: seq<Step>, scans: seq<nat>, picks: seq<seq<Id>>)
    requires c.batch == 1 && c.delays != [] && lag >= 0
    ensures PromptRun(c, lag, states, steps) && states[0] == Init(0)
    ensures Scans(states, steps, scans, picks) && BatchesProcessed(states, steps, scans, picks) && |scans| == 2
    ensures 1 in states[scans[0]].rows && Stuck(states[scans[0]].rows[1], states[scans[0]].now)
    ensures |Ahead(states[scans[0]].rows, states[scans[0]].rows[1].nextRetry.value)| == 2 * c.batch
    ensures 1 !in picks[0] && 1 in picks[1] && !Processed(states[scans[0]], states[scans[1]], 1)
  {
    var a, a', b, b' := FourStates(c, lag);
    states, steps, scans, picks := ScansJoined(c, lag, a, 5, 0, a', b, 6, 1, b');
    BothAhead(c, a.rows);
  }

  lemma FirstScan(c: Config, a: State, a': State)
    requires c.batch == 1 && c.delays != [] && a.now == c.delays[0] * SECOND
    requires Pair(a.rows, Refused(c, 0), Refused(c, 1))
    requires 5 in a.msgs && a.msgs[5] == Envelope(Recover, Received)
    requires a' == SetPhase(a, 5, Sending(WithTenants(a.rows, [0])))
    ensures Next(c, a, Task(5, Scan([0])), a')
  {
    assert 0 in [0];
  }

  lemma SecondScan(c: Config, a: State, b: State, b': State)
    requires c.batch == 1 && c.delays != [] && b.now == a.now == c.delays[0] * SECOND
    requires Pair(a.rows, Refused(c, 0), Refused(c, 1)) && Pair(b.rows, After(c, a, 0, Response(200)), Refused(c, 1))
    requires 6 in b.msgs && b.msgs[6] == Envelope(Recover, Received)
    requires b' == SetPhase(b, 6, Sending(WithTenants(b.rows, [1])))
    ensures Next(c, b, Task(6, Scan([1])), b') && Processed(a, b, 0) && !Processed(a, b, 1)
  {
    assert 1 in [1];
  }
}
