/** Why late commits have to be counted: a row that two scans of one row each pass over. */
module LateReturn {
  import opened Types
  import opened Rules
  import opened Protocol
  import opened Coverage
  import opened StalledCommit
  import opened TwoDeliveries
  import opened Recovery
  import opened Dispatch
  import opened TwoScans

  function Delay(c: Config, k: nat): Time
    requires k < |c.delays|
  {
    c.delays[k] * SECOND
  }

  /** Delivery 0 after its second attempt was answered 500, as soon as that was possible. */
  function RefusedTwice(c: Config): Delivery
    requires |c.delays| >= 2
  {
    Classify(c.delays, Begin(Refused(c, 0)), Response(500), Delay(c, 0))
  }

  /** Delivery 1 after its first attempt was answered 500 one second delay later. */
  function RefusedLater(c: Config): Delivery
    requires |c.delays| >= 2
  {
    Classify(c.delays, Begin(NewDelivery(0, 1, 0, CREATED)), Response(500), Delay(c, 1))
  }

  /** Message `m` has the second attempt of delivery 0 ready to commit. */
  predicate Stalling(c: Config, s: State, m: Id)
    requires |c.delays| >= 2
  {
    && m in s.msgs && s.msgs[m].body.Deliver? && s.msgs[m].body.delivery == 0
    && s.msgs[m].phase == Staged(RefusedTwice(c), Replied(Response(500), Delay(c, 0), Some(5)))
  }

  /** Delivery 0 has failed, come due, and failed again; the second failure is not committed. */
  lemma FailedTwice(c: Config, lag: Time) returns (s: State)
    requires lag >= 0 && |c.delays| >= 2
    ensures Reaches(c, lag, Init(0), s) && s.now == Delay(c, 0) && Stalling(c, s, 3)
    ensures Pair(s.rows, Refused(c, 0), NewDelivery(0, 1, 0, CREATED)) && 1 !in s.locks && Resolves(s, s.rows[1], 0)
    ensures s.msgs.Keys == {1, 2, 3, 5} && s.msgs[2] == Envelope(Deliver(1, 0, 0), Queued)
  {
    var s1 := TwoPoised(c, lag);
    var s2 := FailOnce(c, lag, Init(0), s1, 1, 0, 3);
    var s3 := Settle(c, lag, Init(0), s2, 1, 0);
    var s4 := SetClock(s3, Delay(c, 0));
    Then(c, lag, Init(0), s3, Tick(Delay(c, 0)), s4);
    s := FailOnce(c, lag, Init(0), s4, 3, 0, 5);
  }

  /** Delivery 1 fails too, commits at once, and comes due. */
  lemma BothStuck(c: Config, lag: Time) returns (s: State)
    requires lag >= 0 && |c.delays| >= 2 && c.delays[0] <= c.delays[1]
    ensures Reaches(c, lag, Init(0), s) && s.now == Delay(c, 0) + Delay(c, 1) && Stalling(c, s, 3)
    ensures Pair(s.rows, Refused(c, 0), RefusedLater(c)) && 6 in s.msgs && s.msgs[6] == Envelope(Recover, Received)
    ensures s.msgs.Keys == {1, 2, 3, 4, 5, 6}
  {
    var s1 := FailedTwice(c, lag);
    var s2 := SetClock(s1, Delay(c, 1));
    Then(c, lag, Init(0), s1, Tick(Delay(c, 1)), s2);
    var s3 := FailOnce(c, lag, Init(0), s2, 2, 1, 4);
    var s4 := Settle(c, lag, Init(0), s3, 2, 1);
    var s5 := SetClock(s4, Delay(c, 0) + Delay(c, 1));
    Then(c, lag, Init(0), s4, Tick(Delay(c, 0) + Delay(c, 1)), s5);
    s := AskRecovery(c, lag, Init(0), s5, 6);
  }

  /** The second failure of delivery 0 commits now that the first scan has picked it. */
  lemma CommittedLate(c: Config, lag: Time, s: State) returns (s': State)
    requires |c.delays| >= 2 && c.delays[1] * SECOND <= lag && s.now == Delay(c, 0) + Delay(c, 1)
    requires Stalling(c, s, 3) && Pair(s.rows, Refused(c, 0), RefusedLater(c)) && 7 !in s.msgs
    ensures Reaches(c, lag, s, s') && s'.now == s.now && Pair(s'.rows, RefusedTwice(c), RefusedLater(c))
    ensures 7 in s'.msgs && s'.msgs[7] == Envelope(Recover, Received)
  {
    Stay(c, lag, s);
    var s1 := Settle(c, lag, s, s, 3, 0);
    s' := AskRecovery(c, lag, s, s1, 7);
  }

  lemma PicksZero(c: Config, s: State, m: Id, s': State)
    requires c.batch == 1 && |c.delays| >= 2 && s.now == Delay(c, 0) + Delay(c, 1)
    requires Pair(s.rows, Refused(c, 0), RefusedLater(c)) || Pair(s.rows, RefusedTwice(c), RefusedLater(c))
    requires m in s.msgs && s.msgs[m] == Envelope(Recover, Received)
    requires s' == SetPhase(s, m, Sending(WithTenants(s.rows, [0])))
    ensures Next(c, s, Task(m, Scan([0])), s')
  {
    assert 0 in [0];
  }

  lemma BothAtOrBefore(c: Config, rows: map<Id, Delivery>)
    requires |c.delays| >= 2 && Pair(rows, Refused(c, 0), RefusedLater(c))
    ensures |Ahead(rows, Delay(c, 0) + Delay(c, 1))| <= 2
  {
    var ahead := Ahead(rows, Delay(c, 0) + Delay(c, 1));
    forall x | x in ahead ensures x in {0, 1} {
      assert x in rows;
    }
    Subset(ahead, {0, 1});
  }

  /** The states before and after the two scans, which both pick delivery 0. */
  lemma FourStates(c: Config, lag: Time) returns (a: State, a': State, b: State, b': State)
    requires c.batch == 1 && |c.delays| >= 2 && c.delays[0] <= c.delays[1] && c.delays[1] * SECOND <= lag
    ensures Reaches(c, lag, Init(0), a) && Next(c, a, Task(6, Scan([0])), a')
    ensures Reaches(c, lag, a', b) && Next(c, b, Task(7, Scan([0])), b')
    ensures a.now == Delay(c, 0) + Delay(c, 1) && Pair(a.rows, Refused(c, 0), RefusedLater(c))
    ensures Pair(b.rows, RefusedTwice(c), RefusedLater(c))
  {
    a := BothStuck(c, lag);
    a' := SetPhase(a, 6, Sending(WithTenants(a.rows, [0])));
    PicksZero(c, a, 6, a');
    b := CommittedLate(c, lag, a');
    b' := SetPhase(b, 7, Sending(WithTenants(b.rows, [0])));
    PicksZero(c, b, 7, b');
  }

  /** Only delivery 0 is processed between the scans. */
  lemma OnlyZeroProcessed(c: Config, a: State, b: State)
    requires |c.delays| >= 2 && a.now == Delay(c, 0) + Delay(c, 1)
    requires Pair(a.rows, Refused(c, 0), RefusedLater(c)) && Pair(b.rows, RefusedTwice(c), RefusedLater(c))
    ensures Processed(a, b, 0) && !Processed(a, b, 1)
    ensures Stuck(a.rows[1], a.now) && |Ahead(a.rows, a.rows[1].nextRetry.value)| <= 2
  {
    BothAtOrBefore(c, a.rows);
  }

  /**
   The bound of `DispatchedWithin` fails where a retry may be committed a second delay after its
   failure: two rows are at or before delivery 1, a batch holds one, and neither of two scans picks it.
   */
  lemma PassedOverTwice(c: Config, lag: Time)
    returns (states: seq<State>, steps: seq<Step>, scans: seq<nat>, picks: seq<seq<Id>>)
    requires c.batch == 1 && |c.delays| >= 2 && c.delays[0] <= c.delays[1] && c.delays[1] * SECOND <= lag
    ensures PromptRun(c, lag, states, steps) && states[0] == Init(0)
    ensures Scans(states, steps, scans, picks) && BatchesProcessed(states, steps, scans, picks) && |scans| == 2
    ensures 1 in states[scans[0]].rows && Stuck(states[scans[0]].rows[1], states[scans[0]].now)
    ensures |Ahead(states[scans[0]].rows, states[scans[0]].rows[1].nextRetry.value)| <= 2 * c.batch
    ensures 1 !in picks[0] && 1 !in picks[1] && !Processed(states[scans[0]], states[scans[1]], 1)
  {
    var a, a', b, b' := FourStates(c, lag);
    OnlyZeroProcessed(c, a, b);
    states, steps, scans, picks := ScansJoined(c, lag, a, 6, 0, a', b, 7, 0, b');
  }
}
