/** The run in which a delivery is forgotten: its retry message comes due before the retry commits. */
module StalledCommit {
  import opened Types
  import opened Rules
  import opened Protocol
  import opened Invariant
  import opened Coverage

  lemma Append(c: Config, lag: Time, states: seq<State>, steps: seq<Step>, step: Step, s': State)
    requires PromptRun(c, lag, states, steps) && Next(c, states[|steps|], step, s')
    requires Prompt(states[|steps|], step, lag)
    ensures PromptRun(c, lag, states + [s'], steps + [step])
  {
    var states', steps' := states + [s'], steps + [step];
    forall i | 0 <= i < |steps'|
      ensures Next(c, states'[i], steps'[i], states'[i + 1]) && Prompt(states'[i], steps'[i], lag)
    {
      if i < |steps| {
        assert steps'[i] == steps[i];
      }
    }
  }

  lemma Then(c: Config, lag: Time, a: State, b: State, step: Step, s': State)
    requires Reaches(c, lag, a, b) && Next(c, b, step, s') && Prompt(b, step, lag)
    ensures Reaches(c, lag, a, s')
  {
    var states, steps :| PromptRun(c, lag, states, steps) && states[0] == a && states[|steps|] == b;
    Append(c, lag, states, steps, step, s');
    assert (states + [s'])[0] == a && (states + [s'])[|steps + [step]|] == s';
  }

  lemma Stay(c: Config, lag: Time, a: State)
    ensures Reaches(c, lag, a, a)
  {
    assert PromptRun(c, lag, [a], []) && [a][0] == a;
  }

  /** Delivery 0 of tenant 0 has failed `k` times, is due, and message `m` is about to try it again. */
  ghost predicate Ready(s: State, m: Id, k: nat) {
    && s.msgs.Keys == {m} && s.msgs[m].phase.Queued?
    && s.msgs[m].body.Deliver? && s.msgs[m].body.delivery == 0 && s.msgs[m].body.tenant == 0
         && s.msgs[m].body.eta <= s.now
    && 0 in s.rows && Claimable(s.rows[0], 0, s.now) && s.rows[0].attempts == k
    && 0 !in s.locks && 0 in s.released && Resolves(s, s.rows[0], 0)
  }

  /** The attempt has failed and sent its retry `copy`, due at `eta`; it has not committed. */
  ghost predicate Pushed(c: Config, s: State, m: Id, copy: Id, k: nat, at: Time) {
    && k < |c.delays| && m != copy && s.msgs.Keys == {m, copy} && s.now == at
    && s.msgs[m].body.Deliver? && s.msgs[m].body.delivery == 0
    && s.msgs[copy] == Envelope(Deliver(0, 0, at + c.delays[k] * SECOND), Queued)
    && s.msgs[m].phase.Staged?
    && s.msgs[m].phase.cause == Replied(Response(500), at, Some(copy))
    && (var r := s.msgs[m].phase.row;
        && r.status == Pending && r.attempts == k + 1 && r.tenant == 0
        && r.nextRetry == Some(at + c.delays[k] * SECOND)
        && Resolves(s, r, 0))
    && 0 in s.rows && 0 in s.locks && 0 in s.released
  }

  // ----- one attempt, among any other rows and messages -----

  /** Tenants, events, endpoints and announced rows are the same. */
  predicate SameWorld(s: State, s': State) {
    s'.tenants == s.tenants && s'.events == s.events && s'.endpoints == s.endpoints && s'.released == s.released
  }

  /** Message `m` is due, and will claim row `d` and find its endpoint. */
  predicate Poised(s: State, m: Id, d: Id) {
    && m in s.msgs && s.msgs[m].phase.Queued? && s.msgs[m].body.Deliver? && s.msgs[m].body.delivery == d
    && s.msgs[m].body.eta <= s.now && CanClaim(s, d, s.msgs[m].body.tenant)
    && Resolves(s, s.rows[d], s.msgs[m].body.tenant)
  }

  /** Only execution `m` moved, to phase `p`, and it holds row `d`. */
  predicate Tried(s: State, s': State, m: Id, d: Id, p: Phase)
    requires m in s.msgs
  {
    && s'.now == s.now && s'.rows == s.rows && s'.locks == s.locks[d := m] && SameWorld(s, s')
    && s'.msgs == s.msgs[m := s.msgs[m].(phase := p)]
  }

  lemma Aim(c: Config, lag: Time, a: State, s: State, m: Id, d: Id) returns (s': State)
    requires Reaches(c, lag, a, s) && Poised(s, m, d)
    ensures Reaches(c, lag, a, s') && Tried(s, s', m, d, Reads(s, s.rows[d], s.msgs[m].body.tenant))
  {
    var s1 := SetPhase(s, m, Received);
    Then(c, lag, a, s, Task(m, Start), s1);
    var s2 := ClaimRow(s1, m);
    Then(c, lag, a, s1, Task(m, Claim), s2);
    s' := SetPhase(s2, m, Reads(s2, s.rows[d], s.msgs[m].body.tenant));
    Then(c, lag, a, s2, Task(m, Bind), s');
  }

  /** The request of message `m` for row `d`. */
  function RequestOf(s: State, m: Id, d: Id): Webhook
    requires Poised(s, m, d)
  {
    var r := s.rows[d];
    Request(s.endpoints[r.endpoint], r.event, s.events[r.event], s.tenants[s.msgs[m].body.tenant])
  }

  lemma Ship(c: Config, lag: Time, a: State, s: State, m: Id, d: Id) returns (s': State)
    requires Reaches(c, lag, a, s) && Poised(s, m, d)
    ensures Reaches(c, lag, a, s') && Tried(s, s', m, d, InFlight(Begin(s.rows[d]), RequestOf(s, m, d)))
  {
    var s1 := Aim(c, lag, a, s, m, d);
    s' := SendPost(s1, m);
    Then(c, lag, a, s1, Task(m, Act.Post), s');
  }

  /** The row after an attempt answered `answer` now. */
  function After(c: Config, s: State, d: Id, answer: Answer): Delivery
    requires d in s.rows
  {
    Classify(c.delays, Begin(s.rows[d]), answer, s.now)
  }

  /** The attempt is refused and a retry is called for. */
  lemma Refuse(c: Config, lag: Time, a: State, s: State, m: Id, d: Id) returns (s': State)
    requires Reaches(c, lag, a, s) && Poised(s, m, d) && s.rows[d].attempts < |c.delays|
    ensures Reaches(c, lag, a, s')
    ensures Tried(s, s', m, d, Answered(After(c, s, d, Response(500)), Response(500), s.now))
  {
    var s1 := Ship(c, lag, a, s, m, d);
    s' := TakeAnswer(c, s1, m, Response(500));
    Then(c, lag, a, s1, Task(m, Hear(Response(500))), s');
  }

  /** The attempt is refused and has sent its retry, not committed. */
  predicate Failing(c: Config, s: State, s': State, m: Id, d: Id, copy: Id)
    requires Poised(s, m, d) && s.rows[d].attempts < |c.delays|
  {
    && s'.now == s.now && s'.rows == s.rows && s'.locks == s.locks[d := m] && SameWorld(s, s')
    && s'.msgs == s.msgs[m := Stalled(c, s, m, d, copy)][copy := RetryFor(c, s, m, d)]
  }

  function Stalled(c: Config, s: State, m: Id, d: Id, copy: Id): Envelope
    requires m in s.msgs && d in s.rows
  {
    Envelope(s.msgs[m].body, Staged(After(c, s, d, Response(500)), Replied(Response(500), s.now, Some(copy))))
  }

  function RetryFor(c: Config, s: State, m: Id, d: Id): Envelope
    requires m in s.msgs && s.msgs[m].body.Deliver? && d in s.rows && s.rows[d].attempts < |c.delays|
  {
    Envelope(Deliver(d, s.msgs[m].body.tenant, s.now + c.delays[s.rows[d].attempts] * SECOND), Queued)
  }

  /** One attempt, answered 500, up to its commit. */
  lemma FailOnce(c: Config, lag: Time, a: State, s: State, m: Id, d: Id, copy: Id) returns (s': State)
    requires Reaches(c, lag, a, s) && Poised(s, m, d) && s.rows[d].attempts < |c.delays| && copy !in s.msgs
    ensures Reaches(c, lag, a, s') && Failing(c, s, s', m, d, copy)
  {
    var s1 := Refuse(c, lag, a, s, m, d);
    s' := SendRetry(c, s1, m, copy);
    Then(c, lag, a, s1, Task(m, Retry(copy)), s');
    RetrySent(c, s, s1, m, d, copy);
  }

  lemma RetrySent(c: Config, s: State, s1: State, m: Id, d: Id, copy: Id)
    requires Poised(s, m, d) && s.rows[d].attempts < |c.delays| && copy !in s.msgs
    requires Tried(s, s1, m, d, Answered(After(c, s, d, Response(500)), Response(500), s.now))
    ensures Failing(c, s, SendRetry(c, s1, m, copy), m, d, copy)
  {
  }

  /** A staged attempt commits, promptly enough. */
  lemma Settle(c: Config, lag: Time, a: State, s: State, m: Id, d: Id) returns (s': State)
    requires Reaches(c, lag, a, s) && m in s.msgs && s.msgs[m].phase.Staged? && Prompt(s, Task(m, Commit), lag)
    requires s.msgs[m].body.Deliver? && s.msgs[m].body.delivery == d
    ensures Reaches(c, lag, a, s') && s'.now == s.now && s'.rows == s.rows[d := s.msgs[m].phase.row]
    ensures s'.locks == Remove(s.locks, d) && SameWorld(s, s') && s'.msgs == s.msgs[m := s.msgs[m].(phase := Finished)]
  {
    s' := CommitRow(s, m);
    Then(c, lag, a, s, Task(m, Commit), s');
  }

  // ----- one delivery, failing again and again -----

  /** One attempt of the only delivery, answered 500, up to its commit. */
  lemma PushOnce(c: Config, lag: Time, a: State, s: State, m: Id, k: nat) returns (s': State)
    requires Reaches(c, lag, a, s) && Ready(s, m, k) && k < |c.delays|
    ensures Reaches(c, lag, a, s') && Pushed(c, s', m, m + 1, k, s.now)
  {
    s' := FailOnce(c, lag, a, s, m, 0, m + 1);
  }

  /** The attempt commits at once, and time passes until the retry is due. */
  lemma RetryInTime(c: Config, lag: Time, a: State, s: State, m: Id, copy: Id, k: nat, at: Time) returns (s3: State)
    requires lag >= 0 && Reaches(c, lag, a, s) && Pushed(c, s, m, copy, k, at)
    ensures Reaches(c, lag, a, s3) && Ready(s3, copy, k + 1)
  {
    var s1 := CommitRow(s, m);
    Then(c, lag, a, s, Task(m, Commit), s1);
    var s2 := Drop(s1, m);
    Then(c, lag, a, s1, Task(m, Ack), s2);
    s3 := SetClock(s2, at + c.delays[k] * SECOND);
    Then(c, lag, a, s2, Tick(at + c.delays[k] * SECOND), s3);
  }

  /** The attempt stalls until its retry is due; the retry meets the lock and is acked for good. */
  lemma RetryLost(c: Config, lag: Time, a: State, s: State, m: Id, copy: Id, k: nat, at: Time) returns (s6: State)
    requires Reaches(c, lag, a, s) && Pushed(c, s, m, copy, k, at) && c.delays[k] * SECOND <= lag
    ensures Reaches(c, lag, a, s6) && !NothingForgotten(s6)
  {
    var due := at + c.delays[k] * SECOND;
    var s1 := SetClock(s, due);
    Then(c, lag, a, s, Tick(due), s1);
    var s2 := SetPhase(s1, copy, Received);
    Then(c, lag, a, s1, Task(copy, Start), s2);
    var s3 := ClaimRow(s2, copy);
    Then(c, lag, a, s2, Task(copy, Claim), s3);
    var s4 := Drop(s3, copy);
    Then(c, lag, a, s3, Task(copy, Ack), s4);
    var s5 := CommitRow(s4, m);
    Then(c, lag, a, s4, Task(m, Commit), s5);
    s6 := Drop(s5, m);
    Then(c, lag, a, s5, Task(m, Ack), s6);
    assert Waiting(s6, 0) && !Awake(s6, 0);
  }

  /** A tenant, an endpoint and an event whose fan-out message is queued. */
  lemma FirstEvent(c: Config, lag: Time, a: State) returns (s: State)
    requires a == Init(0)
    ensures Reaches(c, lag, a, s) && s.msgs == map[0 := Envelope(FanOut(0, 0), Queued)]
    ensures s.now == 0 && s.rows == map[] && s.locks == map[] && s.released == {}
    ensures 0 in s.events && s.events[0].tenant == 0 && s.events[0].kind == "kind" && 0 in s.tenants
    ensures s.endpoints == map[0 := Endpoint(0, "url", ["kind"], true)]
  {
    Stay(c, lag, a);
    var s1 := CreateTenant(a, 0, "secret");
    Then(c, lag, a, a, Admin(AddTenant(0, "secret")), s1);
    var s2 := CreateEndpoint(s1, 0, Endpoint(0, "url", ["kind"], true));
    Then(c, lag, a, s1, Admin(AddEndpoint(0, 0, "url", ["kind"])), s2);
    var s3 := AddCall(s2, 0, Call(0, None, "kind", "{}", Arrived));
    Then(c, lag, a, s2, Api(0, Arrive(0, None, "kind", "{}")), s3);
    var s4 := SetStage(s3, 0, Inserted(0));
    Then(c, lag, a, s3, Api(0, Insert(0)), s4);
    var s5 := CommitCall(s4, 0);
    Then(c, lag, a, s4, Api(0, CommitEvent), s5);
    s := SendFanOut(s5, 0, 0);
    Then(c, lag, a, s5, Api(0, DispatchEvent(0)), s);
  }

  /** Its fan-out has committed delivery 0 and is about to announce it. */
  lemma Announcing(c: Config, lag: Time, a: State) returns (s: State)
    requires a == Init(0)
    ensures Reaches(c, lag, a, s) && s.now == 0 && s.msgs == map[0 := Envelope(FanOut(0, 0), Sending([(0, 0)]))]
    ensures 0 in s.rows && s.rows[0] == NewDelivery(0, 0, 0, CREATED) && s.locks == map[] && s.released == {}
    ensures Resolves(s, s.rows[0], 0) && 0 in s.hist && s.hist[0] == []
  {
    var s0 := FirstEvent(c, lag, a);
    OneTarget(s0);
    s := InsertAll(c, lag, a, s0, [0]);
    assert WithTenant([0], 0) == [(0, 0)] && 0 in [0];
  }

  lemma FirstDelivery(c: Config, lag: Time) returns (s: State)
    ensures Reaches(c, lag, Init(0), s) && Ready(s, 1, 0) && 0 in s.hist && s.hist[0] == []
  {
    var a := Init(0);
    var s1 := Announcing(c, lag, a);
    var s2 := SendNext(s1, 0, 1);
    Then(c, lag, a, s1, Task(0, Send(1)), s2);
    s := Drop(s2, 0);
    Then(c, lag, a, s2, Task(0, Ack), s);
  }

  lemma OneTarget(s: State)
    requires 0 in s.events && s.events[0].tenant == 0 && s.events[0].kind == "kind"
    requires s.endpoints == map[0 := Endpoint(0, "url", ["kind"], true)]
    ensures IsTargets(s, 0, 0, [0])
  {
    assert "kind" in ["kind"] && 0 in [0];
  }

  const CREATED := DateTime(2026, 1, 1, 0, 0, 0, 0)

  lemma PlanAll(c: Config, lag: Time, a: State, s: State, ids: seq<Id>) returns (s': State)
    requires Reaches(c, lag, a, s) && s.msgs == map[0 := Envelope(FanOut(0, 0), Queued)] && IsTargets(s, 0, 0, ids)
    ensures Reaches(c, lag, a, s') && s' == s.(msgs := map[0 := Envelope(FanOut(0, 0), Planned(ids))])
  {
    var s1 := SetPhase(s, 0, Received);
    Then(c, lag, a, s, Task(0, Start), s1);
    s' := SetPhase(s1, 0, Planned(ids));
    assert IsTargets(s1, 0, 0, ids);
    Then(c, lag, a, s1, Task(0, Plan(ids)), s');
  }

  /** The first fan-out commits one delivery for each endpoint, under the endpoint's own id. */
  lemma InsertAll(c: Config, lag: Time, a: State, s: State, ids: seq<Id>) returns (s': State)
    requires Reaches(c, lag, a, s) && s.msgs == map[0 := Envelope(FanOut(0, 0), Queued)] && s.rows == map[]
    requires IsTargets(s, 0, 0, ids) && Distinct(ids)
    ensures Reaches(c, lag, a, s') && s'.now == s.now && s'.locks == s.locks && SameWorld(s, s')
    ensures s'.msgs == map[0 := Envelope(FanOut(0, 0), Sending(WithTenant(ids, 0)))]
    ensures forall d :: d in s'.rows <==> d in ids
    ensures forall d :: d in ids ==> s'.rows[d] == NewDelivery(0, d, 0, CREATED) && d in s'.hist && s'.hist[d] == []
  {
    var s1 := PlanAll(c, lag, a, s, ids);
    s' := InsertRows(s1, 0, ids, CREATED);
    Then(c, lag, a, s1, Task(0, Expand(ids, CREATED)), s');
    Grows(s1, 0, ids, CREATED);
    InsertedAll(s1, s', ids);
  }

  lemma InsertedAll(s: State, s': State, ids: seq<Id>)
    requires s.msgs == map[0 := Envelope(FanOut(0, 0), Planned(ids))] && s.rows == map[] && Distinct(ids)
    requires Grown(s, s', 0, ids, CREATED)
    ensures s'.msgs == map[0 := Envelope(FanOut(0, 0), Sending(WithTenant(ids, 0)))]
    ensures forall d :: d in s'.rows <==> d in ids
    ensures forall d :: d in ids ==> s'.rows[d] == NewDelivery(0, d, 0, CREATED) && d in s'.hist && s'.hist[d] == []
  {
    forall d | d in ids ensures d in s'.rows && s'.rows[d] == NewDelivery(0, d, 0, CREATED) {
      var i :| 0 <= i < |ids| && ids[i] == d;
    }
  }

  /** Any number of attempts can fail in time. */
  lemma {:induction false} FailTimes(c: Config, lag: Time, k: nat) returns (s: State, m: Id)
    requires lag >= 0 && k <= |c.delays|
    ensures Reaches(c, lag, Init(0), s) && Ready(s, m, k)
  {
    if k == 0 {
      s := FirstDelivery(c, lag);
      m := 1;
    } else {
      var s0, m0 := FailTimes(c, lag, k - 1);
      var s1 := PushOnce(c, lag, Init(0), s0, m0, k - 1);
      s := RetryInTime(c, lag, Init(0), s1, m0, m0 + 1, k - 1, s0.now);
      m := m0 + 1;
    }
  }

  /**
   Exactly how prompt: if retries are committed within `lag` of the recorded failure, no waiting
   delivery is ever forgotten, for any run, if and only if `lag` is below every retry delay.
   */
  lemma NeverForgottenIff(c: Config, lag: Time)
    requires lag >= 0
    ensures LagBelowDelays(c, lag) <==> forall t, s :: Reaches(c, lag, Init(t), s) ==> NothingForgotten(s)
  {
    if LagBelowDelays(c, lag) {
      forall t, s | Reaches(c, lag, Init(t), s) ensures NothingForgotten(s) {
        NeverForgotten(c, lag, t, s);
      }
    } else {
      var k :| 0 <= k < |c.delays| && c.delays[k] * SECOND <= lag;
      var s0, m := FailTimes(c, lag, k);
      var s1 := PushOnce(c, lag, Init(0), s0, m, k);
      var s2 := RetryLost(c, lag, Init(0), s1, m, m + 1, k, s0.now);
    }
  }
}
