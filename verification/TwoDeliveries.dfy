/** Runs with two deliveries of one event: the witnesses for recovery's properties. */
module TwoDeliveries {
  import opened Types
  import opened Rules
  import opened Protocol
  import opened Coverage
  import opened StalledCommit

  const HOOK := Endpoint(0, "url", ["kind"], true)

  lemma TwoTargets(s: State)
    requires 0 in s.events && s.events[0].tenant == 0 && s.events[0].kind == "kind"
    requires s.endpoints == map[0 := HOOK, 1 := HOOK]
    ensures IsTargets(s, 0, 0, [0, 1])
  {
    assert "kind" in ["kind"] && 0 in [0, 1] && 1 in [0, 1];
  }

  /** The table holds deliveries 0 and 1 and no others. */
  ghost predicate Pair(rows: map<Id, Delivery>, r0: Delivery, r1: Delivery) {
    (forall d :: d in rows <==> d == 0 || d == 1) && rows[0] == r0 && rows[1] == r1
  }

  /** An event of a tenant with two endpoints, fanned out to deliveries 0 and 1. */
  lemma TwoInserted(c: Config, lag: Time) returns (s: State)
    ensures Reaches(c, lag, Init(0), s) && s.now == 0 && s.locks == map[] && s.released == {}
    ensures s.msgs == map[0 := Envelope(FanOut(0, 0), Sending([(0, 0), (1, 0)]))]
    ensures Pair(s.rows, NewDelivery(0, 0, 0, CREATED), NewDelivery(0, 1, 0, CREATED))
    ensures Resolves(s, s.rows[0], 0) && Resolves(s, s.rows[1], 0)
  {
    var a := Init(0);
    var s0 := FirstEvent(c, lag, a);
    var s1 := CreateEndpoint(s0, 1, HOOK);
    Then(c, lag, a, s0, Admin(AddEndpoint(1, 0, "url", ["kind"])), s1);
    TwoTargets(s1);
    s := InsertAll(c, lag, a, s1, [0, 1]);
    assert WithTenant([0, 1], 0) == [(0, 0), (1, 0)] && 0 in [0, 1] && 1 in [0, 1];
  }

  /** Both deliveries announced, by messages 1 and 2. */
  lemma TwoPoised(c: Config, lag: Time) returns (s: State)
    ensures Reaches(c, lag, Init(0), s) && s.now == 0 && s.locks == map[]
    ensures s.msgs == map[1 := Envelope(Deliver(0, 0, 0), Queued), 2 := Envelope(Deliver(1, 0, 0), Queued)]
    ensures Pair(s.rows, NewDelivery(0, 0, 0, CREATED), NewDelivery(0, 1, 0, CREATED))
    ensures Poised(s, 1, 0) && Poised(s, 2, 1)
  {
    var a := Init(0);
    var s0 := TwoInserted(c, lag);
    var s1 := SendNext(s0, 0, 1);
    Then(c, lag, a, s0, Task(0, Send(1)), s1);
    var s2 := SendNext(s1, 0, 2);
    Then(c, lag, a, s1, Task(0, Send(2)), s2);
    s := Drop(s2, 0);
    Then(c, lag, a, s2, Task(0, Ack), s);
  }

  /** A delivery created by the fan-out, after a first attempt answered 500 at time 0. */
  function Refused(c: Config, d: Id): Delivery
    requires c.delays != []
  {
    Classify(c.delays, Begin(NewDelivery(0, d, 0, CREATED)), Response(500), 0)
  }

  function StalledAt(c: Config, d: Id, copy: Id): Envelope
    requires c.delays != []
  {
    Envelope(Deliver(d, 0, 0), Staged(Refused(c, d), Replied(Response(500), 0, Some(copy))))
  }

  function RetryAt(c: Config, d: Id): Envelope
    requires c.delays != []
  {
    Envelope(Deliver(d, 0, c.delays[0] * SECOND), Queued)
  }

  /** Both first attempts have failed at time 0 and sent their retries 3 and 4; neither has committed. */
  lemma TwoFailing(c: Config, lag: Time) returns (s: State)
    requires c.delays != []
    ensures Reaches(c, lag, Init(0), s) && s.now == 0 && s.locks == map[0 := 1, 1 := 2]
    ensures Pair(s.rows, NewDelivery(0, 0, 0, CREATED), NewDelivery(0, 1, 0, CREATED))
    ensures s.msgs == map[1 := StalledAt(c, 0, 3), 2 := StalledAt(c, 1, 4), 3 := RetryAt(c, 0), 4 := RetryAt(c, 1)]
    ensures Resolves(s, s.rows[0], 0) && Resolves(s, s.rows[1], 0)
  {
    var s0 := TwoPoised(c, lag);
    var s1 := FailOnce(c, lag, Init(0), s0, 1, 0, 3);
    s := FailOnce(c, lag, Init(0), s1, 2, 1, 4);
  }
}
