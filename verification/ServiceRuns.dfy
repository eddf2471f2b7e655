/**
 The service functions and the step system are one: an execution of the delivery task that nothing
 interrupts, as the service function performs it, is a run of the step system.
 */
module ServiceRuns {
  import opened Types
  import opened Rules
  import opened Lifecycle
  import opened Protocol
  import opened Invariant
  import opened Store
  import opened Sorting
  import opened DeliveryService

  /** Some run leads from `a` to `b`. */
  ghost predicate Leads(c: Config, a: State, b: State) {
    exists states, steps :: Run(c, states, steps) && states[0] == a && states[|steps|] == b
  }

  lemma StandStill(c: Config, a: State)
    ensures Leads(c, a, a)
  {
    assert Run(c, [a], []);
  }

  lemma Onward(c: Config, a: State, b: State, step: Step, b': State)
    requires Leads(c, a, b) && Next(c, b, step, b')
    ensures Leads(c, a, b')
  {
    var states, steps :| Run(c, states, steps) && states[0] == a && states[|steps|] == b;
    var states', steps' := states + [b'], steps + [step];
    forall i | 0 <= i < |steps'| ensures Next(c, states'[i], steps'[i], states'[i + 1]) {
      assert i < |steps| ==> steps'[i] == steps[i];
    }
    assert Run(c, states', steps') && states'[0] == a && states'[|steps'|] == b';
  }

  function Committed(s: State): Tables {
    Tables(s.tenants, s.endpoints, s.events, s.rows)
  }

  function DoneBy(s: State, m: Id): map<Id, Envelope>
    requires m in s.msgs
  {
    s.msgs[m := s.msgs[m].(phase := Finished)]
  }

  function PastOf(s: State, d: Id): seq<Obs> {
    if d in s.hist then s.hist[d] else []
  }

  predicate Receives(s: State, m: Id, id: Id, tenant: Id) {
    m in s.msgs && s.msgs[m].phase.Received? && s.msgs[m].body.Deliver?
    && s.msgs[m].body.delivery == id && s.msgs[m].body.tenant == tenant
  }

  /** The claim finds nothing. */
  lemma NoopRun(c: Config, s: State, m: Id, id: Id, tenant: Id, at: Time) returns (s': State)
    requires Receives(s, m, id, tenant) && s.now <= at && !Claims(Committed(s), s.locks.Keys, id, tenant, at)
    ensures Leads(c, s, s') && s'.rows == s.rows && s'.msgs == DoneBy(s, m) && PastOf(s', id) == PastOf(s, id)
  {
    var s1 := SetClock(s, at);
    s' := ClaimRow(s1, m);
    StandStill(c, s);
    Onward(c, s, s, Tick(at), s1);
    Onward(c, s, s1, Task(m, Claim), s');
  }

  /** Execution `m` has claimed row `r` and knows where to go next. */
  predicate Ready(s: State, s': State, m: Id, id: Id, at: Time, p: Phase)
    requires m in s.msgs
  {
    && s'.now == at && s'.rows == s.rows && s'.msgs == s.msgs[m := s.msgs[m].(phase := p)]
    && s'.hist == s.hist[id := PastOf(s, id) + [Took(m, at)]]
  }

  lemma ClaimRun(c: Config, s: State, m: Id, id: Id, tenant: Id, at: Time) returns (s': State)
    requires Receives(s, m, id, tenant) && s.now <= at && Claims(Committed(s), s.locks.Keys, id, tenant, at)
    ensures Leads(c, s, s') && Ready(s, s', m, id, at, Reads(s, s.rows[id], tenant))
  {
    var s1 := SetClock(s, at);
    var s2 := ClaimRow(s1, m);
    s' := SetPhase(s2, m, Reads(s2, s.rows[id], tenant));
    StandStill(c, s);
    Onward(c, s, s, Tick(at), s1);
    Onward(c, s, s1, Task(m, Claim), s2);
    Onward(c, s, s2, Task(m, Bind), s');
  }

  lemma CommitRun(c: Config, a: State, s: State, m: Id, id: Id) returns (s': State)
    requires Leads(c, a, s) && m in s.msgs && s.msgs[m].body.Deliver? && s.msgs[m].body.delivery == id
    requires s.msgs[m].phase.Staged?
    ensures Leads(c, a, s') && s'.rows == s.rows[id := s.msgs[m].phase.row]
    ensures s'.msgs == DoneBy(s, m) && PastOf(s', id) == PastOf(s, id) + [Wrote(m, s.now, s.msgs[m].phase.row)]
  {
    s' := CommitRow(s, m);
    Onward(c, a, s, Task(m, Commit), s');
  }

  lemma SendRun(c: Config, a: State, s: State, m: Id, id: Id, r: Delivery, post: Webhook, at: Time) returns (s': State)
    requires Leads(c, a, s) && m in s.msgs && s.msgs[m].body.Deliver? && s.msgs[m].body.delivery == id
    requires s.msgs[m].phase == Bound(r, post) && s.now <= at
    ensures Leads(c, a, s') && s'.now == at && s'.rows == s.rows
    ensures s'.msgs == s.msgs[m := s.msgs[m].(phase := InFlight(Begin(r), post))]
    ensures PastOf(s', id) == PastOf(s, id) + [Posted(m, s.now, r.attempts + 1, post)]
  {
    var s1 := SendPost(s, m);
    s' := SetClock(s1, at);
    Onward(c, a, s, Task(m, Post), s1);
    Onward(c, a, s1, Tick(at), s');
  }

  /** From the bound request to its answer. */
  lemma PostRun(c: Config, a: State, s: State, m: Id, id: Id, r: Delivery, post: Webhook, answer: Answer, at: Time)
    returns (s': State)
    requires Leads(c, a, s) && m in s.msgs && s.msgs[m].body.Deliver? && s.msgs[m].body.delivery == id
    requires s.msgs[m].phase == Bound(r, post) && s.now <= at
    ensures Leads(c, a, s') && s'.now == at && s'.rows == s.rows
    ensures var r' := Classify(c.delays, Begin(r), answer, at);
            s'.msgs == s.msgs[m := s.msgs[m].(phase :=
              if r'.status == Pending then Answered(r', answer, at) else Staged(r', Replied(answer, at, None)))]
    ensures PastOf(s', id) == PastOf(s, id) + [Posted(m, s.now, r.attempts + 1, post), Heard(m, at, answer)]
  {
    var s1 := SendRun(c, a, s, m, id, r, post, at);
    s' := TakeAnswer(c, s1, m, answer);
    Onward(c, a, s1, Task(m, Hear(answer)), s');
  }

  lemma RetryRun(c: Config, a: State, s: State, m: Id, id: Id, copy: Id, at: Time) returns (s': State)
    requires Leads(c, a, s) && m in s.msgs && s.msgs[m].body.Deliver? && s.msgs[m].body.delivery == id
    requires s.msgs[m].phase.Answered? && 1 <= s.msgs[m].phase.row.attempts <= |c.delays| && copy !in s.msgs
    requires s.now <= at
    ensures Leads(c, a, s') && s'.rows == s.rows && PastOf(s', id) == PastOf(s, id)
    ensures var p := s.msgs[m].phase; var due := at + c.delays[p.row.attempts - 1] * SECOND;
            s'.msgs == s.msgs[m := s.msgs[m].(phase := Staged(p.row, Replied(p.answer, p.at, Some(copy))))]
                             [copy := Envelope(Deliver(id, s.msgs[m].body.tenant, due), Queued)]
  {
    var s1 := SetClock(s, at);
    s' := SendRetry(c, s1, m, copy);
    Onward(c, a, s, Tick(at), s1);
    Onward(c, a, s1, Task(m, Retry(copy)), s');
  }

  lemma RetryCommitRun(c: Config, a: State, s: State, m: Id, id: Id, copy: Id, at: Time) returns (s': State)
    requires Leads(c, a, s) && m in s.msgs && s.msgs[m].body.Deliver? && s.msgs[m].body.delivery == id
    requires s.msgs[m].phase.Answered? && 1 <= s.msgs[m].phase.row.attempts <= |c.delays| && copy !in s.msgs
    requires s.now <= at
    ensures Leads(c, a, s') && s'.rows == s.rows[id := s.msgs[m].phase.row]
    ensures var due := at + c.delays[s.msgs[m].phase.row.attempts - 1] * SECOND;
            s'.msgs == DoneBy(s, m)[copy := Envelope(Deliver(id, s.msgs[m].body.tenant, due), Queued)]
    ensures exists wrote: Obs :: wrote.Wrote? && PastOf(s', id) == PastOf(s, id) + [wrote]
  {
    var s1 := RetryRun(c, a, s, m, id, copy, at);
    s' := CommitRun(c, a, s1, m, id);
  }

  /** The queue with the message a service call leaves in it, if any. */
  function WithSent(msgs: map<Id, Envelope>, copy: Id, sent: seq<Message>): map<Id, Envelope> {
    if |sent| == 0 then msgs else msgs[copy := Envelope(sent[0], Queued)]
  }

  /** From a recorded answer to the commit, by way of the retry message if there is one. */
  lemma SettleRun(c: Config, a: State, s: State, m: Id, id: Id, r: Delivery, copy: Id, at: Time) returns (s': State)
    requires Leads(c, a, s) && m in s.msgs && s.msgs[m].body.Deliver? && s.msgs[m].body.delivery == id
    requires copy !in s.msgs && s.now <= at && (r.status == Pending ==> 1 <= r.attempts <= |c.delays|)
    requires if r.status == Pending then s.msgs[m].phase.Answered? else s.msgs[m].phase.Staged?
    requires s.msgs[m].phase.row == r
    ensures Leads(c, a, s') && s'.rows == s.rows[id := r]
    ensures s'.msgs == WithSent(DoneBy(s, m), copy, RetryOf(c.delays, id, s.msgs[m].body.tenant, r, at))
    ensures exists wrote: Obs :: wrote.Wrote? && PastOf(s', id) == PastOf(s, id) + [wrote]
  {
    if r.status == Pending {
      s' := RetryCommitRun(c, a, s, m, id, copy, at);
    } else {
      s' := CommitRun(c, a, s, m, id);
    }
  }

  /** The attempt after the claim: request, answer, retry if there is one, commit. */
  lemma AttemptRun(c: Config, s: State, s1: State, m: Id, id: Id, tenant: Id, input: Inputs, copy: Id)
    returns (s': State)
    requires Receives(s, m, id, tenant) && copy !in s.msgs && input.claimAt <= input.heardAt <= input.sentAt
    requires Claims(Committed(s), s.locks.Keys, id, tenant, input.claimAt) && Resolves(s, s.rows[id], tenant)
    requires Leads(c, s, s1) && Ready(s, s1, m, id, input.claimAt, Reads(s, s.rows[id], tenant))
    ensures var effect := DeliverOnce(c.delays, Committed(s), s.locks.Keys, id, tenant, input);
            && Leads(c, s, s') && s'.rows == effect.rows && |effect.sent| <= 1
            && s'.msgs == WithSent(DoneBy(s, m), copy, effect.sent)
            && effect.post.Some? && Requests(PastOf(s', id)) == Requests(PastOf(s, id)) + [effect.post.value]
  {
    var r := s.rows[id]; var post := s1.msgs[m].phase.post;
    var s2 := PostRun(c, s, s1, m, id, r, post, input.answer, input.heardAt);
    s' := SettleRun(c, s, s2, m, id, Classify(c.delays, Begin(r), input.answer, input.heardAt), copy, input.sentAt);
    assert DoneBy(s2, m) == DoneBy(s, m);
    OnePost(PastOf(s, id), Took(m, input.claimAt), PastOf(s1, id), post, PastOf(s2, id), PastOf(s', id));
  }

  /** The requests sent for a row, in order. */
  function Requests(h: seq<Obs>): seq<Webhook> {
    if h == [] then [] else Requests(h[..|h| - 1]) + if h[|h| - 1].Posted? then [h[|h| - 1].request] else []
  }

  lemma OneMore(h: seq<Obs>, o: Obs)
    ensures Requests(h + [o]) == Requests(h) + if o.Posted? then [o.request] else []
  {
    assert (h + [o])[..|h|] == h;
  }

  lemma OnePost(h: seq<Obs>, took: Obs, h1: seq<Obs>, post: Webhook, h2: seq<Obs>, h3: seq<Obs>)
    requires took.Took? && h1 == h + [took]
    requires exists posted: Obs, heard: Obs ::
               posted.Posted? && posted.request == post && heard.Heard? && h2 == h1 + [posted, heard]
    requires exists wrote: Obs :: wrote.Wrote? && h3 == h2 + [wrote]
    ensures Requests(h3) == Requests(h) + [post]
  {
    var posted: Obs, heard: Obs :|
      posted.Posted? && posted.request == post && heard.Heard? && h2 == h1 + [posted, heard];
    var wrote: Obs :| wrote.Wrote? && h3 == h2 + [wrote];
    assert h1 + [posted, heard] == h1 + [posted] + [heard];
    OneMore(h, took);
    OneMore(h1, posted);
    OneMore(h1 + [posted], heard);
    OneMore(h2, wrote);
  }

  /**
   An uninterrupted service call is a run: same table, same messages, and the same request sent,
   or none.
   */
  lemma DeliverOnceIsRun(c: Config, s: State, m: Id, id: Id, tenant: Id, input: Inputs, copy: Id) returns (s': State)
    requires Receives(s, m, id, tenant) && copy !in s.msgs
    requires s.now <= input.claimAt <= input.heardAt <= input.sentAt
    ensures var effect := DeliverOnce(c.delays, Committed(s), s.locks.Keys, id, tenant, input);
            && Leads(c, s, s') && s'.rows == effect.rows && |effect.sent| <= 1
            && s'.msgs == WithSent(DoneBy(s, m), copy, effect.sent)
            && Requests(PastOf(s', id)) == Requests(PastOf(s, id))
                 + (if effect.post.Some? then [effect.post.value] else [])
  {
    if !Claims(Committed(s), s.locks.Keys, id, tenant, input.claimAt) {
      s' := NoopRun(c, s, m, id, tenant, input.claimAt);
    } else {
      var s1 := ClaimRun(c, s, m, id, tenant, input.claimAt);
      if Resolves(s, s.rows[id], tenant) {
        s' := AttemptRun(c, s, s1, m, id, tenant, input, copy);
      } else {
        s' := CommitRun(c, s, s1, m, id);
        OneMore(PastOf(s, id), Took(m, input.claimAt));
        OneMore(PastOf(s1, id), Wrote(m, s1.now, GiveUp(s.rows[id])));
      }
    }
  }

  // ----- fan-out and recovery -----

  /** `s'` is `s` with the messages `sent` added to the queue under the ids `copies`, and `m` done. */
  ghost predicate Queues(s: State, s': State, m: Id, copies: seq<Id>, sent: seq<Message>) {
    && |sent| == |copies| && m in s'.msgs && Ackable(s'.msgs[m].phase)
    && (forall x :: x in s'.msgs <==> x in s.msgs || x in copies)
    && (forall x :: x in s.msgs && x != m ==> x in s'.msgs && s'.msgs[x] == s.msgs[x])
    && (forall i :: 0 <= i < |copies| ==> copies[i] in s'.msgs && s'.msgs[copies[i]] == Envelope(sent[i], Queued))
  }

  function Messages(todo: seq<(Id, Id)>, at: Time): seq<Message> {
    seq(|todo|, i requires 0 <= i < |todo| => Deliver(todo[i].0, todo[i].1, at))
  }

  lemma {:induction false} SendAllRun(c: Config, a: State, s: State, m: Id, todo: seq<(Id, Id)>, copies: seq<Id>)
    returns (s': State)
    requires Leads(c, a, s) && m in s.msgs && s.msgs[m].phase == Sending(todo)
    requires |copies| == |todo| && Distinct(copies) && forall x :: x in copies ==> x !in s.msgs
    ensures Leads(c, a, s') && s'.rows == s.rows && Queues(s, s', m, copies, Messages(todo, s.now))
    decreases |todo|
  {
    s' := s;
    if todo != [] {
      var s1 := SendNext(s, m, copies[0]);
      Onward(c, a, s, Task(m, Send(copies[0])), s1);
      TailFresh(s, m, copies);
      s' := SendAllRun(c, a, s1, m, todo[1..], copies[1..]);
      QueuesOne(s, s1, s', m, todo, copies);
    }
  }

  lemma TailFresh(s: State, m: Id, copies: seq<Id>)
    requires m in s.msgs && s.msgs[m].phase.Sending? && s.msgs[m].phase.todo != []
    requires copies != [] && Distinct(copies) && forall x :: x in copies ==> x !in s.msgs
    ensures Distinct(copies[1..]) && forall x :: x in copies[1..] ==> x !in SendNext(s, m, copies[0]).msgs
  {
    assert copies == [copies[0]] + copies[1..];
    assert forall i :: 0 <= i < |copies[1..]| ==> copies[1..][i] == copies[i + 1] && copies[i + 1] in copies;
  }

  lemma QueuesOne(s: State, s1: State, s': State, m: Id, todo: seq<(Id, Id)>, copies: seq<Id>)
    requires m in s.msgs && s.msgs[m].phase == Sending(todo) && todo != [] && |copies| == |todo|
    requires Distinct(copies) && forall x :: x in copies ==> x !in s.msgs
    requires s1 == SendNext(s, m, copies[0]) && Queues(s1, s', m, copies[1..], Messages(todo[1..], s.now))
    ensures Queues(s, s', m, copies, Messages(todo, s.now))
  {
    assert copies == [copies[0]] + copies[1..];
    forall i | 0 <= i < |copies|
      ensures copies[i] in s'.msgs && s'.msgs[copies[i]] == Envelope(Messages(todo, s.now)[i], Queued)
    {
      if i == 0 {
        assert copies[0] in s1.msgs && copies[0] != m;
      } else {
        assert copies[1..][i - 1] == copies[i];
      }
    }
  }

  /** The endpoints an event is fanned out to; none if the tenant has no such event. */
  function TargetsOf(t: Tables, event: Id, tenant: Id): seq<Id> {
    if event in t.events && t.events[event].tenant == tenant then
      MatchingEndpoints(t.endpoints, tenant, t.events[event].kind)
    else []
  }

  lemma PlanRun(c: Config, s: State, m: Id, event: Id, tenant: Id) returns (s': State)
    requires m in s.msgs && s.msgs[m] == Envelope(FanOut(event, tenant), Received)
    ensures Leads(c, s, s') && s' == SetPhase(s, m, Planned(TargetsOf(Committed(s), event, tenant)))
  {
    var targets := TargetsOf(Committed(s), event, tenant);
    if event in s.events {
      MatchingAreMatched(s.endpoints, tenant, s.events[event].kind);
    }
    s' := SetPhase(s, m, Planned(targets));
    StandStill(c, s);
    Onward(c, s, s, Task(m, Plan(targets)), s');
  }

  lemma ExpandRun(c: Config, a: State, s: State, m: Id, event: Id, tenant: Id, targets: seq<Id>, ids: seq<Id>,
                  created: DateTime)
    returns (s': State)
    requires Leads(c, a, s) && m in s.msgs && s.msgs[m] == Envelope(FanOut(event, tenant), Planned(targets))
    requires |ids| == |targets| && Distinct(ids) && forall d :: d in ids ==> d !in s.rows
    ensures Leads(c, a, s') && s'.now == s.now && FannedOut(s.rows, s'.rows, event, tenant, targets, ids, created)
    ensures s'.msgs == s.msgs[m := Envelope(FanOut(event, tenant), Sending(WithTenant(ids, tenant)))]
  {
    s' := InsertRows(s, m, ids, created);
    Onward(c, a, s, Task(m, Expand(ids, created)), s');
    Grows(s, m, ids, created);
    GrownFansOut(s, s', m, ids, created);
  }

  /** The rows a fan-out commits are those the service function inserts. */
  lemma GrownFansOut(s: State, s': State, m: Id, ids: seq<Id>, created: DateTime)
    requires m in s.msgs && s.msgs[m].body.FanOut? && s.msgs[m].phase.Planned? && Grown(s, s', m, ids, created)
    ensures var b := s.msgs[m].body;
            && FannedOut(s.rows, s'.rows, b.event, b.tenant, s.msgs[m].phase.targets, ids, created)
            && s'.msgs == s.msgs[m := Envelope(b, Sending(WithTenant(ids, b.tenant)))] && s'.now == s.now
  {
    assert forall i :: 0 <= i < |ids| ==> ids[i] in ids;
  }

  /** An uninterrupted fan-out by the service function is a run. */
  lemma FanOutIsRun(c: Config, s: State, m: Id, event: Id, tenant: Id, ids: seq<Id>, created: DateTime, copies: seq<Id>)
    returns (s': State)
    requires m in s.msgs && s.msgs[m] == Envelope(FanOut(event, tenant), Received)
    requires var targets := TargetsOf(Committed(s), event, tenant);
             |ids| == |targets| && Distinct(ids) && forall d :: d in ids ==> d !in s.rows
    requires |copies| == |ids| && Distinct(copies) && forall x :: x in copies ==> x !in s.msgs
    ensures Leads(c, s, s')
    ensures FannedOut(s.rows, s'.rows, event, tenant, TargetsOf(Committed(s), event, tenant), ids, created)
    ensures Queues(s, s', m, copies, Announcements(ids, tenant, s.now))
  {
    var s1 := PlanRun(c, s, m, event, tenant);
    var s2 := ExpandRun(c, s, s1, m, event, tenant, TargetsOf(Committed(s), event, tenant), ids, created);
    s' := SendAllRun(c, s, s2, m, WithTenant(ids, tenant), copies);
    assert Messages(WithTenant(ids, tenant), s.now) == Announcements(ids, tenant, s.now);
  }

  /** An uninterrupted recovery by the service function is a run, and leaves the table alone. */
  lemma RecoveryIsRun(c: Config, s: State, m: Id, picked: seq<Id>, copies: seq<Id>) returns (s': State)
    requires m in s.msgs && s.msgs[m] == Envelope(Recover, Received) && IsScan(s.rows, s.now, c.batch, picked)
    requires |copies| == |picked| && Distinct(copies) && forall x :: x in copies ==> x !in s.msgs
    ensures Leads(c, s, s') && s'.rows == s.rows && Queues(s, s', m, copies, Requeued(s.rows, picked, s.now))
  {
    var s1 := SetPhase(s, m, Sending(WithTenants(s.rows, picked)));
    StandStill(c, s);
    Onward(c, s, s, Task(m, Scan(picked)), s1);
    s' := SendAllRun(c, s, s1, m, WithTenants(s.rows, picked), copies);
    assert Messages(WithTenants(s.rows, picked), s.now) == Requeued(s.rows, picked, s.now);
  }
}
