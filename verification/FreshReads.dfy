/** How fresh a request is: it is built from one reading between the claim and the POST. */
module FreshReads {
  import opened Types
  import opened Rules
  import opened Protocol
  import opened Invariant
  import opened BoundedWork
  import opened Stranded

  /** Step `i` is the last reading of execution `m` before step `j`. */
  predicate LastRead(steps: seq<Step>, m: Id, i: nat, j: nat) {
    i < j <= |steps| && steps[i] == Task(m, Bind) && forall k :: i < k < j ==> steps[k] != Task(m, Bind)
  }

  /** In state `s` execution `m` is about to read for its claimed row, and finds all it needs. */
  predicate Reading(s: State, m: Id) {
    && m in s.msgs && s.msgs[m].body.Deliver? && s.msgs[m].phase.Claimed?
    && Resolves(s, s.msgs[m].phase.row, s.msgs[m].body.tenant)
  }

  /** The request the reading gives. */
  function ReadRequest(s: State, m: Id): Webhook
    requires Reading(s, m)
  {
    var r := s.msgs[m].phase.row;
    Request(s.endpoints[r.endpoint], r.event, s.events[r.event], s.tenants[s.msgs[m].body.tenant])
  }

  /** Execution `m` holds the request it read in state `s`. */
  predicate HoldsReading(s: State, s': State, m: Id) {
    && Reading(s, m) && m in s'.msgs && s'.msgs[m].body == s.msgs[m].body
    && s'.msgs[m].phase == Bound(s.msgs[m].phase.row, ReadRequest(s, m))
  }

  /** A request is held because it was held before, or because it has just been read. */
  lemma StepReads(c: Config, s: State, step: Step, s': State, m: Id)
    requires Next(c, s, step, s') && m in s'.msgs && s'.msgs[m].phase.Bound?
    ensures if step == Task(m, Bind) then HoldsReading(s, s', m) else m in s.msgs && s'.msgs[m] == s.msgs[m]
  {
    if step.Task? && step.m == m {
      OwnReads(c, s, m, step.act, s');
    } else {
      OthersKept(c, s, step, s', m);
    }
  }

  lemma OwnReads(c: Config, s: State, m: Id, act: Act, s': State)
    requires Acts(c, s, m, act, s') && m in s'.msgs && s'.msgs[m].phase.Bound?
    ensures act.Bind? && HoldsReading(s, s', m)
  {
  }

  /** Whoever holds a request read it in its last reading. */
  lemma {:induction false} ReadBefore(c: Config, states: seq<State>, steps: seq<Step>, t: Time, m: Id, j: nat)
    returns (i: nat)
    requires Run(c, states, steps) && states[0] == Init(t) && j <= |steps|
    requires m in states[j].msgs && states[j].msgs[m].phase.Bound?
    ensures LastRead(steps, m, i, j) && HoldsReading(states[i], states[j], m)
  {
    StepReads(c, states[j - 1], steps[j - 1], states[j], m);
    if steps[j - 1] == Task(m, Bind) {
      i := j - 1;
    } else {
      i := ReadBefore(c, states, steps, t, m, j - 1);
    }
  }

  /**
   Every POST of every run is the request of its execution's last reading: to the URL the endpoint,
   then active, had at that moment, with that event and that tenant's secret; and it is what the
   delivery's history records.
   */
  lemma PostIsLastReading(c: Config, states: seq<State>, steps: seq<Step>, t: Time, m: Id, j: nat) returns (i: nat)
    requires Run(c, states, steps) && states[0] == Init(t) && j < |steps| && steps[j] == Task(m, Post)
    ensures LastRead(steps, m, i, j) && Reading(states[i], m)
    ensures m in states[j].msgs && states[j].msgs[m].body == states[i].msgs[m].body
    ensures var d := states[i].msgs[m].body.delivery; var h := states[j + 1].hist;
            && d in h && h[d] != [] && h[d][|h[d]| - 1].Posted?
            && h[d][|h[d]| - 1].who == m && h[d][|h[d]| - 1].request == ReadRequest(states[i], m)
    ensures var s := states[i]; var r, tenant := s.msgs[m].phase.row, s.msgs[m].body.tenant;
            && r.endpoint in s.endpoints && s.endpoints[r.endpoint].active && s.endpoints[r.endpoint].tenant == tenant
            && r.event in s.events && s.events[r.event].tenant == tenant && tenant in s.tenants
            && ReadRequest(s, m) == Webhook(s.endpoints[r.endpoint].url, r.event, s.events[r.event].kind,
                                            s.events[r.event].payload,
                                            Signature(s.tenants[tenant], s.events[r.event].payload))
  {
    var s, s' := states[j], states[j + 1];
    assert Next(c, s, steps[j], s');
    i := ReadBefore(c, states, steps, t, m, j);
    PostRecorded(c, s, m, s');
  }

  /**
   What the reading decides: the execution goes on to its POST if endpoint, event and tenant are all
   there, and else stages the row as failed and otherwise as it was.
   */
  lemma ReadingDecides(c: Config, s: State, m: Id, s': State)
    requires Next(c, s, Task(m, Bind), s')
    ensures m in s.msgs && m in s'.msgs && s.msgs[m].body.Deliver? && s.msgs[m].phase.Claimed?
    ensures var r, tenant := s.msgs[m].phase.row, s.msgs[m].body.tenant; var p := s'.msgs[m].phase;
            var found :=
              && r.endpoint in s.endpoints && s.endpoints[r.endpoint].active && s.endpoints[r.endpoint].tenant == tenant
              && r.event in s.events && s.events[r.event].tenant == tenant && tenant in s.tenants;
            && (found ==> p.Bound?)
            && (!found ==>
                  && p.Staged? && p.cause.Missing?
                  && p.row ==
                       Delivery(r.event, r.endpoint, r.tenant, r.created, Failed, r.attempts, r.nextRetry, r.code))
  {
  }

  lemma PostRecorded(c: Config, s: State, m: Id, s': State)
    requires Acts(c, s, m, Post, s')
    ensures m in s.msgs && s.msgs[m].body.Deliver? && s.msgs[m].phase.Bound?
    ensures var d := s.msgs[m].body.delivery; var h := s'.hist;
            && d in h && h[d] != [] && h[d][|h[d]| - 1].Posted?
            && h[d][|h[d]| - 1].who == m && h[d][|h[d]| - 1].request == s.msgs[m].phase.post
  {
  }

  // ----- edits -----

  /** The step commits an edit of endpoint `e`. */
  predicate EditsEndpoint(s: State, step: Step, e: Id) {
    step.Admin? && step.change.CommitEdit? && step.change.q in s.edits && s.edits[step.change.q].endpoint == e
  }

  /** An endpoint is only ever changed by the commit of an edit of its own. */
  lemma EndpointStays(c: Config, s: State, step: Step, s': State, e: Id)
    requires Next(c, s, step, s') && e in s.endpoints && !EditsEndpoint(s, step, e)
    ensures e in s'.endpoints && s'.endpoints[e] == s.endpoints[e]
  {
    if step.Api? {
      SameEndpoints(s, step.r, step.move, s');
    } else if step.Admin? {
      ChangeLeaves(s, step.change, s', e);
    } else {
      WorkSameApi(c, s, step, s');
    }
  }

  lemma ChangeLeaves(s: State, change: Change, s': State, e: Id)
    requires Changes(s, change, s') && e in s.endpoints && !EditsEndpoint(s, Admin(change), e)
    ensures e in s'.endpoints && s'.endpoints[e] == s.endpoints[e]
  {
  }

  lemma {:induction false} EndpointStaysFor(c: Config, states: seq<State>, steps: seq<Step>, i: nat, j: nat, e: Id)
    requires Run(c, states, steps) && i <= j <= |steps| && e in states[i].endpoints
    requires forall k {:trigger steps[k]} :: i <= k < j ==> !EditsEndpoint(states[k], steps[k], e)
    ensures e in states[j].endpoints && states[j].endpoints[e] == states[i].endpoints[e]
  {
    if i < j {
      EndpointStaysFor(c, states, steps, i, j - 1, e);
      EndpointStays(c, states[j - 1], steps[j - 1], states[j], e);
    }
  }

  /** Step `k` commits an edit that gives endpoint `e` the URL `url`. */
  predicate SetsUrl(s: State, step: Step, e: Id, url: string) {
    EditsEndpoint(s, step, e) && s.edits[step.change.q].Update? && s.edits[step.change.q].url == Some(url)
  }

  /**
   Edits take effect: if the last edit of the endpoint committed before an execution's last reading
   set its URL, the POST goes there, and nowhere the endpoint was before.
   */
  lemma PostFollowsEdit(c: Config, states: seq<State>, steps: seq<Step>, t: Time, m: Id, k: nat, i: nat, j: nat, e: Id,
                        url: string)
    requires Run(c, states, steps) && states[0] == Init(t) && j < |steps| && steps[j] == Task(m, Post)
    requires k < i && LastRead(steps, m, i, j)
    requires SetsUrl(states[k], steps[k], e, url)
    requires forall x {:trigger steps[x]} :: k < x < i ==> !EditsEndpoint(states[x], steps[x], e)
    requires m in states[i].msgs && states[i].msgs[m].phase.Claimed? && states[i].msgs[m].phase.row.endpoint == e
    ensures m in states[j].msgs && states[j].msgs[m].phase.Bound? && states[j].msgs[m].phase.post.url == url
  {
    assert Next(c, states[j], steps[j], states[j + 1]);
    PostRecorded(c, states[j], m, states[j + 1]);
    var i' := ReadBefore(c, states, steps, t, m, j);
    assert i' == i;
    assert Next(c, states[k], steps[k], states[k + 1]);
    UrlSet(states[k], steps[k].change, states[k + 1], e, url);
    EndpointStaysFor(c, states, steps, k + 1, i, e);
  }

  lemma UrlSet(s: State, change: Change, s': State, e: Id, url: string)
    requires Changes(s, change, s') && SetsUrl(s, Admin(change), e, url)
    ensures e in s'.endpoints && s'.endpoints[e].url == url
  {
  }
}
