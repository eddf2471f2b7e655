/** Which event reaches which endpoint, in every run: the one reading of a fan-out, and the rows it inserts. */
module FanOutReads {
  import opened Types
  import opened Protocol
  import opened Invariant
  import opened Ownership
  import opened Recovery
  import opened Stranded
  import opened FreshReads

  /**
   What a fan-out selects: of all endpoints there are, exactly the active ones of the event's tenant
   that list the event's kind, each once.
   */
  lemma PlanSelects(c: Config, states: seq<State>, steps: seq<Step>, t: Time, k: nat, m: Id, targets: seq<Id>)
    requires Run(c, states, steps) && states[0] == Init(t) && k < |steps| && steps[k] == Task(m, Plan(targets))
    ensures var s := states[k];
            m in s.msgs && s.msgs[m].body.FanOut? && var b := s.msgs[m].body;
            && b.event in s.events && s.events[b.event].tenant == b.tenant && Distinct(targets)
            && forall e :: e in targets <==>
                 && e in s.endpoints && s.endpoints[e].tenant == b.tenant && s.endpoints[e].active
                 && s.events[b.event].kind in s.endpoints[e].kinds
  {
    ReachablePrefix(c, states, steps, t, k);
    ReachableOwned(c, states[k]);
    assert Next(c, states[k], steps[k], states[k + 1]);
    assert MessageOwned(states[k], states[k].msgs[m]);
  }

  // ----- edits -----

  /** The step commits an edit that gives endpoint `e` the event kinds `kinds`. */
  predicate SetsKinds(s: State, step: Step, e: Id, kinds: seq<string>) {
    EditsEndpoint(s, step, e) && s.edits[step.change.q].Update? && s.edits[step.change.q].kinds == Some(kinds)
  }

  /** What the commit of an edit makes of its endpoint, and of no other. */
  lemma EditChanges(c: Config, s: State, q: Id, s': State)
    requires Next(c, s, Admin(CommitEdit(q)), s')
    ensures q in s.edits && s.edits[q].endpoint in s.endpoints
    ensures var edit := s.edits[q]; var e := s.endpoints[edit.endpoint];
            s'.endpoints == s.endpoints[edit.endpoint :=
              if edit.Delete? then Endpoint(e.tenant, e.url, e.kinds, false)
              else Endpoint(e.tenant, if edit.url.Some? then edit.url.value else e.url,
                            if edit.kinds.Some? then edit.kinds.value else e.kinds, e.active)]
  {
  }

  lemma KindsSet(c: Config, s: State, step: Step, s': State, e: Id, kinds: seq<string>)
    requires Next(c, s, step, s') && SetsKinds(s, step, e, kinds)
    ensures e in s'.endpoints && s'.endpoints[e].kinds == kinds
  {
    EditChanges(c, s, step.change.q, s');
  }

  /**
   Edits of the event kinds take effect: if the last edit of the endpoint committed before a fan-out's
   reading set its kinds, the endpoint, if active and the tenant's own, is selected exactly for these.
   */
  lemma PlanFollowsEdit(c: Config, states: seq<State>, steps: seq<Step>, t: Time, m: Id, k: nat, i: nat, e: Id,
                        kinds: seq<string>, targets: seq<Id>)
    requires Run(c, states, steps) && states[0] == Init(t) && k < i < |steps| && steps[i] == Task(m, Plan(targets))
    requires SetsKinds(states[k], steps[k], e, kinds)
    requires forall x {:trigger steps[x]} :: k < x < i ==> !EditsEndpoint(states[x], steps[x], e)
    ensures var s := states[i];
            e in s.endpoints && m in s.msgs && s.msgs[m].body.FanOut? && s.msgs[m].body.event in s.events
    ensures var s := states[i]; var b := s.msgs[m].body;
            s.endpoints[e].tenant == b.tenant && s.endpoints[e].active ==>
              (e in targets <==> s.events[b.event].kind in kinds)
  {
    assert Next(c, states[k], steps[k], states[k + 1]);
    KindsSet(c, states[k], steps[k], states[k + 1], e, kinds);
    EndpointStaysFor(c, states, steps, k + 1, i, e);
    PlanSelects(c, states, steps, t, i, m, targets);
  }

  // ----- the rows -----

  /** Step `i` is the last reading of fan-out `m` before step `j`. */
  predicate LastPlan(steps: seq<Step>, m: Id, targets: seq<Id>, i: nat, j: nat) {
    i < j <= |steps| && steps[i] == Task(m, Plan(targets))
    && forall k :: i < k < j ==> !(steps[k].Task? && steps[k].m == m && steps[k].act.Plan?)
  }

  /** A plan is held because it was held before, or because it has just been made. */
  lemma StepPlans(c: Config, s: State, step: Step, s': State, m: Id)
    requires Next(c, s, step, s') && m in s'.msgs && s'.msgs[m].phase.Planned?
    ensures m in s.msgs && s'.msgs[m].body == s.msgs[m].body
    ensures if step.Task? && step.m == m && step.act.Plan? then step.act.targets == s'.msgs[m].phase.targets
            else s'.msgs[m] == s.msgs[m]
  {
    if step.Task? && step.m == m {
      OwnPlans(c, s, m, step.act, s');
    } else {
      OthersKept(c, s, step, s', m);
    }
  }

  lemma OwnPlans(c: Config, s: State, m: Id, act: Act, s': State)
    requires Acts(c, s, m, act, s') && m in s'.msgs && s'.msgs[m].phase.Planned?
    ensures m in s.msgs && s'.msgs[m].body == s.msgs[m].body && act.Plan? && act.targets == s'.msgs[m].phase.targets
  {
  }

  lemma {:induction false} PlannedBefore(c: Config, states: seq<State>, steps: seq<Step>, t: Time, m: Id, j: nat)
    returns (i: nat)
    requires Run(c, states, steps) && states[0] == Init(t) && j <= |steps|
    requires m in states[j].msgs && states[j].msgs[m].phase.Planned?
    ensures LastPlan(steps, m, states[j].msgs[m].phase.targets, i, j)
    ensures m in states[i].msgs && states[i].msgs[m].body == states[j].msgs[m].body
  {
    StepPlans(c, states[j - 1], steps[j - 1], states[j], m);
    if steps[j - 1].Task? && steps[j - 1].m == m && steps[j - 1].act.Plan? {
      i := j - 1;
    } else {
      i := PlannedBefore(c, states, steps, t, m, j - 1);
    }
  }

  /** Row `d` is inserted by step `j` of the run. */
  predicate InsertedBy(states: seq<State>, j: nat, d: Id)
    requires j + 1 < |states|
  {
    d in states[j + 1].rows && d !in states[j].rows
  }

  /**
   From the event to its rows, in every run: the rows a fan-out commits are fresh deliveries of its
   event, one for each endpoint that, when the fan-out read them, was active, of the event's tenant
   and listed the event's kind; every other row is as before.
   */
  lemma RowsAreSelected(c: Config, states: seq<State>, steps: seq<Step>, t: Time, j: nat, m: Id, ids: seq<Id>,
                        created: DateTime)
    returns (i: nat, targets: seq<Id>)
    requires Run(c, states, steps) && states[0] == Init(t) && j < |steps|
    requires steps[j] == Task(m, Expand(ids, created))
    ensures LastPlan(steps, m, targets, i, j) && m in states[i].msgs && states[i].msgs[m].body.FanOut?
    ensures states[i].msgs[m].body.event in states[i].events
    ensures var s, s' := states[i], states[j + 1]; var b := s.msgs[m].body;
            && (forall d :: InsertedBy(states, j, d) ==>
                  s'.rows[d] == Delivery(b.event, s'.rows[d].endpoint, b.tenant, created, Pending, 0, None, None))
            && (forall e :: (exists d :: InsertedBy(states, j, d) && s'.rows[d].endpoint == e) <==>
                  && e in s.endpoints && s.endpoints[e].tenant == b.tenant && s.endpoints[e].active
                  && s.events[b.event].kind in s.endpoints[e].kinds)
            && (forall d1, d2 ::
                  InsertedBy(states, j, d1) && InsertedBy(states, j, d2) && d1 != d2 ==>
                    s'.rows[d1].endpoint != s'.rows[d2].endpoint)
            && (forall d :: d in states[j].rows ==> d in s'.rows && s'.rows[d] == states[j].rows[d])
  {
    assert Next(c, states[j], steps[j], states[j + 1]);
    targets := states[j].msgs[m].phase.targets;
    i := PlannedBefore(c, states, steps, t, m, j);
    PlanSelects(c, states, steps, t, i, m, targets);
    Grows(states[j], m, ids, created);
    InsertsTargets(states[j], m, ids, created, states[j + 1]);
    forall e | e in targets ensures exists d :: InsertedBy(states, j, d) && states[j + 1].rows[d].endpoint == e {
      var n :| 0 <= n < |targets| && targets[n] == e;
      assert InsertedBy(states, j, ids[n]);
    }
  }

  lemma InsertsTargets(s: State, m: Id, ids: seq<Id>, created: DateTime, s': State)
    requires m in s.msgs && s.msgs[m].body.FanOut? && s.msgs[m].phase.Planned? && Grown(s, s', m, ids, created)
    ensures var b := s.msgs[m].body; var targets := s.msgs[m].phase.targets;
            && (forall d :: d in s'.rows && d !in s.rows <==> d in ids)
            && (forall d :: d in ids ==>
                  && s'.rows[d].endpoint in targets
                  && s'.rows[d] == Delivery(b.event, s'.rows[d].endpoint, b.tenant, created, Pending, 0, None, None))
            && (forall n :: 0 <= n < |ids| ==>
                  ids[n] in s'.rows && ids[n] !in s.rows && s'.rows[ids[n]].endpoint == targets[n])
            && (Distinct(targets) ==>
                  forall d1, d2 :: d1 in ids && d2 in ids && d1 != d2 ==> s'.rows[d1].endpoint != s'.rows[d2].endpoint)
  {
    forall d | d in ids
      ensures exists n :: 0 <= n < |ids| && ids[n] == d && s'.rows[d].endpoint == s.msgs[m].phase.targets[n]
    {
      var n :| 0 <= n < |ids| && ids[n] == d;
    }
  }
}
