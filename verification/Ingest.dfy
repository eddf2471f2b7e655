/** Idempotent ingestion under interleaved READ COMMITTED transactions. */
module Ingest {
  import opened Types
  import opened Protocol
  import opened Invariant

  /** The request committed event `e` itself. */
  predicate Created(q: Call, e: Id) {
    q.stage == Stored(e) || q.stage == Orphaned(e) || q.stage == Done(e, true)
  }

  /** The request committed with, or is about to return, the event `e` of another one. */
  predicate Joined(q: Call, e: Id) {
    q.stage == Found(e) || q.stage == Done(e, false)
  }

  ghost predicate CallOk(events: map<Id, Event>, calls: map<Id, Call>, r: Id)
    requires r in calls
  {
    var q := calls[r];
    match q.stage
    case Inserted(e) =>
      && e !in events
      && (forall x :: x in calls && x != r && calls[x].stage.Inserted? ==> calls[x].stage.event != e)
      && (q.key.Some? ==>
            && (forall x :: !KeyTaken(events, q.tenant, q.key, x))
            && (forall x :: x in calls && x != r ==> !Inserts(calls[x], q.tenant, q.key)))
    case Conflicted => q.key.Some? && exists e :: KeyTaken(events, q.tenant, q.key, e)
    case Found(e) => q.key.Some? && KeyTaken(events, q.tenant, q.key, e)
    case Broken => false
    case Done(e, created) => KeyTaken(events, q.tenant, q.key, e) && (created || q.key.Some?)
    case Stored(e) => KeyTaken(events, q.tenant, q.key, e)
    case Orphaned(e) => KeyTaken(events, q.tenant, q.key, e)
    case _ => true
  }

  ghost predicate HasCreator(calls: map<Id, Call>, e: Id) {
    exists r :: r in calls && Created(calls[r], e)
  }

  ghost predicate Consistent(events: map<Id, Event>, calls: map<Id, Call>) {
    && (forall r :: r in calls ==> CallOk(events, calls, r))
    && (forall e1, e2 :: e1 in events && e2 in events && SameKey(events[e1], events[e2]) ==> e1 == e2)
    && (forall r1, r2, e :: r1 in calls && r2 in calls && Created(calls[r1], e) && Created(calls[r2], e) ==> r1 == r2)
    && (forall e :: e in events ==> HasCreator(calls, e))
  }

  predicate SameKey(x: Event, y: Event) {
    x.key.Some? && x.key == y.key && x.tenant == y.tenant
  }

  /** The atomic store the protocol implements: one event per non-null key. */
  ghost predicate AtomicIngest(before: map<Id, Event>, q: Call, e: Id, created: bool, after: map<Id, Event>) {
    if created then
      && e !in before && after == before[e := Event(q.tenant, q.kind, q.payload, q.key)]
      && (q.key.Some? ==> forall x :: x in before && before[x].tenant == q.tenant ==> before[x].key != q.key)
    else
      && after == before && q.key.Some?
      && e in before && before[e].tenant == q.tenant && before[e].key == q.key
  }

  /** A request moves on without committing an event. */
  lemma StageConsistent(events: map<Id, Event>, calls: map<Id, Call>, r: Id, q: Call)
    requires Consistent(events, calls) && CallOk(events, calls[r := q], r)
    requires q.stage.Inserted? && q.key.Some? ==> !Rival(calls, q.tenant, q.key)
    requires forall e :: Created(q, e) <==> r in calls && Created(calls[r], e)
    ensures Consistent(events, calls[r := q])
  {
    var calls' := calls[r := q];
    forall x | x in calls' ensures CallOk(events, calls', x) {
      if x != r {
        assert CallOk(events, calls, x);
      }
    }
    forall e | e in events ensures HasCreator(calls', e) {
      assert HasCreator(calls, e);
      var x :| x in calls && Created(calls[x], e);
      assert Created(calls'[x], e);
    }
  }

  /** The new event of an insert is committed. */
  lemma StoreConsistent(events: map<Id, Event>, calls: map<Id, Call>, r: Id, e0: Id)
    requires Consistent(events, calls) && r in calls && calls[r].stage == Inserted(e0)
    ensures var q := calls[r];
            Consistent(events[e0 := Event(q.tenant, q.kind, q.payload, q.key)], calls[r := q.(stage := Stored(e0))])
  {
    var q := calls[r];
    var events', calls' := events[e0 := Event(q.tenant, q.kind, q.payload, q.key)], calls[r := q.(stage := Stored(e0))];
    assert CallOk(events, calls, r);
    forall x | x in calls' ensures CallOk(events', calls', x) {
      assert CallOk(events, calls, x);
      if calls[x].stage.Conflicted? && x != r {
        var e :| KeyTaken(events, calls[x].tenant, calls[x].key, e);
        assert KeyTaken(events', calls[x].tenant, calls[x].key, e);
      }
    }
    forall e1, e2 | e1 in events' && e2 in events' && SameKey(events'[e1], events'[e2]) ensures e1 == e2 {
      assert e1 != e0 ==> !KeyTaken(events, q.tenant, q.key, e1) || !q.key.Some?;
      assert e2 != e0 ==> !KeyTaken(events, q.tenant, q.key, e2) || !q.key.Some?;
    }
    forall e | e in events' ensures HasCreator(calls', e) {
      if e == e0 {
        assert Created(calls'[r], e);
      } else {
        assert HasCreator(calls, e);
        var x :| x in calls && Created(calls[x], e);
        assert Created(calls'[x], e);
      }
    }
  }

  lemma MoveConsistent(s: State, r: Id, move: Move, s': State)
    requires Consistent(s.events, s.calls) && Moves(s, r, move, s')
    ensures Consistent(s'.events, s'.calls)
  {
    if r in s.calls {
      assert CallOk(s.events, s.calls, r);
    }
    if move.CommitEvent? && s.calls[r].stage.Inserted? {
      StoreConsistent(s.events, s.calls, r, s.calls[r].stage.event);
    } else {
      StageConsistent(s.events, s.calls, r, s'.calls[r]);
    }
  }

  lemma StepConsistent(c: Config, s: State, step: Step, s': State)
    requires Consistent(s.events, s.calls) && Next(c, s, step, s')
    ensures Consistent(s'.events, s'.calls)
  {
    if step.Api? {
      MoveConsistent(s, step.r, step.move, s');
    } else {
      OnlyMovesMatter(c, s, step, s');
    }
  }

  lemma OnlyMovesMatter(c: Config, s: State, step: Step, s': State)
    requires Next(c, s, step, s') && !step.Api?
    ensures s'.events == s.events && s'.calls == s.calls
  {
    if step.Admin? {
      ChangeAside(s, step.change, s');
    } else {
      WorkSameApi(c, s, step, s');
    }
  }

  lemma AlwaysConsistent(c: Config, states: seq<State>, steps: seq<Step>, i: nat)
    requires Run(c, states, steps) && i <= |steps| && Consistent(states[0].events, states[0].calls)
    ensures Consistent(states[i].events, states[i].calls)
  {
    if i > 0 {
      AlwaysConsistent(c, states, steps, i - 1);
      StepConsistent(c, states[i - 1], steps[i - 1], states[i]);
    }
  }

  lemma ReachableConsistent(c: Config, s: State)
    requires Reachable(c, s)
    ensures Consistent(s.events, s.calls)
  {
    var t, states, steps :| Run(c, states, steps) && states[0] == Init(t) && states[|steps|] == s;
    AlwaysConsistent(c, states, steps, |steps|);
  }

  /**
   Refinement: the commit of a request is one operation on the atomic store, with the answer the
   request will give; no other step of the whole system changes the store.
   */
  lemma RefinesAtomicStore(c: Config, s: State, step: Step, s': State)
    requires Reachable(c, s) && Next(c, s, step, s')
    ensures if step.Api? && step.move.CommitEvent? then
              && step.r in s.calls && (s.calls[step.r].stage.Inserted? || s.calls[step.r].stage.Found?)
              && AtomicIngest(s.events, s.calls[step.r], s.calls[step.r].stage.event,
                   s.calls[step.r].stage.Inserted?, s'.events)
            else s'.events == s.events
  {
    ReachableConsistent(c, s);
    if step.Api? {
      MoveRefines(s, step.r, step.move, s');
    } else {
      OnlyMovesMatter(c, s, step, s');
    }
  }

  lemma MoveRefines(s: State, r: Id, move: Move, s': State)
    requires Consistent(s.events, s.calls) && Moves(s, r, move, s')
    ensures if move.CommitEvent? then
              && r in s.calls && (s.calls[r].stage.Inserted? || s.calls[r].stage.Found?)
              && AtomicIngest(s.events, s.calls[r], s.calls[r].stage.event, s.calls[r].stage.Inserted?, s'.events)
            else s'.events == s.events
  {
    if move.CommitEvent? {
      var q := s.calls[r];
      assert CallOk(s.events, s.calls, r);
      assert forall x :: x in s.events && s.events[x].tenant == q.tenant && s.events[x].key == q.key ==>
               KeyTaken(s.events, q.tenant, q.key, x);
    }
  }

  /** A request that has committed with event `e`; `created` is what it reports. */
  predicate Answers(q: Call, e: Id, created: bool) {
    if created then Created(q, e) else q.stage == Done(e, false)
  }

  /**
   Linearisability, read off any reachable state. Every event was created by exactly one request.
   Two requests of one tenant with the same non-null key agree on the event, and only one of them
   created it. Requests without a key always create. The conflict without an event never happens.
   */
  lemma IngestLinearizable(c: Config, s: State)
    requires Reachable(c, s)
    ensures forall e :: e in s.events ==> HasCreator(s.calls, e)
    ensures forall r1, r2, e1, e2, a1, a2 ::
              r1 in s.calls && r2 in s.calls && Answers(s.calls[r1], e1, a1) && Answers(s.calls[r2], e2, a2)
              && s.calls[r1].key.Some? && s.calls[r1].key == s.calls[r2].key
              && s.calls[r1].tenant == s.calls[r2].tenant ==>
                e1 == e2 && (a1 && a2 ==> r1 == r2)
    ensures forall r, e, a :: r in s.calls && Answers(s.calls[r], e, a) ==>
              && KeyTaken(s.events, s.calls[r].tenant, s.calls[r].key, e)
              && (s.calls[r].key.None? ==> a)
    ensures forall r1, r2, e ::
              r1 in s.calls && r2 in s.calls && Created(s.calls[r1], e) && Created(s.calls[r2], e) ==> r1 == r2
    ensures forall r :: r in s.calls ==> !s.calls[r].stage.Broken?
  {
    ReachableConsistent(c, s);
    forall r, e, a | r in s.calls && Answers(s.calls[r], e, a)
      ensures KeyTaken(s.events, s.calls[r].tenant, s.calls[r].key, e) && (s.calls[r].key.None? ==> a)
    {
      assert CallOk(s.events, s.calls, r);
    }
    forall r1, r2, e1, e2, a1, a2 |
      r1 in s.calls && r2 in s.calls && Answers(s.calls[r1], e1, a1) && Answers(s.calls[r2], e2, a2)
      && s.calls[r1].key.Some? && s.calls[r1].key == s.calls[r2].key && s.calls[r1].tenant == s.calls[r2].tenant
      ensures e1 == e2 && (a1 && a2 ==> r1 == r2)
    {
      assert SameKey(s.events[e1], s.events[e2]);
    }
    forall r | r in s.calls ensures !s.calls[r].stage.Broken? {
      assert CallOk(s.events, s.calls, r);
    }
  }
}
