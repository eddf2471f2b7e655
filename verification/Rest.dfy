/** Where the work ends: as long as a message is left its execution can act, now or once its ETA has come; and
    when none is left, no pending delivery is left either. */
module Rest {
  import opened Types
  import opened Protocol
  import opened Invariant
  import opened Coverage
  import opened Recovery
  import opened AtMostOnce
  import opened FiniteWork
  import opened BoundedWork
  import opened Sorting

  // ----- the answers a step needs exist -----

  lemma SomeMember(xs: set<Id>)
    requires xs != {}
    ensures exists x :: x in xs
  {
    if forall x :: x !in xs {
      assert false;
    }
  }

  lemma Above(used: set<Id>) returns (b: Id)
    ensures forall x :: x in used ==> x < b
  {
    b := 0;
    if used != {} {
      SomeMember(used);
      var x :| x in used;
      assert forall y :: y in used ==> y == x || y in used - {x};
      var b' := Above(used - {x});
      b := if b' <= x then x + 1 else b';
    }
  }

  lemma NewIds(used: set<Id>, n: nat) returns (ids: seq<Id>)
    ensures |ids| == n && Distinct(ids) && forall d :: d in ids ==> d !in used
  {
    var b := Above(used);
    ids := seq(n, i requires 0 <= i < n => b + i);
  }

  lemma SomeTargets(s: State, event: Id, tenant: Id) returns (targets: seq<Id>)
    ensures IsTargets(s, event, tenant, targets)
  {
    targets := [];
    if event in s.events && s.events[event].tenant == tenant {
      MatchingAreMatched(s.endpoints, tenant, s.events[event].kind);
      targets := MatchingEndpoints(s.endpoints, tenant, s.events[event].kind);
    }
  }

  // ----- progress -----

  /** Execution `m` can act, once the clock says `to`. */
  ghost predicate CanAct(c: Config, s: State, m: Id, to: Time) {
    exists act: Act, s': State :: s.now <= to && !act.Crash? && Acts(c, SetClock(s, to), m, act, s')
  }

  lemma DoesAct(c: Config, s: State, m: Id, to: Time, act: Act, s': State)
    requires s.now <= to && !act.Crash? && Acts(c, SetClock(s, to), m, act, s')
    ensures CanAct(c, s, m, to)
  {
  }

  lemma TransactionCanAct(c: Config, s: State, m: Id)
    requires m in s.msgs && MessageOk(c, s, m) && Holding(s.msgs[m].phase)
    ensures CanAct(c, s, m, s.now)
  {
    var s0 := SetClock(s, s.now); var b := s.msgs[m].body;
    match s.msgs[m].phase
    case Claimed(row) => DoesAct(c, s, m, s.now, Bind, SetPhase(s0, m, Reads(s0, row, b.tenant)));
    case Bound(_, _) => DoesAct(c, s, m, s.now, Post, SendPost(s0, m));
    case InFlight(_, _) => DoesAct(c, s, m, s.now, Hear(NoResponse), TakeAnswer(c, s0, m, NoResponse));
    case Answered(_, _, _) =>
      var copies := NewIds(s.msgs.Keys, 1);
      DoesAct(c, s, m, s.now, Retry(copies[0]), SendRetry(c, s0, m, copies[0]));
    case Staged(_, _) => DoesAct(c, s, m, s.now, Commit, CommitRow(s0, m));
  }

  lemma ReceivedCanAct(c: Config, s: State, m: Id)
    requires m in s.msgs && s.msgs[m].phase.Received?
    ensures CanAct(c, s, m, s.now)
  {
    var s0 := SetClock(s, s.now);
    match s.msgs[m].body
    case Deliver(_, _, _) => DoesAct(c, s, m, s.now, Claim, ClaimRow(s0, m));
    case FanOut(e, t) =>
      var targets := SomeTargets(s0, e, t);
      DoesAct(c, s, m, s.now, Plan(targets), SetPhase(s0, m, Planned(targets)));
    case Recover =>
      var picked := First(DueFirst(s0.rows, s0.now), c.batch);
      FirstIsScan(s0.rows, s0.now, c.batch);
      DoesAct(c, s, m, s.now, Scan(picked), SetPhase(s0, m, Sending(WithTenants(s0.rows, picked))));
  }

  lemma SendingCanAct(c: Config, s: State, m: Id)
    requires m in s.msgs && MessageOk(c, s, m)
    requires s.msgs[m].phase.Planned? || s.msgs[m].phase.Sending? || s.msgs[m].phase.Finished?
    ensures CanAct(c, s, m, s.now)
  {
    var s0 := SetClock(s, s.now);
    if s.msgs[m].phase.Planned? {
      var ids := NewIds(s.rows.Keys, |s.msgs[m].phase.targets|);
      var created := DateTime(1, 1, 1, 0, 0, 0, 0);
      DoesAct(c, s, m, s.now, Expand(ids, created), InsertRows(s0, m, ids, created));
    } else if Ackable(s.msgs[m].phase) {
      DoesAct(c, s, m, s.now, Ack, Drop(s0, m));
    } else {
      var copies := NewIds(s.msgs.Keys, 1);
      DoesAct(c, s, m, s.now, Send(copies[0]), SendNext(s0, m, copies[0]));
    }
  }

  /** A message being executed can be executed further at once. */
  lemma BusyCanAct(c: Config, s: State, m: Id)
    requires Reachable(c, s) && m in s.msgs && !s.msgs[m].phase.Queued?
    ensures CanAct(c, s, m, s.now)
  {
    ReachableBase(c, s);
    assert MessageOk(c, s, m);
    if Holding(s.msgs[m].phase) {
      TransactionCanAct(c, s, m);
    } else if s.msgs[m].phase.Received? {
      ReceivedCanAct(c, s, m);
    } else {
      SendingCanAct(c, s, m);
    }
  }

  /** When a queued message can be started: at its ETA, or now. */
  function StartTime(s: State, m: Id): Time
    requires m in s.msgs
  {
    if s.msgs[m].body.Deliver? && s.now < s.msgs[m].body.eta then s.msgs[m].body.eta else s.now
  }

  /** No message is ever stuck: nothing waits for a lock, for another worker or for recovery. */
  lemma AlwaysCanAct(c: Config, s: State, m: Id)
    requires Reachable(c, s) && m in s.msgs
    ensures exists to :: CanAct(c, s, m, to)
  {
    if s.msgs[m].phase.Queued? {
      var to := StartTime(s, m);
      DoesAct(c, s, m, to, Start, SetPhase(SetClock(s, to), m, Received));
    } else {
      BusyCanAct(c, s, m);
    }
  }

  // ----- nothing is left behind -----

  /** Fan-out `m` is still to announce row `d`. */
  predicate Announces(msgs: map<Id, Envelope>, m: Id, d: Id) {
    && m in msgs && msgs[m].body.FanOut? && msgs[m].phase.Sending?
    && exists i :: 0 <= i < |msgs[m].phase.todo| && msgs[m].phase.todo[i].0 == d
  }

  /** Row `d`, once inserted, has been announced, or its fan-out is still at it. */
  ghost predicate Announced(s: State, d: Id) {
    d in s.rows && d !in s.released ==> exists m :: Announces(s.msgs, m, d)
  }

  lemma AnnouncersStay(s: State, s': State, d: Id)
    requires Announced(s, d) && s'.rows.Keys == s.rows.Keys && s.released <= s'.released
    requires forall m ::
               m in s.msgs && s.msgs[m].body.FanOut? && s.msgs[m].phase.Sending? && s.msgs[m].phase.todo != [] ==>
               m in s'.msgs && s'.msgs[m] == s.msgs[m]
    ensures Announced(s', d)
  {
    if d in s.rows && d !in s.released {
      var m :| Announces(s.msgs, m, d);
      assert Announces(s'.msgs, m, d);
    }
  }

  lemma SendAnnounces(s: State, m: Id, copy: Id, d: Id)
    requires m in s.msgs && s.msgs[m].phase.Sending? && s.msgs[m].phase.todo != [] && copy !in s.msgs && Announced(s, d)
    ensures Announced(SendNext(s, m, copy), d)
  {
    var s' := SendNext(s, m, copy);
    if d in s'.rows && d !in s'.released {
      var x :| Announces(s.msgs, x, d);
      if x == m {
        var todo := s.msgs[m].phase.todo;
        var i :| 0 <= i < |todo| && todo[i].0 == d;
        assert s'.msgs[m].phase.todo[i - 1].0 == d;
      }
      assert Announces(s'.msgs, x, d);
    }
  }

  lemma GrownAnnounces(s: State, m: Id, ids: seq<Id>, created: DateTime, s': State, d: Id)
    requires m in s.msgs && s.msgs[m].body.FanOut? && s.msgs[m].phase.Planned? && Grown(s, s', m, ids, created)
    requires Announced(s, d)
    ensures Announced(s', d)
  {
    if d in s'.rows && d !in s'.released {
      if d in s.rows {
        var x :| Announces(s.msgs, x, d);
        assert Announces(s'.msgs, x, d);
      } else {
        var i :| 0 <= i < |ids| && ids[i] == d;
        assert s'.msgs[m].phase.todo[i].0 == d;
        assert Announces(s'.msgs, m, d);
      }
    }
  }

  lemma ActAnnounces(c: Config, s: State, m: Id, act: Act, s': State, d: Id)
    requires Acts(c, s, m, act, s') && !Gap(s, Task(m, act)) && Announced(s, d)
    requires m in s.msgs && MessageOk(c, s, m)
    ensures Announced(s', d)
  {
    if act.Send? {
      SendAnnounces(s, m, act.copy, d);
    } else if act.Expand? {
      Grows(s, m, act.ids, act.created);
      GrownAnnounces(s, m, act.ids, act.created, s', d);
    } else {
      if !Visible(act) {
        TaskFrame(c, s, m, act, s');
      }
      AnnouncersStay(s, s', d);
    }
  }

  lemma StepAnnounces(c: Config, s: State, step: Step, s': State, d: Id)
    requires Base(c, s) && Next(c, s, step, s') && !Gap(s, step) && Announced(s, d)
    ensures Announced(s', d)
  {
    if step.Task? {
      assert MessageOk(c, s, step.m);
      ActAnnounces(c, s, step.m, step.act, s', d);
    } else {
      StepAside(c, s, step, s');
      AnnouncersStay(s, s', d);
    }
  }

  lemma AlwaysAnnounced(c: Config, states: seq<State>, steps: seq<Step>, t: Time, i: nat, d: Id)
    requires GapFreeRun(c, states, steps) && states[0] == Init(t) && i <= |steps|
    ensures Announced(states[i], d)
  {
    if i > 0 {
      AlwaysAnnounced(c, states, steps, t, i - 1, d);
      BaseAlways(c, states, steps, i - 1);
      StepAnnounces(c, states[i - 1], steps[i - 1], states[i], d);
    }
  }

  /**
   Come to rest, in runs with prompt commits in which no fan-out died between its commit and its last
   message. From any point on the workers take at most the stock plus what the steps bring in; and
   where no worker can act any more, not even later, the queue is empty and no row is pending.
   */
  lemma ComesToRest(c: Config, lag: Time, t: Time, states: seq<State>, steps: seq<Step>, n: nat)
    requires PromptRun(c, lag, states, steps) && GapFreeRun(c, states, steps) && states[0] == Init(t)
    requires LagBelowDelays(c, lag) && n <= |steps|
    ensures Work(steps[n..]) <= Stock(c, states[n]) + Charges(c, states[n..], steps[n..])
    ensures var s := states[|steps|];
            (forall m, to :: !CanAct(c, s, m, to)) ==>
              s.msgs == map[] && forall d :: d in s.rows ==> s.rows[d].status != Pending
  {
    var s := states[|steps|];
    ReachablePrefix(c, states, steps, t, n);
    ReachablePrefix(c, states, steps, t, |steps|);
    TailBounded(c, states, steps, n);
    if forall m, to :: !CanAct(c, s, m, to) {
      forall m ensures m !in s.msgs {
        if m in s.msgs {
          AlwaysCanAct(c, s, m);
        }
      }
      NothingLeft(c, lag, t, states, steps);
    }
  }

  lemma TailBounded(c: Config, states: seq<State>, steps: seq<Step>, n: nat)
    requires Run(c, states, steps) && n <= |steps| && Reachable(c, states[n])
    ensures Work(steps[n..]) <= Stock(c, states[n]) + Charges(c, states[n..], steps[n..])
  {
    TailRuns(c, states, steps, n);
    WorkBounded(c, states[n..], steps[n..]);
  }

  lemma TailRuns(c: Config, states: seq<State>, steps: seq<Step>, n: nat)
    requires Run(c, states, steps) && n <= |steps|
    ensures Run(c, states[n..], steps[n..])
  {
    var states', steps' := states[n..], steps[n..];
    assert forall k {:trigger steps'[k]} :: 0 <= k < |steps'| ==>
             steps'[k] == steps[n + k] && states'[k] == states[n + k] && states'[k + 1] == states[n + k + 1];
  }

  lemma NothingLeft(c: Config, lag: Time, t: Time, states: seq<State>, steps: seq<Step>)
    requires PromptRun(c, lag, states, steps) && GapFreeRun(c, states, steps) && states[0] == Init(t)
    requires LagBelowDelays(c, lag)
    requires forall m :: m !in states[|steps|].msgs
    ensures forall d :: d in states[|steps|].rows ==> states[|steps|].rows[d].status != Pending
  {
    var s := states[|steps|];
    assert Reaches(c, lag, Init(t), s);
    NeverForgotten(c, lag, t, s);
    forall d | d in s.rows ensures s.rows[d].status != Pending {
      AlwaysAnnounced(c, states, steps, t, |steps|, d);
      assert forall m :: !Announces(s.msgs, m, d) && !Wakes(s, m, d);
      assert d in s.released && !Waiting(s, d);
    }
  }
}
