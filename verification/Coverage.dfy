/** Is a pending delivery ever forgotten? Only after a late commit, and only until recovery. */
module Coverage {
  import opened Types
  import opened Rules
  import opened Protocol
  import opened Invariant

  predicate Active(p: Phase) {
    p.Queued? || p.Received? || Holding(p)
  }

  /** Message `m` is outstanding and will find row `d` claimable, once any other holder is gone. */
  predicate Wakes(s: State, m: Id, d: Id)
    requires d in s.rows
  {
    && m in s.msgs && s.msgs[m].body.Deliver? && s.msgs[m].body.delivery == d
    && s.msgs[m].body.tenant == s.rows[d].tenant && Active(s.msgs[m].phase)
    && (s.rows[d].nextRetry.None? || s.rows[d].nextRetry.value <= s.now
        || s.msgs[m].body.eta >= s.rows[d].nextRetry.value)
  }

  ghost predicate Awake(s: State, d: Id)
    requires d in s.rows
  {
    exists m :: Wakes(s, m, d)
  }

  /** Rows whose first message has been dispatched and that are still to be delivered. */
  predicate Waiting(s: State, d: Id) {
    d in s.released && d in s.rows && s.rows[d].status == Pending
  }

  ghost predicate NothingForgotten(s: State) {
    forall d :: Waiting(s, d) ==> Awake(s, d)
  }

  // ----- the invariant -----

  /** A retry that is still in the future sits in the queue, due no earlier than its row. */
  predicate RetryQueued(s: State, m: Id)
    requires m in s.msgs
  {
    var b := s.msgs[m].body; var p := s.msgs[m].phase;
    b.Deliver? && p.Staged? && p.cause.Replied? && p.cause.retry.Some? && p.row.nextRetry.Some?
      && s.now < p.row.nextRetry.value ==>
      var r := p.cause.retry.value;
      && r in s.msgs && s.msgs[r].phase.Queued?
      && s.msgs[r].body.Deliver? && s.msgs[r].body.delivery == b.delivery && s.msgs[r].body.tenant == b.tenant
      && s.msgs[r].body.eta >= p.row.nextRetry.value
  }

  /** Before its first message a row has no message, no lock and no retry time. */
  ghost predicate Unreleased(s: State) {
    && (forall d :: d in s.released ==> d in s.rows)
    && (forall d :: d in s.rows && d !in s.released ==> s.rows[d].nextRetry.None?)
    && (forall m :: m in s.msgs && s.msgs[m].body.Deliver? ==> s.msgs[m].body.delivery in s.released)
  }

  /** `all`: every waiting row is awake; otherwise only those without a retry time are claimed to be. */
  ghost predicate Covered(s: State, all: bool) {
    && Unreleased(s)
    && (forall m :: m in s.msgs ==> RetryQueued(s, m))
    && (forall d :: Waiting(s, d) && (all || s.rows[d].nextRetry.None?) ==> Awake(s, d))
  }

  /** A commit of a retry that comes before the retry is due. */
  predicate Timely(s: State, step: Step) {
    step.Task? && step.act.Commit? && step.m in s.msgs && s.msgs[step.m].phase.Staged?
    && s.msgs[step.m].phase.row.status == Pending && s.msgs[step.m].phase.row.nextRetry.Some? ==>
      s.now < s.msgs[step.m].phase.row.nextRetry.value
  }

  /** Row `d` is untouched and each of its messages is still there and still active. */
  lemma StaysAwake(s: State, s': State, d: Id)
    requires d in s.rows && d in s'.rows && s'.rows[d] == s.rows[d] && s.now <= s'.now && Awake(s, d)
    requires forall m :: Wakes(s, m, d) ==>
        m in s'.msgs && s'.msgs[m].body == s.msgs[m].body && Active(s'.msgs[m].phase)
    ensures Awake(s', d)
  {
    var m :| Wakes(s, m, d);
    assert Wakes(s', m, d);
  }

  /**
   Steps that write no row and retire no message: execution `m` moves between active phases (or
   delivers nothing), and the messages that appear are for rows already announced.
   */
  lemma QuietCovers(s: State, s': State, m: Id, all: bool)
    requires Covered(s, all)
    requires s'.rows == s.rows && s'.released == s.released && s.now <= s'.now
    requires forall x :: x in s.msgs ==> x in s'.msgs && s'.msgs[x].body == s.msgs[x].body
    requires forall x :: x in s.msgs && x != m ==>
               s'.msgs[x].phase == s.msgs[x].phase
    requires m in s.msgs && s.msgs[m].body.Deliver? ==> Active(s'.msgs[m].phase)
    requires m in s.msgs && s.msgs[m].body.Deliver? && s.msgs[m].phase.Queued? ==> s.msgs[m].body.eta <= s'.now
    requires forall x :: x in s'.msgs && x !in s.msgs ==> s'.msgs[x].body.Deliver? ==>
        s'.msgs[x].body.delivery in s.released
    requires forall x :: x in s'.msgs && x !in s.msgs ==> s'.msgs[x].phase.Queued?
    requires m in s.msgs ==> RetryQueued(s', m)
    ensures Covered(s', all)
  {
    forall d | Waiting(s', d) && (all || s'.rows[d].nextRetry.None?) ensures Awake(s', d) {
      StaysAwake(s, s', d);
    }
    forall x | x in s'.msgs ensures RetryQueued(s', x) {
      if x in s.msgs {
        assert RetryQueued(s, x);
      }
    }
  }

  /** A skipped claim: the row is locked, and the holder's own message covers it; or it does not
      qualify, and then this message did not cover it either. */
  lemma SkipCovers(c: Config, s: State, m: Id, all: bool)
    requires Base(c, s) && Covered(s, all) && m in s.msgs && s.msgs[m].phase.Received? && s.msgs[m].body.Deliver?
    requires !CanClaim(s, s.msgs[m].body.delivery, s.msgs[m].body.tenant)
    ensures Covered(ClaimRow(s, m), all)
  {
    var s' := ClaimRow(s, m);
    assert MessageOk(c, s, m);
    forall d | Waiting(s', d) && (all || s'.rows[d].nextRetry.None?) ensures Awake(s', d) {
      if d in s.locks {
        assert LockOk(s, d) && MessageOk(c, s, s.locks[d]);
        assert Wakes(s', s.locks[d], d);
      } else {
        assert Awake(s, d);
        StaysAwake(s, s', d);
      }
    }
    forall x | x in s'.msgs ensures RetryQueued(s', x) {
      assert RetryQueued(s, x);
    }
  }

  /** A commit: other rows keep their messages; this row, if it is to be retried, has the retry. */
  lemma CommitCovers(c: Config, s: State, m: Id, all: bool)
    requires Base(c, s) && Covered(s, all) && m in s.msgs && s.msgs[m].phase.Staged? && s.msgs[m].body.Deliver?
    requires all ==> Timely(s, Task(m, Commit))
    ensures Covered(CommitRow(s, m), all)
  {
    var s' := CommitRow(s, m);
    assert MessageOk(c, s, m) && RetryQueued(s, m);
    var d0 := s.msgs[m].body.delivery;
    CommittedShape(c, s, m);
    forall d | Waiting(s', d) && (all || s'.rows[d].nextRetry.None?) ensures Awake(s', d) {
      if d == d0 {
        assert Wakes(s', s.msgs[m].phase.cause.retry.value, d);
      } else {
        StaysAwake(s, s', d);
      }
    }
    forall x | x in s'.msgs ensures RetryQueued(s', x) {
      assert RetryQueued(s, x);
    }
  }

  /** What a commit writes: a retry carries its time, everything else is terminal. */
  lemma CommittedShape(c: Config, s: State, m: Id)
    requires Base(c, s) && m in s.msgs && s.msgs[m].phase.Staged? && s.msgs[m].body.Deliver?
    ensures var p := s.msgs[m].phase;
            p.row.status == Pending ==>
              && p.cause.Replied? && p.cause.retry.Some? && 1 <= p.row.attempts <= |c.delays|
              && p.row.nextRetry == Some(p.cause.at + c.delays[p.row.attempts - 1] * SECOND)
  {
    assert MessageOk(c, s, m);
  }

  lemma SendCovers(c: Config, s: State, m: Id, copy: Id, all: bool)
    requires Base(c, s) && Covered(s, all) && m in s.msgs && s.msgs[m].phase.Sending? && s.msgs[m].phase.todo != []
    requires copy !in s.msgs
    ensures Covered(SendNext(s, m, copy), all)
  {
    var s' := SendNext(s, m, copy);
    assert MessageOk(c, s, m);
    var t := s.msgs[m].phase.todo[0];
    assert t in s.msgs[m].phase.todo;
    forall d | Waiting(s', d) && (all || s'.rows[d].nextRetry.None?) ensures Awake(s', d) {
      if d in s.released {
        StaysAwake(s, s', d);
      } else {
        assert Wakes(s', copy, d);
      }
    }
    forall x | x in s'.msgs ensures RetryQueued(s', x) {
      if x in s.msgs {
        assert RetryQueued(s, x);
      }
    }
  }

  lemma AckCovers(c: Config, s: State, m: Id, all: bool)
    requires Base(c, s) && Covered(s, all) && m in s.msgs && Ackable(s.msgs[m].phase)
    ensures Covered(Drop(s, m), all)
  {
    var s' := Drop(s, m);
    forall d | Waiting(s', d) && (all || s'.rows[d].nextRetry.None?) ensures Awake(s', d) {
      assert Awake(s, d);
      StaysAwake(s, s', d);
    }
    forall x | x in s'.msgs ensures RetryQueued(s', x) {
      assert RetryQueued(s, x);
    }
  }

  lemma GrowCovers(c: Config, s: State, s': State, m: Id, ids: seq<Id>, created: DateTime, all: bool)
    requires Base(c, s) && Covered(s, all)
    requires m in s.msgs && s.msgs[m].body.FanOut? && s.msgs[m].phase.Planned? && Grown(s, s', m, ids, created)
    ensures Covered(s', all)
  {
    forall d | d in s'.rows && d !in s'.released ensures s'.rows[d].nextRetry.None? {
      if d in ids {
        var i :| 0 <= i < |ids| && ids[i] == d;
      }
    }
    forall d | Waiting(s', d) && (all || s'.rows[d].nextRetry.None?) ensures Awake(s', d) {
      if d in ids {
        assert false;
      } else {
        assert Waiting(s, d);
        StaysAwake(s, s', d);
      }
    }
    forall x | x in s'.msgs ensures RetryQueued(s', x) {
      assert RetryQueued(s, x);
    }
  }

  lemma TaskCovers(c: Config, s: State, m: Id, act: Act, s': State, all: bool)
    requires Base(c, s) && Covered(s, all) && Acts(c, s, m, act, s') && !Visible(act)
    requires act.Claim? ==> CanClaim(s, s.msgs[m].body.delivery, s.msgs[m].body.tenant)
    ensures Covered(s', all)
  {
    TaskFrame(c, s, m, act, s');
    RetryStaysQueued(c, s, m, act, s');
    QuietCovers(s, s', m, all);
  }

  lemma RetryStaysQueued(c: Config, s: State, m: Id, act: Act, s': State)
    requires m in s.msgs && MessageOk(c, s, m) && RetryQueued(s, m) && Acts(c, s, m, act, s') && !Visible(act)
    requires act.Claim? ==> CanClaim(s, s.msgs[m].body.delivery, s.msgs[m].body.tenant)
    ensures m in s'.msgs && RetryQueued(s', m)
    ensures s.msgs[m].body.Deliver? ==> Active(s'.msgs[m].phase)
    ensures s.msgs[m].body.Deliver? && s.msgs[m].phase.Queued? ==> s.msgs[m].body.eta <= s.now
  {
    if act.Retry? {
      assert m != act.copy;
    } else {
      OtherActsQueueNone(c, s, m, act, s');
    }
  }

  lemma OtherActsQueueNone(c: Config, s: State, m: Id, act: Act, s': State)
    requires m in s.msgs && MessageOk(c, s, m) && RetryQueued(s, m) && Acts(c, s, m, act, s') && !Visible(act)
    requires !act.Retry? && (act.Claim? ==> CanClaim(s, s.msgs[m].body.delivery, s.msgs[m].body.tenant))
    ensures m in s'.msgs && RetryQueued(s', m)
    ensures s.msgs[m].body.Deliver? ==> Active(s'.msgs[m].phase)
    ensures s.msgs[m].body.Deliver? && s.msgs[m].phase.Queued? ==> s.msgs[m].body.eta <= s.now
  {
  }

  lemma ActCovers(c: Config, s: State, m: Id, act: Act, s': State, all: bool)
    requires Base(c, s) && Covered(s, all) && Acts(c, s, m, act, s')
    requires all ==> Timely(s, Task(m, act))
    ensures Covered(s', all)
  {
    if act.Claim? && !CanClaim(s, s.msgs[m].body.delivery, s.msgs[m].body.tenant) {
      SkipCovers(c, s, m, all);
    } else if !Visible(act) {
      TaskCovers(c, s, m, act, s', all);
    } else if act.Commit? {
      CommitCovers(c, s, m, all);
    } else if act.Expand? {
      Grows(s, m, act.ids, act.created);
      GrowCovers(c, s, s', m, act.ids, act.created, all);
    } else if act.Send? {
      SendCovers(c, s, m, act.copy, all);
    } else {
      AckCovers(c, s, m, all);
    }
  }

  lemma StepCovers(c: Config, s: State, step: Step, s': State, all: bool)
    requires Base(c, s) && Covered(s, all) && Next(c, s, step, s')
    requires all ==> Timely(s, step)
    ensures Covered(s', all)
  {
    match step
    case Task(m, act) => ActCovers(c, s, m, act, s', all);
    case Tick(to) => TickCovers(s, to, all);
    case Duplicate(m, copy) => EnqueueCovers(s, copy, s.msgs[m].body, all);
    case Beat(copy) => EnqueueCovers(s, copy, Recover, all);
    case Api(r, move) =>
      if move.DispatchEvent? {
        MoveAnnounces(s, r, move.copy, s');
        var fanOut := FanOut(s.calls[r].stage.event, s.calls[r].tenant);
        EnqueueCovers(s, move.copy, fanOut, all);
        SameWorkCovers(Enqueue(s, move.copy, fanOut), s', all);
      } else {
        MoveAside(s, r, move, s');
        SameWorkCovers(s, s', all);
      }
    case Admin(change) => ChangeAside(s, change, s'); SameWorkCovers(s, s', all);
  }

  lemma TickCovers(s: State, to: Time, all: bool)
    requires Covered(s, all) && s.now <= to
    ensures Covered(SetClock(s, to), all)
  {
    var s' := SetClock(s, to);
    forall d | Waiting(s', d) && (all || s'.rows[d].nextRetry.None?) ensures Awake(s', d) {
      StaysAwake(s, s', d);
    }
    forall x | x in s'.msgs ensures RetryQueued(s', x) {
      assert RetryQueued(s, x);
    }
  }

  lemma EnqueueCovers(s: State, copy: Id, body: Message, all: bool)
    requires Covered(s, all) && copy !in s.msgs && (body.Deliver? ==> body.delivery in s.released)
    ensures Covered(Enqueue(s, copy, body), all)
  {
    QuietCovers(s, Enqueue(s, copy, body), copy, all);
  }

  lemma SameWorkCovers(s: State, s': State, all: bool)
    requires Covered(s, all) && SameWork(s, s')
    ensures Covered(s', all)
  {
    forall d | Waiting(s', d) && (all || s'.rows[d].nextRetry.None?) ensures Awake(s', d) {
      StaysAwake(s, s', d);
    }
    forall x | x in s'.msgs ensures RetryQueued(s', x) {
      assert RetryQueued(s, x);
    }
  }

  // ----- how prompt is prompt enough -----

  /** If the step commits a retry, it does so at most `lag` after the failure was recorded. */
  predicate Prompt(s: State, step: Step, lag: Time) {
    step.Task? && step.act.Commit? && step.m in s.msgs && s.msgs[step.m].phase.Staged?
    && s.msgs[step.m].phase.row.status == Pending && s.msgs[step.m].phase.cause.Replied? ==>
      s.now - s.msgs[step.m].phase.cause.at <= lag
  }

  /** Some run in which every retry is committed within `lag` leads from `a` to `b`. */
  ghost predicate Reaches(c: Config, lag: Time, a: State, b: State) {
    exists states, steps :: PromptRun(c, lag, states, steps) && states[0] == a && states[|steps|] == b
  }

  ghost predicate PromptRun(c: Config, lag: Time, states: seq<State>, steps: seq<Step>) {
    Run(c, states, steps) && forall i {:trigger steps[i]} :: 0 <= i < |steps| ==> Prompt(states[i], steps[i], lag)
  }

  predicate LagBelowDelays(c: Config, lag: Time) {
    forall k :: 0 <= k < |c.delays| ==> lag < c.delays[k] * SECOND
  }

  lemma PromptIsTimely(c: Config, s: State, step: Step, s': State, lag: Time)
    requires Base(c, s) && Next(c, s, step, s') && Prompt(s, step, lag) && LagBelowDelays(c, lag)
    ensures Timely(s, step)
  {
    if step.Task? && step.act.Commit? {
      CommittedShape(c, s, step.m);
    }
  }

  lemma CoveredAlways(c: Config, lag: Time, states: seq<State>, steps: seq<Step>, i: nat, all: bool)
    requires Run(c, states, steps) && i <= |steps| && Base(c, states[0]) && Covered(states[0], all)
    requires all ==> PromptRun(c, lag, states, steps) && LagBelowDelays(c, lag)
    ensures Covered(states[i], all)
  {
    if i > 0 {
      CoveredAlways(c, lag, states, steps, i - 1, all);
      BaseAlways(c, states, steps, i - 1);
      assert Next(c, states[i - 1], steps[i - 1], states[i]);
      if all {
        PromptIsTimely(c, states[i - 1], steps[i - 1], states[i], lag);
      }
      StepCovers(c, states[i - 1], steps[i - 1], states[i], all);
    }
  }

  /** Message `m` is at work on row `d`, or will find it claimable whenever it is started. */
  ghost predicate WillTry(s: State, m: Id, d: Id) {
    && m in s.msgs && s.msgs[m].body.Deliver? && s.msgs[m].body.delivery == d
    && d in s.rows && s.msgs[m].body.tenant == s.rows[d].tenant
    && ((d in s.locks && s.locks[d] == m)
        || ((s.msgs[m].phase.Queued? || s.msgs[m].phase.Received?)
            && forall at :: s.now <= at && s.msgs[m].body.eta <= at ==>
                 Claimable(s.rows[d], s.msgs[m].body.tenant, at)))
  }

  /** What being awake amounts to. */
  lemma AwakeIsTried(c: Config, s: State, d: Id)
    requires Reachable(c, s) && d in s.rows && s.rows[d].status == Pending && Awake(s, d)
    ensures exists m :: WillTry(s, m, d)
  {
    ReachableBase(c, s);
    var m :| Wakes(s, m, d);
    assert MessageOk(c, s, m);
    assert WillTry(s, m, d);
  }

  /** With prompt commits no waiting delivery is ever without a message that will wake it. */
  lemma NeverForgotten(c: Config, lag: Time, t: Time, s: State)
    requires LagBelowDelays(c, lag) && Reaches(c, lag, Init(t), s)
    ensures NothingForgotten(s)
    ensures forall d :: d in s.released && d in s.rows && s.rows[d].status == Pending ==> exists m :: WillTry(s, m, d)
  {
    var states, steps :| PromptRun(c, lag, states, steps) && states[0] == Init(t) && states[|steps|] == s;
    CoveredAlways(c, lag, states, steps, |steps|, true);
    assert Reachable(c, s);
    forall d | d in s.released && d in s.rows && s.rows[d].status == Pending ensures exists m :: WillTry(s, m, d) {
      assert Waiting(s, d);
      AwakeIsTried(c, s, d);
    }
  }

  /**
   Without any assumption on commits: a waiting row that has lost its messages has a retry time, so
   the recovery query selects it from that time on; rows without one always keep a message.
   */
  lemma ForgottenOnlyUntilRecovery(c: Config, s: State, d: Id)
    requires Reachable(c, s) && Waiting(s, d)
    ensures Awake(s, d)
        || (s.rows[d].nextRetry.Some? && forall now :: s.rows[d].nextRetry.value <= now ==> Stuck(s.rows[d], now))
  {
    var t, states, steps :| Run(c, states, steps) && states[0] == Init(t) && states[|steps|] == s;
    CoveredAlways(c, 0, states, steps, |steps|, false);
  }
}
