/** Deleting an endpoint is final: it is never selected again and receives no POST read after it. */
module SoftDelete {
  import opened Types
  import opened Rules
  import opened Lifecycle
  import opened Protocol
  import opened Invariant
  import opened Attempts
  import opened Ownership

  /** Once deleted, an endpoint stays deleted, and no later fan-out selects it. */
  lemma DeletedForever(c: Config, states: seq<State>, steps: seq<Step>, i: nat, j: nat, e: Id)
    requires Run(c, states, steps) && Reachable(c, states[0]) && i <= j <= |steps|
    requires e in states[i].endpoints && !states[i].endpoints[e].active
    ensures e in states[j].endpoints && !states[j].endpoints[e].active
    ensures j < |steps| && steps[j].Task? && steps[j].act.Plan? ==> e !in steps[j].act.targets
  {
    OwnersStay(c, states, steps, i, j);
    if j < |steps| && steps[j].Task? && steps[j].act.Plan? {
      assert Acts(c, states[j], steps[j].m, steps[j].act, states[j + 1]);
    }
  }

  /** No execution of row `d` has read its endpoint and found it. */
  ghost predicate Unread(s: State, d: Id) {
    forall m :: Holds(s, m, d) ==>
      s.msgs[m].phase.Claimed? || (s.msgs[m].phase.Staged? && s.msgs[m].phase.cause.Missing?)
  }

  /** Row `d`'s endpoint is deleted and unread; the row is still `r0`, or given up, after `n` POSTs. */
  ghost predicate Doomed(s: State, d: Id, r0: Delivery, n: nat) {
    && d in s.rows && d in s.hist && (s.rows[d] == r0 || s.rows[d] == GiveUp(r0))
    && r0.endpoint in s.endpoints && !s.endpoints[r0.endpoint].active
    && Posts(s.hist[d]) == n
    && Unread(s, d)
  }

  lemma TaskDoomed(c: Config, s: State, m: Id, act: Act, s': State, d: Id, r0: Delivery, n: nat)
    requires Base(c, s) && Doomed(s, d, r0, n) && Acts(c, s, m, act, s')
    ensures Doomed(s', d, r0, n)
  {
    assert MessageOk(c, s, m);
    TaskSameApi(c, s, m, act, s');
    DoomedRow(c, s, m, act, s', d, r0);
    DoomedPosts(c, s, m, act, s', d);
    DoomedUnread(c, s, m, act, s', d);
  }

  lemma DoomedRow(c: Config, s: State, m: Id, act: Act, s': State, d: Id, r0: Delivery)
    requires m in s.msgs && MessageOk(c, s, m) && Acts(c, s, m, act, s')
    requires d in s.rows && (s.rows[d] == r0 || s.rows[d] == GiveUp(r0)) && Unread(s, d)
    ensures d in s'.rows && (s'.rows[d] == r0 || s'.rows[d] == GiveUp(r0))
  {
    if !Visible(act) {
      TaskFrame(c, s, m, act, s');
    } else if act.Expand? {
      Grows(s, m, act.ids, act.created);
    } else if act.Commit? {
      DoomedCommit(c, s, m, s', d, r0);
    }
  }

  lemma DoomedCommit(c: Config, s: State, m: Id, s': State, d: Id, r0: Delivery)
    requires m in s.msgs && MessageOk(c, s, m) && Acts(c, s, m, Commit, s')
    requires d in s.rows && (s.rows[d] == r0 || s.rows[d] == GiveUp(r0)) && Unread(s, d)
    ensures d in s'.rows && (s'.rows[d] == r0 || s'.rows[d] == GiveUp(r0))
  {
    assert s.msgs[m].body.delivery == d ==> Holds(s, m, d);
  }

  lemma DoomedPosts(c: Config, s: State, m: Id, act: Act, s': State, d: Id)
    requires m in s.msgs && MessageOk(c, s, m) && Acts(c, s, m, act, s')
    requires d in s.hist && d in s.rows && Unread(s, d)
    ensures d in s'.hist && Posts(s'.hist[d]) == Posts(s.hist[d])
  {
    if act.Expand? {
      Grows(s, m, act.ids, act.created);
    } else {
      OneObservation(c, s, m, act, s', d);
      assert Holds(s, m, d) ==> !s.msgs[m].phase.Bound?;
      if |s'.hist[d]| > |s.hist[d]| {
        assert s'.hist[d][..|s'.hist[d]| - 1] == s.hist[d];
      } else {
        assert s'.hist[d] == s.hist[d];
      }
    }
  }

  lemma DoomedUnread(c: Config, s: State, m: Id, act: Act, s': State, d: Id)
    requires m in s.msgs && MessageOk(c, s, m) && Acts(c, s, m, act, s')
    requires d in s.rows && s.rows[d].endpoint in s.endpoints && !s.endpoints[s.rows[d].endpoint].active
    requires Unread(s, d)
    ensures Unread(s', d)
  {
    if !Visible(act) {
      TaskFrame(c, s, m, act, s');
      TaskUnread(c, s, m, act, s', d);
    }
    forall x | Holds(s', x, d)
      ensures s'.msgs[x].phase.Claimed? || (s'.msgs[x].phase.Staged? && s'.msgs[x].phase.cause.Missing?)
    {
      if x != m {
        assert Holds(s, x, d);
      }
    }
  }

  /** An execution that had not read the endpoint reads it as deleted. */
  lemma TaskUnread(c: Config, s: State, m: Id, act: Act, s': State, d: Id)
    requires m in s.msgs && MessageOk(c, s, m) && Acts(c, s, m, act, s') && !Visible(act)
    requires d in s.rows && s.rows[d].endpoint in s.endpoints && !s.endpoints[s.rows[d].endpoint].active
    requires Unread(s, d) && m in s'.msgs
    ensures Holds(s', m, d) ==>
              s'.msgs[m].phase.Claimed? || (s'.msgs[m].phase.Staged? && s'.msgs[m].phase.cause.Missing?)
  {
    assert Holds(s, m, d) ==> s.msgs[m].phase.Claimed? || s.msgs[m].phase.Staged?;
    if act.Bind? {
      BindUnread(c, s, m, s', d);
    }
  }

  lemma BindUnread(c: Config, s: State, m: Id, s': State, d: Id)
    requires m in s.msgs && MessageOk(c, s, m) && Acts(c, s, m, Bind, s')
    requires d in s.rows && s.rows[d].endpoint in s.endpoints && !s.endpoints[s.rows[d].endpoint].active
    ensures m in s'.msgs && (Holds(s', m, d) ==> s'.msgs[m].phase.Staged? && s'.msgs[m].phase.cause.Missing?)
  {
  }

  lemma StepDoomed(c: Config, s: State, step: Step, s': State, d: Id, r0: Delivery, n: nat)
    requires Owned(c, s) && Doomed(s, d, r0, n) && Next(c, s, step, s')
    ensures Doomed(s', d, r0, n)
  {
    if step.Task? {
      TaskDoomed(c, s, step.m, step.act, s', d, r0, n);
    } else {
      RequestsAside(c, s, step, s', r0.endpoint);
      SameWorkers(s, s', d);
    }
  }

  /** The other steps start no execution, touch no row and revive no endpoint. */
  lemma RequestsAside(c: Config, s: State, step: Step, s': State, e: Id)
    requires Owned(c, s) && Next(c, s, step, s') && !step.Task? && e in s.endpoints && !s.endpoints[e].active
    ensures s'.rows == s.rows && s'.hist == s.hist && e in s'.endpoints && !s'.endpoints[e].active
    ensures forall x :: x in s'.msgs ==> (x in s.msgs && s'.msgs[x] == s.msgs[x]) || s'.msgs[x].phase.Queued?
  {
    match step
    case Tick(_) =>
    case Duplicate(_, _) =>
    case Beat(_) =>
    case Api(r, move) =>
      MoveKeeps(s, r, move, s');
      if move.DispatchEvent? { MoveAnnounces(s, r, move.copy, s'); } else { MoveAside(s, r, move, s'); }
    case Admin(change) => ChangeKeeps(s, change, s'); ChangeAside(s, change, s');
  }

  lemma SameWorkers(s: State, s': State, d: Id)
    requires Unread(s, d)
    requires forall x :: x in s'.msgs ==> (x in s.msgs && s'.msgs[x] == s.msgs[x]) || s'.msgs[x].phase.Queued?
    ensures Unread(s', d)
  {
    forall x | Holds(s', x, d)
      ensures s'.msgs[x].phase.Claimed? || (s'.msgs[x].phase.Staged? && s'.msgs[x].phase.cause.Missing?)
    {
      assert Holds(s, x, d);
    }
  }

  lemma DoomedOn(c: Config, states: seq<State>, steps: seq<Step>, k: nat, d: Id, r0: Delivery, n: nat)
    requires Run(c, states, steps) && Owned(c, states[0]) && k < |steps| && Doomed(states[k], d, r0, n)
    ensures Doomed(states[k + 1], d, r0, n)
  {
    AlwaysOwned(c, states, steps, 0, k);
    StepDoomed(c, states[k], steps[k], states[k + 1], d, r0, n);
  }

  lemma DoomedAlways(c: Config, states: seq<State>, steps: seq<Step>, i: nat, j: nat, d: Id)
    requires Run(c, states, steps) && Owned(c, states[0]) && i <= j <= |steps|
    requires d in states[i].rows && Unread(states[i], d)
    requires states[i].rows[d].endpoint in states[i].endpoints
    requires !states[i].endpoints[states[i].rows[d].endpoint].active
    ensures d in states[i].hist && Doomed(states[j], d, states[i].rows[d], Posts(states[i].hist[d]))
  {
    if i < j {
      DoomedAlways(c, states, steps, i, j - 1, d);
      DoomedOn(c, states, steps, j - 1, d, states[i].rows[d], Posts(states[i].hist[d]));
    } else {
      AlwaysOwned(c, states, steps, 0, i);
    }
  }

  /**
   A delivery whose endpoint is deleted before an execution reads it: whatever happens later, no
   POST is made for it, and the only commit it can see turns it `failed`.
   */
  lemma DeletedGetsNothing(c: Config, states: seq<State>, steps: seq<Step>, i: nat, j: nat, d: Id)
    requires Run(c, states, steps) && Reachable(c, states[0]) && i <= j <= |steps|
    requires d in states[i].rows && Unread(states[i], d)
    requires states[i].rows[d].endpoint in states[i].endpoints
    requires !states[i].endpoints[states[i].rows[d].endpoint].active
    ensures d in states[i].hist && d in states[j].hist && Posts(states[j].hist[d]) == Posts(states[i].hist[d])
    ensures d in states[j].rows
    ensures (states[j].rows[d] == states[i].rows[d] || states[j].rows[d] == GiveUp(states[i].rows[d]))
  {
    ReachableOwned(c, states[0]);
    DoomedAlways(c, states, steps, i, j, d);
  }

  /** Nor is a retry message ever sent for it. */
  lemma DeletedSendsNoRetry(c: Config, states: seq<State>, steps: seq<Step>, i: nat, j: nat, d: Id)
    requires Run(c, states, steps) && Reachable(c, states[0]) && i <= j < |steps|
    requires d in states[i].rows && Unread(states[i], d)
    requires states[i].rows[d].endpoint in states[i].endpoints
    requires !states[i].endpoints[states[i].rows[d].endpoint].active
    ensures steps[j].Task? && steps[j].act.Retry? ==>
              var s, m := states[j], steps[j].m;
              m in s.msgs && s.msgs[m].body.Deliver? && s.msgs[m].body.delivery != d
  {
    ReachableOwned(c, states[0]);
    DoomedAlways(c, states, steps, i, j, d);
    assert Next(c, states[j], steps[j], states[j + 1]);
    if steps[j].Task? && steps[j].act.Retry? {
      NoRetryFor(c, states[j], steps[j].m, steps[j].act, states[j + 1], d);
    }
  }

  lemma NoRetryFor(c: Config, s: State, m: Id, act: Act, s': State, d: Id)
    requires Unread(s, d) && act.Retry? && Acts(c, s, m, act, s')
    ensures m in s.msgs && s.msgs[m].body.Deliver? && s.msgs[m].body.delivery != d
  {
    assert s.msgs[m].body.delivery == d ==> Holds(s, m, d);
  }
}
