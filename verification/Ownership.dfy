/**
 Tenants are kept apart, and a deleted endpoint stays deleted: what every step keeps about who owns
 what, under any interleaving of endpoint edits, deletes, fan-outs, deliveries and recovery.
 */
module Ownership {
  import opened Types
  import opened Lifecycle
  import opened Protocol
  import opened Invariant
  import opened Ingest

  /** Tenants and events never change, endpoints keep their tenant, deleted ones stay deleted. */
  ghost predicate Keeps(s: State, s': State) {
    && (forall t :: t in s.tenants ==> t in s'.tenants && s'.tenants[t] == s.tenants[t])
    && (forall e :: e in s.events ==> e in s'.events && s'.events[e] == s.events[e])
    && (forall e :: e in s.endpoints ==>
          && e in s'.endpoints && s'.endpoints[e].tenant == s.endpoints[e].tenant
          && (!s.endpoints[e].active ==> !s'.endpoints[e].active))
    && s.urls <= s'.urls
  }

  predicate RowOwned(s: State, r: Delivery) {
    && r.tenant in s.tenants
    && r.event in s.events && s.events[r.event].tenant == r.tenant
    && r.endpoint in s.endpoints && s.endpoints[r.endpoint].tenant == r.tenant
    && (r.status == Failed ==> !s.endpoints[r.endpoint].active)
  }

  /** The request carries the row's event, to a URL its endpoint had, signed for the row's tenant. */
  predicate PostOwned(s: State, r: Delivery, post: Webhook) {
    && r.tenant in s.tenants && r.event in s.events
    && post.event == r.event && post.kind == s.events[r.event].kind && post.body == s.events[r.event].payload
    && post.signature == Signature(s.tenants[r.tenant], post.body)
    && (r.endpoint, post.url) in s.urls
  }

  predicate PostsOwned(s: State, r: Delivery, h: seq<Obs>) {
    forall i :: 0 <= i < |h| && h[i].Posted? ==> PostOwned(s, r, h[i].request)
  }

  predicate MessageOwned(s: State, env: Envelope) {
    && (env.body.FanOut? ==> env.body.event in s.events && s.events[env.body.event].tenant == env.body.tenant)
    && (env.body.FanOut? && env.phase.Planned? ==>
          forall e :: e in env.phase.targets ==> e in s.endpoints && s.endpoints[e].tenant == env.body.tenant)
    && (env.phase.Bound? || env.phase.InFlight? ==> PostOwned(s, env.phase.row, env.phase.post))
    && (env.phase.Staged? && env.phase.cause.Missing? ==>
          env.phase.row.endpoint in s.endpoints && !s.endpoints[env.phase.row.endpoint].active)
    && (env.phase.Staged? && env.phase.cause.Replied? ==> env.phase.row.status != Failed)
  }

  ghost predicate WorldOk(s: State) {
    && (forall r :: r in s.calls ==> s.calls[r].tenant in s.tenants)
    && (forall e :: e in s.events ==> s.events[e].tenant in s.tenants)
    && (forall e :: e in s.endpoints ==> s.endpoints[e].tenant in s.tenants && (e, s.endpoints[e].url) in s.urls)
  }

  ghost predicate WorkOk(s: State) {
    && (forall d :: d in s.rows ==> RowOwned(s, s.rows[d]))
    && (forall m :: m in s.msgs ==> MessageOwned(s, s.msgs[m]))
    && (forall d :: d in s.rows && d in s.hist ==> PostsOwned(s, s.rows[d], s.hist[d]))
  }

  ghost predicate Owned(c: Config, s: State) {
    Base(c, s) && Consistent(s.events, s.calls) && WorldOk(s) && WorkOk(s)
  }

  lemma MoveKeeps(s: State, r: Id, move: Move, s': State)
    requires Consistent(s.events, s.calls) && WorldOk(s) && Moves(s, r, move, s')
    ensures Keeps(s, s') && WorldOk(s')
  {
    if move.CommitEvent? {
      assert CallOk(s.events, s.calls, r);
    }
  }

  lemma ChangeKeeps(s: State, change: Change, s': State)
    requires WorldOk(s) && Changes(s, change, s')
    ensures Keeps(s, s') && WorldOk(s')
  {
  }

  /** The workers' side of a state stays in order when only the world grew. */
  lemma WorldMayGrow(s: State, s': State)
    requires WorkOk(s) && Keeps(s, s') && s'.rows == s.rows && s'.msgs == s.msgs && s'.hist == s.hist
    ensures WorkOk(s')
  {
    forall d | d in s'.rows ensures RowOwned(s', s'.rows[d]) {
      assert RowOwned(s, s.rows[d]);
    }
    forall m | m in s'.msgs ensures MessageOwned(s', s'.msgs[m]) {
      assert MessageOwned(s, s.msgs[m]);
    }
    forall d | d in s'.rows && d in s'.hist ensures PostsOwned(s', s'.rows[d], s'.hist[d]) {
      assert PostsOwned(s, s.rows[d], s.hist[d]);
    }
  }

  /** What an execution's next phase owes to its row. */
  lemma PhaseOwned(c: Config, s: State, m: Id, act: Act, s': State)
    requires m in s.msgs && MessageOk(c, s, m) && WorldOk(s) && MessageOwned(s, s.msgs[m])
    requires Holding(s.msgs[m].phase) ==> RowOwned(s, s.rows[s.msgs[m].body.delivery])
    requires Acts(c, s, m, act, s') && !Visible(act)
    ensures m in s'.msgs && MessageOwned(s', s'.msgs[m])
  {
    if act.Bind? {
      BindOwned(c, s, m, s');
    } else if act.Plan? {
      PlanOwned(c, s, m, act, s');
    } else if act.Post? {
      PostingOwned(c, s, m, s');
    } else if act.Hear? || act.Retry? {
      AnswerOwned(c, s, m, act, s');
    } else {
      OtherOwned(c, s, m, act, s');
    }
  }

  lemma BindOwned(c: Config, s: State, m: Id, s': State)
    requires m in s.msgs && MessageOk(c, s, m) && WorldOk(s) && Acts(c, s, m, Bind, s')
    requires RowOwned(s, s.rows[s.msgs[m].body.delivery])
    ensures m in s'.msgs && MessageOwned(s', s'.msgs[m])
  {
  }

  lemma PlanOwned(c: Config, s: State, m: Id, act: Act, s': State)
    requires m in s.msgs && MessageOwned(s, s.msgs[m]) && act.Plan? && Acts(c, s, m, act, s')
    ensures m in s'.msgs && MessageOwned(s', s'.msgs[m])
  {
  }

  lemma PostingOwned(c: Config, s: State, m: Id, s': State)
    requires m in s.msgs && MessageOwned(s, s.msgs[m]) && Acts(c, s, m, Post, s')
    ensures m in s'.msgs && MessageOwned(s', s'.msgs[m])
  {
  }

  /** An answer is no reason to give a row up. */
  lemma AnswerOwned(c: Config, s: State, m: Id, act: Act, s': State)
    requires m in s.msgs && MessageOk(c, s, m) && Acts(c, s, m, act, s') && (act.Hear? || act.Retry?)
    ensures m in s'.msgs && MessageOwned(s', s'.msgs[m])
  {
  }

  lemma OtherOwned(c: Config, s: State, m: Id, act: Act, s': State)
    requires m in s.msgs && MessageOwned(s, s.msgs[m])
    requires Acts(c, s, m, act, s') && (act.Start? || act.Claim? || act.Scan? || act.Crash?)
    ensures m in s'.msgs && MessageOwned(s', s'.msgs[m])
  {
  }

  /** The only act that adds a POST to a history adds the one its execution was bound to. */
  lemma OneObservation(c: Config, s: State, m: Id, act: Act, s': State, d: Id)
    requires m in s.msgs && Acts(c, s, m, act, s') && !act.Expand? && d in s.hist
    ensures d in s'.hist && s.hist[d] <= s'.hist[d] && |s'.hist[d]| <= |s.hist[d]| + 1
    ensures |s'.hist[d]| > |s.hist[d]| && s'.hist[d][|s.hist[d]|].Posted? ==>
              && s.msgs[m].phase.Bound? && s.msgs[m].body.Deliver? && s.msgs[m].body.delivery == d
              && s'.hist[d][|s.hist[d]|].request == s.msgs[m].phase.post
  {
    if !(act.Claim? || act.Post? || act.Hear? || act.Commit? || act.Crash?) {
      NoNews(c, s, m, act, s');
    }
  }

  lemma NoNews(c: Config, s: State, m: Id, act: Act, s': State)
    requires Acts(c, s, m, act, s')
    requires !(act.Claim? || act.Post? || act.Hear? || act.Commit? || act.Crash? || act.Expand?)
    ensures s'.hist == s.hist
  {
  }

  /** Histories stay in order when rows keep their owners and every new POST is owned. */
  lemma PostsStayOwned(c: Config, s: State, m: Id, act: Act, s': State, d: Id)
    requires m in s.msgs && MessageOk(c, s, m) && MessageOwned(s, s.msgs[m])
    requires d in s.rows && d in s.hist && PostsOwned(s, s.rows[d], s.hist[d])
    requires SameApi(s, s') && Acts(c, s, m, act, s') && !act.Expand?
    requires d in s'.rows && Origin(s'.rows[d]) == Origin(s.rows[d])
    ensures d in s'.hist && PostsOwned(s', s'.rows[d], s'.hist[d])
  {
    OneObservation(c, s, m, act, s', d);
    forall i | 0 <= i < |s'.hist[d]| && s'.hist[d][i].Posted? ensures PostOwned(s', s'.rows[d], s'.hist[d][i].request) {
      if i < |s.hist[d]| {
        assert s'.hist[d][i] == s.hist[d][i];
      }
    }
  }

  lemma TaskMessagesOwned(c: Config, s: State, m: Id, act: Act, s': State)
    requires WorldOk(s) && WorkOk(s)
    requires m in s.msgs && MessageOk(c, s, m) && Acts(c, s, m, act, s') && !Visible(act)
    ensures forall x :: x in s'.msgs ==> MessageOwned(s', s'.msgs[x])
  {
    TaskFrame(c, s, m, act, s');
    PhaseOwned(c, s, m, act, s');
    forall x | x in s'.msgs ensures MessageOwned(s', s'.msgs[x]) {
      if x in s.msgs {
        assert MessageOwned(s, s.msgs[x]);
      }
    }
  }

  lemma TaskOwned(c: Config, s: State, m: Id, act: Act, s': State)
    requires Histories(c, s) && WorldOk(s) && WorkOk(s)
    requires m in s.msgs && MessageOk(c, s, m) && Acts(c, s, m, act, s') && !Visible(act)
    ensures WorkOk(s')
  {
    TaskFrame(c, s, m, act, s');
    TaskMessagesOwned(c, s, m, act, s');
    forall d | d in s'.rows ensures RowOwned(s', s'.rows[d]) {
      assert RowOwned(s, s.rows[d]);
    }
    forall d | d in s'.rows && d in s'.hist ensures PostsOwned(s', s'.rows[d], s'.hist[d]) {
      PostsStayOwned(c, s, m, act, s', d);
    }
  }

  lemma CommitOwned(c: Config, s: State, m: Id)
    requires WorkOk(s)
    requires m in s.msgs && MessageOk(c, s, m) && s.msgs[m].phase.Staged? && s.msgs[m].body.Deliver?
    ensures WorkOk(CommitRow(s, m))
  {
    var s' := CommitRow(s, m);
    assert MessageOwned(s, s.msgs[m]);
    forall x | x in s'.msgs ensures MessageOwned(s', s'.msgs[x]) {
      assert MessageOwned(s, s.msgs[x]);
    }
    forall d | d in s'.rows ensures RowOwned(s', s'.rows[d]) {
      assert RowOwned(s, s.rows[d]);
    }
    forall d | d in s'.rows && d in s'.hist ensures PostsOwned(s', s'.rows[d], s'.hist[d]) {
      if d in s.hist {
        assert PostsOwned(s, s.rows[d], s.hist[d]);
      }
    }
  }

  lemma GrownOwned(s: State, m: Id, ids: seq<Id>, created: DateTime, s': State)
    requires WorldOk(s) && WorkOk(s) && m in s.msgs && s.msgs[m].body.FanOut? && s.msgs[m].phase.Planned?
    requires Grown(s, s', m, ids, created)
    ensures WorkOk(s')
  {
    assert MessageOwned(s, s.msgs[m]);
    var targets := s.msgs[m].phase.targets;
    forall x | x in s'.msgs ensures MessageOwned(s', s'.msgs[x]) {
      assert MessageOwned(s, s.msgs[x]);
    }
    forall d | d in s'.rows ensures RowOwned(s', s'.rows[d]) {
      if d in ids {
        var i :| 0 <= i < |ids| && ids[i] == d;
        assert targets[i] in targets;
      } else {
        assert RowOwned(s, s.rows[d]);
      }
    }
    forall d | d in s'.rows && d in s'.hist ensures PostsOwned(s', s'.rows[d], s'.hist[d]) {
      if d !in ids {
        assert PostsOwned(s, s.rows[d], s.hist[d]);
      }
    }
  }

  /** Steps that only add or retire deliveries' messages, or move the clock. */
  lemma QueueOwned(s: State, s': State)
    requires WorkOk(s) && SameApi(s, s') && s'.rows == s.rows && s'.hist == s.hist
    requires forall x :: x in s'.msgs ==> (x in s.msgs && s'.msgs[x] == s.msgs[x]) || MessageOwned(s, s'.msgs[x])
    ensures WorkOk(s')
  {
    forall x | x in s'.msgs ensures MessageOwned(s', s'.msgs[x]) {
      assert x in s.msgs ==> MessageOwned(s, s.msgs[x]);
    }
    forall d | d in s'.rows ensures RowOwned(s', s'.rows[d]) {
      assert RowOwned(s, s.rows[d]);
    }
    forall d | d in s'.rows && d in s'.hist ensures PostsOwned(s', s'.rows[d], s'.hist[d]) {
      assert PostsOwned(s, s.rows[d], s.hist[d]);
    }
  }

  lemma ActOwned(c: Config, s: State, m: Id, act: Act, s': State)
    requires Base(c, s) && WorldOk(s) && WorkOk(s) && Acts(c, s, m, act, s')
    ensures WorkOk(s')
  {
    assert MessageOk(c, s, m);
    TaskSameApi(c, s, m, act, s');
    if !Visible(act) {
      TaskOwned(c, s, m, act, s');
    } else if act.Commit? {
      CommitOwned(c, s, m);
    } else if act.Expand? {
      Grows(s, m, act.ids, act.created);
      GrownOwned(s, m, act.ids, act.created, s');
    } else {
      assert MessageOk(c, s, m) && MessageOwned(s, s.msgs[m]);
      QueueOwned(s, s');
    }
  }

  lemma AnnounceOwned(s: State, r: Id, copy: Id, s': State)
    requires WorkOk(s) && Consistent(s.events, s.calls) && Moves(s, r, DispatchEvent(copy), s') && Keeps(s, s')
    ensures WorkOk(s')
  {
    assert CallOk(s.events, s.calls, r);
    var s1 := Enqueue(s, copy, FanOut(s.calls[r].stage.event, s.calls[r].tenant));
    QueueOwned(s, s1);
    WorldMayGrow(s1, s');
  }

  lemma StepWork(c: Config, s: State, step: Step, s': State)
    requires Owned(c, s) && Next(c, s, step, s')
    ensures WorldOk(s') && WorkOk(s') && Keeps(s, s')
  {
    match step
    case Task(m, act) => TaskSameApi(c, s, m, act, s'); ActOwned(c, s, m, act, s');
    case Tick(to) => QueueOwned(s, s');
    case Duplicate(m, copy) => assert MessageOwned(s, s.msgs[m]); QueueOwned(s, s');
    case Beat(copy) => QueueOwned(s, s');
    case Api(r, move) =>
      MoveKeeps(s, r, move, s');
      if move.DispatchEvent? {
        AnnounceOwned(s, r, move.copy, s');
      } else {
        MoveAside(s, r, move, s');
        WorldMayGrow(s, s');
      }
    case Admin(change) => ChangeKeeps(s, change, s'); ChangeAside(s, change, s'); WorldMayGrow(s, s');
  }

  lemma StepOwned(c: Config, s: State, step: Step, s': State)
    requires Owned(c, s) && Next(c, s, step, s')
    ensures Owned(c, s') && Keeps(s, s')
  {
    BaseKept(c, s, step, s');
    StepConsistent(c, s, step, s');
    StepWork(c, s, step, s');
  }

  lemma KeepsOn(s1: State, s2: State, s3: State)
    requires Keeps(s1, s2) && Keeps(s2, s3)
    ensures Keeps(s1, s3)
  {
  }

  lemma AlwaysOwned(c: Config, states: seq<State>, steps: seq<Step>, i: nat, j: nat)
    requires Run(c, states, steps) && i <= j <= |steps| && Owned(c, states[i])
    ensures Owned(c, states[j])
  {
    if i < j {
      AlwaysOwned(c, states, steps, i, j - 1);
      StepOwned(c, states[j - 1], steps[j - 1], states[j]);
    }
  }

  lemma OneKeeps(c: Config, states: seq<State>, steps: seq<Step>, k: nat)
    requires Run(c, states, steps) && k < |steps| && Owned(c, states[0])
    ensures Keeps(states[k], states[k + 1])
  {
    AlwaysOwned(c, states, steps, 0, k);
    StepOwned(c, states[k], steps[k], states[k + 1]);
  }

  lemma {:induction false} KeepsChain(states: seq<State>, i: nat, j: nat)
    requires i <= j < |states| && forall k :: i <= k < j ==> Keeps(states[k], states[k + 1])
    ensures Keeps(states[i], states[j])
  {
    if i < j {
      KeepsChain(states, i, j - 1);
      assert Keeps(states[j - 1], states[j - 1 + 1]);
      KeepsOn(states[i], states[j - 1], states[j]);
    }
  }

  lemma ReachableOwned(c: Config, s: State)
    requires Reachable(c, s)
    ensures Owned(c, s)
  {
    var t, states, steps :| Run(c, states, steps) && states[0] == Init(t) && states[|steps|] == s;
    assert Owned(c, states[0]);
    AlwaysOwned(c, states, steps, 0, |steps|);
  }

  /** In every run tenants and events never change, endpoints keep their tenant, deleted ones stay deleted. */
  lemma OwnersStay(c: Config, states: seq<State>, steps: seq<Step>, i: nat, j: nat)
    requires Run(c, states, steps) && Reachable(c, states[0]) && i <= j <= |steps|
    ensures Keeps(states[i], states[j])
  {
    ReachableOwned(c, states[0]);
    forall k | i <= k < j ensures Keeps(states[k], states[k + 1]) {
      OneKeeps(c, states, steps, k);
    }
    KeepsChain(states, i, j);
  }

  /**
   Every delivery belongs to the tenant of its event and of its endpoint, and every POST ever made
   for it carried that event to a URL of that endpoint, signed with that tenant's secret. A row is
   `failed` only if its endpoint has been deleted.
   */
  lemma TenantsKeptApart(c: Config, s: State, d: Id, i: nat)
    requires Reachable(c, s) && d in s.rows && d in s.hist
    ensures RowOwned(s, s.rows[d])
    ensures i < |s.hist[d]| && s.hist[d][i].Posted? ==> PostOwned(s, s.rows[d], s.hist[d][i].request)
  {
    ReachableOwned(c, s);
    assert RowOwned(s, s.rows[d]) && PostsOwned(s, s.rows[d], s.hist[d]);
  }
}
