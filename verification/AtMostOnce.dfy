/** End to end at most once: the right to fan an event out is a token that is never copied. */
module AtMostOnce {
  import opened Types
  import opened Lifecycle
  import opened Protocol
  import opened Invariant
  import opened Attempts
  import opened Ingest
  import opened Ownership

  predicate NoCrash(step: Step) {
    step.Task? ==> !step.act.Crash?
  }

  /** A fan-out dies after its commit, before its last message is sent. */
  predicate Gap(s: State, step: Step) {
    step.Task? && step.act.Crash? && step.m in s.msgs && s.msgs[step.m].body.FanOut? && s.msgs[step.m].phase.Sending?
  }

  ghost predicate GapFreeRun(c: Config, states: seq<State>, steps: seq<Step>) {
    Run(c, states, steps) && forall i {:trigger steps[i]} :: 0 <= i < |steps| ==> !Gap(states[i], steps[i])
  }

  /** No fan-out is done again: none dies in its window, and no fan-out message is duplicated. */
  predicate Steady(s: State, step: Step) {
    !Gap(s, step) && (step.Duplicate? && step.m in s.msgs ==> !s.msgs[step.m].body.FanOut?)
  }

  ghost predicate SteadyRun(c: Config, states: seq<State>, steps: seq<Step>) {
    Run(c, states, steps) && forall i {:trigger steps[i]} :: 0 <= i < |steps| ==> Steady(states[i], steps[i])
  }

  /** Nothing dies; the broker may duplicate. */
  ghost predicate CrashFreeRun(c: Config, states: seq<State>, steps: seq<Step>) {
    Run(c, states, steps) && forall i {:trigger steps[i]} :: 0 <= i < |steps| ==> NoCrash(steps[i])
  }

  /** Message `m` may still insert the rows of event `e`. */
  predicate Token(msgs: map<Id, Envelope>, m: Id, e: Id) {
    m in msgs && msgs[m].body.FanOut? && msgs[m].body.event == e
    && (msgs[m].phase.Queued? || msgs[m].phase.Received? || msgs[m].phase.Planned?)
  }

  /** Request `r` may still announce event `e`. */
  predicate Pledge(calls: map<Id, Call>, r: Id, e: Id) {
    r in calls && calls[r].stage == Stored(e)
  }

  predicate SameSlot(x: Delivery, y: Delivery) {
    x.event == y.event && x.endpoint == y.endpoint
  }

  ghost predicate Single(calls: map<Id, Call>, msgs: map<Id, Envelope>, rows: map<Id, Delivery>) {
    && (forall r, m, e :: Pledge(calls, r, e) ==> !Token(msgs, m, e))
    && (forall m1, m2, e :: Token(msgs, m1, e) && Token(msgs, m2, e) ==> m1 == m2)
    && (forall d, r :: d in rows ==> !Pledge(calls, r, rows[d].event))
    && (forall d, m :: d in rows ==> !Token(msgs, m, rows[d].event))
    && (forall d1, d2 :: d1 in rows && d2 in rows && SameSlot(rows[d1], rows[d2]) ==> d1 == d2)
    && (forall m :: m in msgs && msgs[m].phase.Planned? ==> Distinct(msgs[m].phase.targets))
    && (forall m :: m in msgs && msgs[m].phase.Finished? ==> msgs[m].body.Deliver?)
  }

  /** No token, pledge or row appears. */
  lemma TokensShrink(calls: map<Id, Call>, msgs: map<Id, Envelope>, rows: map<Id, Delivery>,
                     calls': map<Id, Call>, msgs': map<Id, Envelope>, rows': map<Id, Delivery>)
    requires Single(calls, msgs, rows)
    requires forall r, e :: Pledge(calls', r, e) ==> Pledge(calls, r, e)
    requires forall m, e :: Token(msgs', m, e) ==> Token(msgs, m, e)
    requires forall d :: d in rows' ==> d in rows && SameSlot(rows'[d], rows[d])
    requires forall m :: m in msgs' && msgs'[m].phase.Planned? ==>
               Distinct(msgs'[m].phase.targets) || (m in msgs && msgs[m] == msgs'[m])
    requires forall m :: m in msgs' && msgs'[m].phase.Finished? ==>
               msgs'[m].body.Deliver? || (m in msgs && msgs[m] == msgs'[m])
    ensures Single(calls', msgs', rows')
  {
  }

  lemma TaskSingle(c: Config, s: State, m: Id, act: Act, s': State)
    requires Single(s.calls, s.msgs, s.rows) && Acts(c, s, m, act, s') && !Visible(act) && !Gap(s, Task(m, act))
    requires m in s.msgs && MessageOk(c, s, m)
    ensures Single(s'.calls, s'.msgs, s'.rows)
  {
    TaskFrame(c, s, m, act, s');
    PlanIsDistinct(c, s, m, act, s');
    TokensShrink(s.calls, s.msgs, s.rows, s'.calls, s'.msgs, s'.rows);
  }

  lemma PlanIsDistinct(c: Config, s: State, m: Id, act: Act, s': State)
    requires Acts(c, s, m, act, s') && !Visible(act) && !Gap(s, Task(m, act))
    requires m in s.msgs && MessageOk(c, s, m) && (s.msgs[m].phase.Finished? ==> s.msgs[m].body.Deliver?)
    ensures m in s'.msgs && s'.msgs[m].body == s.msgs[m].body
    ensures s'.msgs[m].phase.Finished? ==> s'.msgs[m].body.Deliver?
    ensures s'.msgs[m].phase.Planned? ==> Distinct(s'.msgs[m].phase.targets)
    ensures forall e :: Token(s'.msgs, m, e) ==> Token(s.msgs, m, e)
  {
  }

  /** The fan-out of `m` spends its token, and the rows it adds have the slots of its targets. */
  lemma GrownSpends(s: State, m: Id, ids: seq<Id>, created: DateTime, s': State)
    requires Single(s.calls, s.msgs, s.rows) && m in s.msgs && s.msgs[m].body.FanOut? && s.msgs[m].phase.Planned?
    requires Grown(s, s', m, ids, created)
    ensures Token(s.msgs, m, s.msgs[m].body.event)
    ensures forall x, e :: Token(s'.msgs, x, e) ==> Token(s.msgs, x, e) && x != m
    ensures forall d :: d in s.rows ==> d in s'.rows && s'.rows[d] == s.rows[d]
    ensures forall d :: d in s'.rows && d !in s.rows ==>
              s'.rows[d].event == s.msgs[m].body.event
              && exists i :: 0 <= i < |ids| && ids[i] == d && i < |s.msgs[m].phase.targets|
                             && s'.rows[d].endpoint == s.msgs[m].phase.targets[i]
  {
    forall d | d in s'.rows && d !in s.rows
      ensures s'.rows[d].event == s.msgs[m].body.event
      ensures exists i :: 0 <= i < |ids| && ids[i] == d && s'.rows[d].endpoint == s.msgs[m].phase.targets[i]
    {
      var i :| 0 <= i < |ids| && ids[i] == d;
    }
  }

  /** Rows of an event without token or pledge, one for each of distinct targets. */
  lemma SlotsStayApart(rows: map<Id, Delivery>, rows': map<Id, Delivery>, e: Id, ids: seq<Id>, targets: seq<Id>)
    requires |ids| == |targets| && Distinct(targets)
    requires forall d1, d2 :: d1 in rows && d2 in rows && SameSlot(rows[d1], rows[d2]) ==> d1 == d2
    requires forall d :: d in rows ==> rows[d].event != e && d in rows' && rows'[d] == rows[d]
    requires forall d :: d in rows' && d !in rows ==>
               rows'[d].event == e && exists i :: 0 <= i < |ids| && ids[i] == d && rows'[d].endpoint == targets[i]
    ensures forall d1, d2 :: d1 in rows' && d2 in rows' && SameSlot(rows'[d1], rows'[d2]) ==> d1 == d2
  {
  }

  lemma GrownSingle(s: State, m: Id, ids: seq<Id>, created: DateTime, s': State)
    requires Single(s.calls, s.msgs, s.rows) && m in s.msgs && s.msgs[m].body.FanOut? && s.msgs[m].phase.Planned?
    requires Grown(s, s', m, ids, created)
    ensures Single(s'.calls, s'.msgs, s'.rows)
  {
    GrownSpends(s, m, ids, created, s');
    SlotsStayApart(s.rows, s'.rows, s.msgs[m].body.event, ids, s.msgs[m].phase.targets);
  }

  lemma ActSingle(c: Config, s: State, m: Id, act: Act, s': State)
    requires Base(c, s) && Single(s.calls, s.msgs, s.rows) && Acts(c, s, m, act, s') && !Gap(s, Task(m, act))
    ensures Single(s'.calls, s'.msgs, s'.rows)
  {
    assert MessageOk(c, s, m);
    if !Visible(act) {
      TaskSingle(c, s, m, act, s');
    } else if act.Expand? {
      Grows(s, m, act.ids, act.created);
      GrownSingle(s, m, act.ids, act.created, s');
    } else {
      VisibleSingle(c, s, m, act, s');
    }
  }

  /** A commit, a dispatch or an ack: no token, pledge or slot appears. */
  lemma VisibleSingle(c: Config, s: State, m: Id, act: Act, s': State)
    requires Single(s.calls, s.msgs, s.rows) && Acts(c, s, m, act, s') && (act.Commit? || act.Send? || act.Ack?)
    requires m in s.msgs && MessageOk(c, s, m)
    ensures Single(s'.calls, s'.msgs, s'.rows)
  {
    TokensShrink(s.calls, s.msgs, s.rows, s'.calls, s'.msgs, s'.rows);
  }

  /** A request commits its own new event: the pledge is the first and only claim on that event. */
  lemma StoreSingle(s: State, r: Id, e: Id, s': State)
    requires OwnersKnown(s) && Single(s.calls, s.msgs, s.rows) && r in s.calls && s.calls[r].stage == Inserted(e)
    requires s' == CommitCall(s, r)
    ensures Single(s'.calls, s'.msgs, s'.rows)
  {
    assert CallOk(s.events, s.calls, r);
    forall x ensures !Token(s'.msgs, x, e) {
      assert x in s.msgs ==> MessageOwned(s, s.msgs[x]);
    }
    forall d | d in s'.rows ensures s'.rows[d].event != e {
      assert RowOwned(s, s.rows[d]);
    }
    assert forall x, f :: Pledge(s'.calls, x, f) ==> Pledge(s.calls, x, f) || f == e;
  }

  ghost predicate OwnersKnown(s: State) {
    Consistent(s.events, s.calls) && WorkOk(s)
  }

  /** The pledge turns into the one token of its event. */
  lemma AnnounceSingle(s: State, r: Id, copy: Id, s': State)
    requires OwnersKnown(s) && Single(s.calls, s.msgs, s.rows)
    requires r in s.calls && s.calls[r].stage.Stored? && copy !in s.msgs && s' == SendFanOut(s, r, copy)
    ensures Single(s'.calls, s'.msgs, s'.rows)
  {
    var e := s.calls[r].stage.event;
    assert Pledge(s.calls, r, e) && Created(s.calls[r], e);
    forall x ensures !Pledge(s'.calls, x, e) {
      assert x in s.calls && Created(s.calls[x], e) ==> x == r;
    }
    assert forall x, f :: Pledge(s'.calls, x, f) ==> Pledge(s.calls, x, f);
    assert forall x, f :: Token(s'.msgs, x, f) ==> Token(s.msgs, x, f) || (x == copy && f == e);
  }

  lemma MoveSingle(c: Config, s: State, r: Id, move: Move, s': State)
    requires OwnersKnown(s) && Single(s.calls, s.msgs, s.rows) && Moves(s, r, move, s')
    ensures Single(s'.calls, s'.msgs, s'.rows)
  {
    if move.DispatchEvent? {
      AnnounceSingle(s, r, move.copy, s');
    } else if move.CommitEvent? && s.calls[r].stage.Inserted? {
      StoreSingle(s, r, s.calls[r].stage.event, s');
    } else {
      MoveAside(s, r, move, s');
      TokensShrink(s.calls, s.msgs, s.rows, s'.calls, s'.msgs, s'.rows);
    }
  }

  lemma StepSingle(c: Config, s: State, step: Step, s': State)
    requires Owned(c, s) && Single(s.calls, s.msgs, s.rows) && Next(c, s, step, s') && Steady(s, step)
    ensures Single(s'.calls, s'.msgs, s'.rows)
  {
    match step
    case Task(m, act) => ActSingle(c, s, m, act, s');
    case Tick(_) =>
    case Duplicate(_, _) => TokensShrink(s.calls, s.msgs, s.rows, s'.calls, s'.msgs, s'.rows);
    case Beat(_) => TokensShrink(s.calls, s.msgs, s.rows, s'.calls, s'.msgs, s'.rows);
    case Api(r, move) => MoveSingle(c, s, r, move, s');
    case Admin(change) => ChangeAside(s, change, s');
  }

  lemma AlwaysSingle(c: Config, states: seq<State>, steps: seq<Step>, i: nat)
    requires SteadyRun(c, states, steps) && i <= |steps| && Owned(c, states[0])
    requires Single(states[0].calls, states[0].msgs, states[0].rows)
    ensures Single(states[i].calls, states[i].msgs, states[i].rows)
  {
    if i > 0 {
      AlwaysSingle(c, states, steps, i - 1);
      SingleOn(c, states, steps, i - 1);
    }
  }

  lemma SingleOn(c: Config, states: seq<State>, steps: seq<Step>, k: nat)
    requires SteadyRun(c, states, steps) && k < |steps| && Owned(c, states[0])
    requires Single(states[k].calls, states[k].msgs, states[k].rows)
    ensures Single(states[k + 1].calls, states[k + 1].msgs, states[k + 1].rows)
  {
    AlwaysOwned(c, states, steps, 0, k);
    StepSingle(c, states[k], steps[k], states[k + 1]);
  }

  /** Without crashes no history contains a rollback. */
  lemma StepCrashFree(c: Config, s: State, step: Step, s': State, d: Id)
    requires Base(c, s) && Next(c, s, step, s') && NoCrash(step) && d in s'.rows
    requires d in s.rows ==> d in s.hist && CrashFree(s.hist[d])
    ensures d in s'.hist && CrashFree(s'.hist[d])
  {
    match step
    case Task(m, act) => TaskCrashFree(c, s, m, act, s', d);
    case Tick(_) =>
    case Duplicate(_, _) =>
    case Beat(_) =>
    case Api(r, move) => if move.DispatchEvent? { MoveAnnounces(s, r, move.copy, s'); }
      else { MoveAside(s, r, move, s'); }
    case Admin(change) => ChangeAside(s, change, s');
  }

  lemma TaskCrashFree(c: Config, s: State, m: Id, act: Act, s': State, d: Id)
    requires Base(c, s) && Acts(c, s, m, act, s') && !act.Crash? && d in s'.rows
    requires d in s.rows ==> d in s.hist && CrashFree(s.hist[d])
    ensures d in s'.hist && CrashFree(s'.hist[d])
  {
    assert MessageOk(c, s, m);
    if act.Expand? {
      Grows(s, m, act.ids, act.created);
    } else if !(act.Claim? || act.Post? || act.Hear? || act.Commit?) {
      NoNews(c, s, m, act, s');
      RowsStay(c, s, m, act, s');
    }
  }

  lemma RowsStay(c: Config, s: State, m: Id, act: Act, s': State)
    requires Acts(c, s, m, act, s') && !act.Commit? && !act.Expand?
    ensures s'.rows == s.rows
  {
    if !Visible(act) {
      TaskFrame(c, s, m, act, s');
    }
  }

  lemma AlwaysCrashFree(c: Config, states: seq<State>, steps: seq<Step>, i: nat, d: Id)
    requires CrashFreeRun(c, states, steps) && i <= |steps| && Base(c, states[0]) && states[0].rows == map[]
    requires d in states[i].rows
    ensures d in states[i].hist && CrashFree(states[i].hist[d])
  {
    if i > 0 {
      if d in states[i - 1].rows {
        AlwaysCrashFree(c, states, steps, i - 1, d);
      }
      BaseAlways(c, states, steps, i - 1);
      StepCrashFree(c, states[i - 1], steps[i - 1], states[i], d);
    }
  }

  /** The delivery is for an event with this tenant and idempotency key. */
  predicate ForKey(s: State, d: Id, tenant: Id, key: Option<string>) {
    d in s.rows && s.rows[d].event in s.events
    && s.events[s.rows[d].event].tenant == tenant && s.events[s.rows[d].event].key == key
  }

  /**
   One delivery for each (tenant, non-null key, endpoint), whatever crashes and duplicates there are,
   as long as no fan-out is done again.
   */
  lemma OneDeliveryPerKey(c: Config, t: Time, states: seq<State>, steps: seq<Step>, d1: Id, d2: Id, tenant: Id,
                          key: Option<string>)
    requires SteadyRun(c, states, steps) && states[0] == Init(t) && key.Some?
    requires var s := states[|steps|];
             ForKey(s, d1, tenant, key) && ForKey(s, d2, tenant, key) && s.rows[d1].endpoint == s.rows[d2].endpoint
    ensures d1 == d2
  {
    var s := states[|steps|];
    assert Owned(c, states[0]);
    AlwaysSingle(c, states, steps, |steps|);
    AlwaysOwned(c, states, steps, 0, |steps|);
    assert SameKey(s.events[s.rows[d1].event], s.events[s.rows[d2].event]);
    assert SameSlot(s.rows[d1], s.rows[d2]);
  }

  /** In every run: each POST beyond the attempts there can be, and each 2xx beyond one, was rolled back. */
  lemma PostsAndWins(c: Config, s: State, d: Id)
    requires Reachable(c, s) && d in s.rows
    ensures d in s.hist && Posts(s.hist[d]) <= |c.delays| + 1 + LostPosts(s.hist[d])
    ensures Wins(s.hist[d]) <= 1 + LostPosts(s.hist[d])
  {
    PostAccounting(c, s, d);
    HistoryIsLegal(c, s, d);
    WinsBounded(c.delays, Origin(s.rows[d]), s.epoch, s.hist[d]);
  }

  /**
   End to end: a (tenant, non-null key, endpoint) has at most one delivery; if nothing died while
   working on it, it is posted at most `len(delays) + 1` times and accepted at most once, and each
   rolled-back POST allows one more of both.
   */
  lemma EndToEndAtMostOnce(c: Config, t: Time, states: seq<State>, steps: seq<Step>, d1: Id, d2: Id, tenant: Id,
                           key: Option<string>)
    requires Run(c, states, steps) && states[0] == Init(t) && key.Some?
    requires forall i, m {:trigger steps[i], m in states[i].msgs} ::
               0 <= i < |steps| && m in states[i].msgs && states[i].msgs[m].body.FanOut? ==>
                 !(steps[i].Duplicate? && steps[i].m == m)
                 && !(steps[i] == Task(m, Crash) && states[i].msgs[m].phase.Sending?)
    requires var s := states[|steps|]; d1 in s.rows && d2 in s.rows && var x, y := s.rows[d1], s.rows[d2];
             && x.endpoint == y.endpoint && x.event in s.events && y.event in s.events
             && s.events[x.event].tenant == tenant && s.events[x.event].key == key
             && s.events[y.event].tenant == tenant && s.events[y.event].key == key
    ensures d1 == d2 && d1 in states[|steps|].hist
    ensures var h := states[|steps|].hist[d1];
            && Posts(h) <= |c.delays| + 1 + LostPosts(h) && Wins(h) <= 1 + LostPosts(h)
            && (CrashFree(h) ==> Posts(h) <= |c.delays| + 1 && Wins(h) <= 1)
  {
    var s := states[|steps|];
    assert SteadyRun(c, states, steps);
    OneDeliveryPerKey(c, t, states, steps, d1, d2, tenant, key);
    assert Reachable(c, s);
    PostsAndWins(c, s, d1);
    if CrashFree(s.hist[d1]) {
      NothingLost(s.hist[d1]);
    }
  }
}
