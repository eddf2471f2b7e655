/**
 What every step keeps: locks and executions agree, an open transaction works on the committed
 row, and every row's history is a legal life that ends in the committed row.
 */
module Invariant {
  import opened Types
  import opened Rules
  import opened Lifecycle
  import opened Protocol

  function Origin(r: Delivery): Delivery {
    NewDelivery(r.event, r.endpoint, r.tenant, r.created)
  }

  /** Execution `m` holds the lock of its row, which still qualifies for the claim. */
  predicate Held(s: State, m: Id)
    requires m in s.msgs
  {
    var b := s.msgs[m].body;
    && b.Deliver? && b.delivery in s.rows && b.delivery in s.locks && s.locks[b.delivery] == m
    && Claimable(s.rows[b.delivery], b.tenant, s.now)
  }

  /** `p` is a phase an execution can be in while it holds `row`. */
  predicate Works(c: Config, row: Delivery, now: Time, p: Phase) {
    match p
    case Claimed(r) => r == row
    case Bound(r, _) => r == row
    case InFlight(r, _) => r == Begin(row)
    case Answered(r, a, at) => at <= now && r == Classify(c.delays, Begin(row), a, at) && r.status == Pending
    case Staged(r, cause) =>
      (match cause
       case Missing => r == GiveUp(row)
       case Replied(a, at, retry) =>
         at <= now && r == Classify(c.delays, Begin(row), a, at) && (r.status == Pending <==> retry.Some?))
    case _ => false
  }

  predicate MessageOk(c: Config, s: State, m: Id)
    requires m in s.msgs
  {
    var b := s.msgs[m].body; var p := s.msgs[m].phase;
    && (b.Deliver? ==> b.delivery in s.rows && b.tenant == s.rows[b.delivery].tenant && (p.Queued? || b.eta <= s.now))
    && (Holding(p) ==> Held(s, m) && Works(c, s.rows[b.delivery], s.now, p))
    && (p.Planned? ==> b.FanOut?)
    && (p.Sending? ==> !b.Deliver? && forall t :: t in p.todo ==> t.0 in s.rows && s.rows[t.0].tenant == t.1)
  }

  predicate LockOk(s: State, d: Id)
    requires d in s.locks
  {
    && s.locks[d] in s.msgs && Holding(s.msgs[s.locks[d]].phase)
    && s.msgs[s.locks[d]].body.Deliver? && s.msgs[s.locks[d]].body.delivery == d
  }

  ghost predicate Tasks(c: Config, s: State) {
    && (forall m :: m in s.msgs ==> MessageOk(c, s, m))
    && (forall d :: d in s.locks ==> LockOk(s, d))
  }

  lemma LocksAreRows(c: Config, s: State)
    requires Tasks(c, s)
    ensures s.locks.Keys <= s.rows.Keys
  {
    forall d | d in s.locks ensures d in s.rows {
      assert LockOk(s, d) && MessageOk(c, s, s.locks[d]);
    }
  }

  /** The answer an execution has already recorded. */
  function Recorded(p: Phase): Option<Reply> {
    match p
    case Answered(_, a, at) => Some(Reply(a, at))
    case Staged(_, cause) => if cause.Replied? then Some(Reply(cause.answer, cause.at)) else None
    case _ => None
  }

  /** The history is legal, ends in the committed row, and agrees with the execution holding the row. */
  predicate LifeOk(c: Config, epoch: Time, now: Time, row: Delivery, h: seq<Obs>, holder: Option<Id>, p: Phase) {
    var l := Read(Origin(row), epoch, h);
    && Legal(c.delays, Origin(row), epoch, h)
    && l.row == row && l.clock <= now && l.holder == holder
    && l.sent == (holder.Some? && HasPosted(p))
    && l.reply == (if holder.Some? then Recorded(p) else None)
  }

  predicate Lives(c: Config, s: State, d: Id)
    requires d in s.rows && d in s.hist
  {
    if d in s.locks then
      && s.locks[d] in s.msgs
      && LifeOk(c, s.epoch, s.now, s.rows[d], s.hist[d], Some(s.locks[d]), s.msgs[s.locks[d]].phase)
    else LifeOk(c, s.epoch, s.now, s.rows[d], s.hist[d], None, Queued)
  }

  ghost predicate Histories(c: Config, s: State) {
    && s.epoch <= s.now
    && (forall d :: d in s.rows <==> d in s.hist)
    && (forall d :: d in s.rows ==> Lives(c, s, d))
  }

  ghost predicate Base(c: Config, s: State) {
    Tasks(c, s) && Histories(c, s)
  }

  /** Moving one execution inside or outside its transaction, without writing anything. */
  lemma SetPhaseKeeps(c: Config, s: State, m: Id, p: Phase)
    requires m in s.msgs && Base(c, s) && MessageOk(c, SetPhase(s, m, p), m)
    requires Holding(p) == Holding(s.msgs[m].phase)
    requires Holding(p) ==> HasPosted(p) == HasPosted(s.msgs[m].phase) && Recorded(p) == Recorded(s.msgs[m].phase)
    ensures Base(c, SetPhase(s, m, p))
  {
    var s' := SetPhase(s, m, p);
    forall d | d in s'.rows ensures Lives(c, s', d) {
      assert Lives(c, s, d);
    }
  }

  lemma ClaimKeepsTasks(c: Config, s: State, m: Id)
    requires m in s.msgs && s.msgs[m].phase.Received? && s.msgs[m].body.Deliver?
    requires Tasks(c, s)
    ensures Tasks(c, ClaimRow(s, m))
  {
    assert MessageOk(c, s, m);
  }

  lemma ClaimKeepsHistories(c: Config, s: State, m: Id)
    requires m in s.msgs && s.msgs[m].phase.Received? && s.msgs[m].body.Deliver?
    requires Histories(c, s) && MessageOk(c, s, m) && forall d :: d in s.locks ==> LockOk(s, d)
    ensures Histories(c, ClaimRow(s, m))
  {
    var d := s.msgs[m].body.delivery;
    assert Lives(c, s, d);
    Extend(c.delays, Origin(s.rows[d]), s.epoch, s.hist[d], Took(m, s.now));
  }

  lemma SendPostKeeps(c: Config, s: State, m: Id)
    requires m in s.msgs && s.msgs[m].phase.Bound? && s.msgs[m].body.Deliver?
    requires Base(c, s)
    ensures Base(c, SendPost(s, m))
  {
    var d := s.msgs[m].body.delivery; var p := s.msgs[m].phase;
    assert MessageOk(c, s, m) && Lives(c, s, d);
    Extend(c.delays, Origin(s.rows[d]), s.epoch, s.hist[d], Posted(m, s.now, Begin(p.row).attempts, p.post));
  }

  lemma TakeAnswerKeeps(c: Config, s: State, m: Id, a: Answer)
    requires m in s.msgs && s.msgs[m].phase.InFlight? && s.msgs[m].body.Deliver? && s.msgs[m].phase.row.attempts >= 1
    requires Base(c, s)
    ensures Base(c, TakeAnswer(c, s, m, a))
  {
    var d := s.msgs[m].body.delivery;
    assert MessageOk(c, s, m) && Lives(c, s, d);
    Extend(c.delays, Origin(s.rows[d]), s.epoch, s.hist[d], Heard(m, s.now, a));
  }

  lemma SendRetryKeeps(c: Config, s: State, m: Id, copy: Id)
    requires m in s.msgs && s.msgs[m].phase.Answered? && s.msgs[m].body.Deliver? && copy !in s.msgs
    requires 1 <= s.msgs[m].phase.row.attempts <= |c.delays| && Base(c, s)
    ensures Base(c, SendRetry(c, s, m, copy))
  {
    var s' := SendRetry(c, s, m, copy);
    assert MessageOk(c, s, m);
    forall d | d in s'.rows ensures Lives(c, s', d) {
      assert Lives(c, s, d);
    }
  }

  lemma CommitKeepsTasks(c: Config, s: State, m: Id)
    requires m in s.msgs && s.msgs[m].phase.Staged? && s.msgs[m].body.Deliver?
    requires Tasks(c, s)
    ensures Tasks(c, CommitRow(s, m))
  {
    assert MessageOk(c, s, m);
  }

  lemma CommitKeepsHistories(c: Config, s: State, m: Id)
    requires m in s.msgs && s.msgs[m].phase.Staged? && s.msgs[m].body.Deliver?
    requires Histories(c, s) && MessageOk(c, s, m) && forall d :: d in s.locks ==> LockOk(s, d)
    ensures Histories(c, CommitRow(s, m))
  {
    var d := s.msgs[m].body.delivery;
    assert Lives(c, s, d);
    Extend(c.delays, Origin(s.rows[d]), s.epoch, s.hist[d], Wrote(m, s.now, s.msgs[m].phase.row));
  }

  lemma CrashKeeps(c: Config, s: State, m: Id)
    requires m in s.msgs && !s.msgs[m].phase.Queued?
    requires Base(c, s)
    ensures Base(c, CrashTask(s, m))
  {
    var s' := CrashTask(s, m);
    assert MessageOk(c, s, m);
    if Holding(s.msgs[m].phase) {
      var d0 := s.msgs[m].body.delivery;
      assert Lives(c, s, d0);
      Extend(c.delays, Origin(s.rows[d0]), s.epoch, s.hist[d0], Undid(m, s.now, HasPosted(s.msgs[m].phase)));
    }
    forall d | d in s'.rows ensures Lives(c, s', d) {
      assert Lives(c, s, d);
    }
  }

  /** `s'` is `s` after the fan-out `m` committed new rows `ids` and got ready to announce them. */
  ghost predicate Grown(s: State, s': State, m: Id, ids: seq<Id>, created: DateTime)
    requires m in s.msgs && s.msgs[m].body.FanOut? && s.msgs[m].phase.Planned?
  {
    var b := s.msgs[m].body; var targets := s.msgs[m].phase.targets;
    && s' == s.(rows := s'.rows, hist := s'.hist, msgs := Moved(s, m, Sending(WithTenant(ids, b.tenant))))
    && |ids| == |targets| && Distinct(ids)
    && (forall d :: d in s'.rows <==> d in s.rows || d in ids)
    && (forall d :: d in s'.hist <==> d in s.hist || d in ids)
    && (forall d :: d in ids ==> d !in s.rows)
    && (forall d :: d in s.rows ==> s'.rows[d] == s.rows[d])
    && (forall d :: d in s.hist && d !in ids ==> s'.hist[d] == s.hist[d])
    && (forall d :: d in ids ==> s'.hist[d] == [])
    && (forall i :: 0 <= i < |ids| ==> s'.rows[ids[i]] == NewDelivery(b.event, targets[i], b.tenant, created))
  }

  lemma Grows(s: State, m: Id, ids: seq<Id>, created: DateTime)
    requires m in s.msgs && s.msgs[m].body.FanOut? && s.msgs[m].phase.Planned?
    requires |ids| == |s.msgs[m].phase.targets| && Distinct(ids) && forall d :: d in ids ==> d !in s.rows
    ensures Grown(s, InsertRows(s, m, ids, created), m, ids, created)
  {
    var b := s.msgs[m].body;
    var added := NewRows(b.event, b.tenant, s.msgs[m].phase.targets, ids, created);
    assert forall d :: d in added <==> d in ids;
  }

  lemma GrownKeepsTasks(c: Config, s: State, s': State, m: Id, ids: seq<Id>, created: DateTime)
    requires m in s.msgs && s.msgs[m].body.FanOut? && s.msgs[m].phase.Planned? && Grown(s, s', m, ids, created)
    requires Tasks(c, s)
    ensures Tasks(c, s')
  {
    forall x | x in s'.msgs ensures MessageOk(c, s', x) {
      assert MessageOk(c, s, x);
    }
    forall d | d in s'.locks ensures LockOk(s', d) {
      assert LockOk(s, d);
    }
  }

  lemma GrownKeepsHistories(c: Config, s: State, s': State, m: Id, ids: seq<Id>, created: DateTime)
    requires m in s.msgs && s.msgs[m].body.FanOut? && s.msgs[m].phase.Planned? && Grown(s, s', m, ids, created)
    requires Histories(c, s) && Tasks(c, s)
    ensures Histories(c, s')
  {
    LocksAreRows(c, s);
    forall d | d in s'.rows ensures Lives(c, s', d) {
      if d in s.rows {
        assert Lives(c, s, d);
        assert d in s.locks ==> LockOk(s, d);
      } else {
        var i :| 0 <= i < |ids| && ids[i] == d;
      }
    }
  }

  lemma SendNextKeeps(c: Config, s: State, m: Id, copy: Id)
    requires m in s.msgs && s.msgs[m].phase.Sending? && s.msgs[m].phase.todo != [] && copy !in s.msgs && Base(c, s)
    ensures Base(c, SendNext(s, m, copy))
  {
    var s' := SendNext(s, m, copy);
    assert MessageOk(c, s, m);
    forall d | d in s'.rows ensures Lives(c, s', d) {
      assert Lives(c, s, d);
    }
  }

  lemma AckKeeps(c: Config, s: State, m: Id)
    requires m in s.msgs && Ackable(s.msgs[m].phase) && Base(c, s)
    ensures Base(c, Drop(s, m))
  {
    var s' := Drop(s, m);
    forall d | d in s'.rows ensures Lives(c, s', d) {
      assert Lives(c, s, d);
    }
  }

  lemma EnqueueKeeps(c: Config, s: State, copy: Id, body: Message)
    requires Base(c, s) && copy !in s.msgs
    requires body.Deliver? ==> body.delivery in s.rows && body.tenant == s.rows[body.delivery].tenant
    ensures Base(c, Enqueue(s, copy, body))
  {
    var s' := Enqueue(s, copy, body);
    forall d | d in s'.rows ensures Lives(c, s', d) {
      assert Lives(c, s, d);
    }
  }

  lemma TickKeeps(c: Config, s: State, to: Time)
    requires Base(c, s) && s.now <= to
    ensures Base(c, SetClock(s, to))
  {
    var s' := SetClock(s, to);
    forall d | d in s'.rows ensures Lives(c, s', d) {
      assert Lives(c, s, d);
    }
  }

  predicate Transactional(act: Act) {
    act.Claim? || act.Bind? || act.Post? || act.Hear? || act.Retry? || act.Commit? || act.Crash?
  }

  lemma TransactionKeeps(c: Config, s: State, m: Id, act: Act, s': State)
    requires Base(c, s) && Acts(c, s, m, act, s') && Transactional(act)
    ensures Base(c, s')
  {
    assert MessageOk(c, s, m);
    var b := s.msgs[m].body; var p := s.msgs[m].phase;
    match act
    case Claim => ClaimKeepsTasks(c, s, m); ClaimKeepsHistories(c, s, m);
    case Bind => SetPhaseKeeps(c, s, m, Reads(s, p.row, b.tenant));
    case Post => SendPostKeeps(c, s, m);
    case Hear(a) => TakeAnswerKeeps(c, s, m, a);
    case Retry(copy) => SendRetryKeeps(c, s, m, copy);
    case Commit => CommitKeepsTasks(c, s, m); CommitKeepsHistories(c, s, m);
    case Crash => CrashKeeps(c, s, m);
  }

  lemma ActKeeps(c: Config, s: State, m: Id, act: Act, s': State)
    requires Base(c, s) && Acts(c, s, m, act, s')
    ensures Base(c, s')
  {
    if Transactional(act) {
      TransactionKeeps(c, s, m, act, s');
    } else {
      assert MessageOk(c, s, m);
      match act
      case Start => SetPhaseKeeps(c, s, m, Received);
      case Plan(targets) => SetPhaseKeeps(c, s, m, Planned(targets));
      case Expand(ids, created) =>
        Grows(s, m, ids, created);
        GrownKeepsTasks(c, s, s', m, ids, created);
        GrownKeepsHistories(c, s, s', m, ids, created);
      case Scan(picked) => SetPhaseKeeps(c, s, m, Sending(WithTenants(s.rows, picked)));
      case Send(copy) => SendNextKeeps(c, s, m, copy);
      case Ack => AckKeeps(c, s, m);
    }
  }

  /** Only requests, events, tenants, endpoints and edits differ. */
  predicate SameWork(s: State, s': State) {
    && s'.epoch == s.epoch && s'.now == s.now && s'.rows == s.rows && s'.hist == s.hist
    && s'.locks == s.locks && s'.msgs == s.msgs && s'.released == s.released
  }

  lemma SameWorkKeeps(c: Config, s: State, s': State)
    requires Base(c, s) && SameWork(s, s')
    ensures Base(c, s')
  {
    forall d | d in s'.rows ensures Lives(c, s', d) {
      assert Lives(c, s, d);
    }
    forall m | m in s'.msgs ensures MessageOk(c, s', m) {
      assert MessageOk(c, s, m);
    }
    forall d | d in s'.locks ensures LockOk(s', d) {
      assert LockOk(s, d);
    }
  }

  /** Apart from announcing a new event, API and admin steps leave the workers' side alone. */
  lemma MoveAside(s: State, r: Id, move: Move, s': State)
    requires Moves(s, r, move, s') && !move.DispatchEvent?
    ensures SameWork(s, s')
  {
  }

  lemma ChangeAside(s: State, change: Change, s': State)
    requires Changes(s, change, s')
    ensures SameWork(s, s') && s'.calls == s.calls && s'.events == s.events
  {
  }

  lemma MoveAnnounces(s: State, r: Id, copy: Id, s': State)
    requires Moves(s, r, DispatchEvent(copy), s')
    ensures r in s.calls && s.calls[r].stage.Stored? && copy !in s.msgs
    ensures SameWork(Enqueue(s, copy, FanOut(s.calls[r].stage.event, s.calls[r].tenant)), s')
  {
  }

  /** Only execution `m` moved; at most it sent one message for its own delivery. */
  ghost predicate OnlyTask(s: State, s': State, m: Id) {
    && s'.epoch == s.epoch && s'.now == s.now && s'.tenants == s.tenants && s'.endpoints == s.endpoints
    && s'.edits == s.edits && s'.calls == s.calls && s'.events == s.events && s'.rows == s.rows
    && s'.released == s.released && s'.urls == s.urls
    && m in s.msgs && m in s'.msgs && s'.msgs[m].body == s.msgs[m].body
    && (forall x :: x in s.msgs && x != m ==> x in s'.msgs && s'.msgs[x] == s.msgs[x])
    && (forall x :: x in s'.msgs && x !in s.msgs ==>
          && s.msgs[m].body.Deliver? && s'.msgs[x].phase.Queued? && s'.msgs[x].body.Deliver?
          && s'.msgs[x].body.delivery == s.msgs[m].body.delivery && s'.msgs[x].body.tenant == s.msgs[m].body.tenant)
  }

  /** The acts that change the table, announce rows or retire a message. */
  predicate Visible(act: Act) {
    act.Commit? || act.Expand? || act.Send? || act.Ack?
  }

  lemma TaskFrame(c: Config, s: State, m: Id, act: Act, s': State)
    requires Acts(c, s, m, act, s') && !Visible(act)
    ensures OnlyTask(s, s', m)
  {
  }

  /** Only the workers' side differs. */
  predicate SameApi(s: State, s': State) {
    && s'.tenants == s.tenants && s'.endpoints == s.endpoints && s'.edits == s.edits
    && s'.calls == s.calls && s'.events == s.events && s'.urls == s.urls
  }

  lemma TaskSameApi(c: Config, s: State, m: Id, act: Act, s': State)
    requires Acts(c, s, m, act, s')
    ensures SameApi(s, s')
  {
    if !Visible(act) {
      TaskFrame(c, s, m, act, s');
    }
  }

  /** Broker, clock and executions leave requests, events, endpoints and tenants alone. */
  lemma WorkSameApi(c: Config, s: State, step: Step, s': State)
    requires Next(c, s, step, s') && !step.Api? && !step.Admin?
    ensures SameApi(s, s')
  {
    match step
    case Task(m, act) => TaskSameApi(c, s, m, act, s');
    case Tick(_) =>
    case Duplicate(_, _) =>
    case Beat(_) =>
  }

  lemma BaseKept(c: Config, s: State, step: Step, s': State)
    requires Base(c, s) && Next(c, s, step, s')
    ensures Base(c, s')
  {
    match step
    case Tick(to) => TickKeeps(c, s, to);
    case Task(m, act) => ActKeeps(c, s, m, act, s');
    case Duplicate(m, copy) => assert MessageOk(c, s, m); EnqueueKeeps(c, s, copy, s.msgs[m].body);
    case Beat(copy) => EnqueueKeeps(c, s, copy, Recover);
    case Api(r, move) =>
      if move.DispatchEvent? {
        MoveAnnounces(s, r, move.copy, s');
        var fanOut := FanOut(s.calls[r].stage.event, s.calls[r].tenant);
        EnqueueKeeps(c, s, move.copy, fanOut);
        SameWorkKeeps(c, Enqueue(s, move.copy, fanOut), s');
      } else {
        MoveAside(s, r, move, s');
        SameWorkKeeps(c, s, s');
      }
    case Admin(change) => ChangeAside(s, change, s'); SameWorkKeeps(c, s, s');
  }

  lemma BaseAlways(c: Config, states: seq<State>, steps: seq<Step>, i: nat)
    requires Run(c, states, steps) && i <= |steps| && Base(c, states[0])
    ensures Base(c, states[i])
  {
    if i > 0 {
      BaseAlways(c, states, steps, i - 1);
      BaseKept(c, states[i - 1], steps[i - 1], states[i]);
    }
  }

  lemma ReachableBase(c: Config, s: State)
    requires Reachable(c, s)
    ensures Base(c, s)
  {
    var t, states, steps :| Run(c, states, steps) && states[0] == Init(t) && states[|steps|] == s;
    BaseAlways(c, states, steps, |steps|);
  }
}
