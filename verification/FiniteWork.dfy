/**
 The work the system still holds: a stock computed from the queue and the rows, of which every
 action of a worker uses up some; and the attempts its rows still have.
 */
module FiniteWork {
  import opened Types
  import opened Rules
  import opened Protocol
  import opened Invariant
  import opened Attempts
  import opened Recovery
  import opened AtMostOnce
  import opened Totals

  /** Attempts a row still has; none once it is terminal. */
  function Remaining(c: Config, r: Delivery): nat {
    if r.status == Pending && r.attempts <= |c.delays| + 1 then |c.delays| + 1 - r.attempts else 0
  }

  /** The stock of a row: eight actions for each attempt not yet claimed. */
  function RowStock(c: Config, r: Delivery, locked: bool): nat {
    if locked && Remaining(c, r) > 0 then 8 * (Remaining(c, r) - 1) else 8 * Remaining(c, r)
  }

  /** What inserting and announcing one row can cost. */
  function PerRow(c: Config): nat {
    8 * (|c.delays| + 1) + 4
  }

  function ReceivedStock(c: Config, endpoints: nat, body: Message): nat {
    match body
    case Deliver(_, _, _) => 2
    case Recover => 2 + 4 * c.batch
    case FanOut(_, _) => 3 + endpoints * PerRow(c)
  }

  /** The stock of a message: the actions its execution can still take, with those it hands on. */
  function MessageStock(c: Config, endpoints: nat, env: Envelope): nat {
    match env.phase
    case Queued => 1 + ReceivedStock(c, endpoints, env.body)
    case Received => ReceivedStock(c, endpoints, env.body)
    case Claimed(_) => 9
    case Bound(_, _) => 8
    case InFlight(_, _) => 7
    case Answered(_, _, _) => 6
    case Staged(_, _) => 2
    case Planned(targets) => 2 + |targets| * PerRow(c)
    case Sending(todo) => 1 + 4 * |todo|
    case Finished => 1
  }

  function RowStocks(c: Config, rows: map<Id, Delivery>, locks: map<Id, Id>): map<Id, nat> {
    map d | d in rows :: RowStock(c, rows[d], d in locks)
  }

  function MessageStocks(c: Config, endpoints: nat, msgs: map<Id, Envelope>): map<Id, nat> {
    map m | m in msgs :: MessageStock(c, endpoints, msgs[m])
  }

  ghost function Stock(c: Config, s: State): nat {
    Total(RowStocks(c, s.rows, s.locks)) + Total(MessageStocks(c, |s.endpoints|, s.msgs))
  }

  /** One message is set, whether it was there before or not. */
  lemma MessageSet(c: Config, n: nat, msgs: map<Id, Envelope>, m: Id, env: Envelope)
    ensures Total(MessageStocks(c, n, msgs[m := env])) ==
              Total(MessageStocks(c, n, msgs)) - (if m in msgs then MessageStock(c, n, msgs[m]) else 0)
              + MessageStock(c, n, env)
  {
    TotalUpdate(MessageStocks(c, n, msgs), m, MessageStock(c, n, env));
    assert MessageStocks(c, n, msgs[m := env]) == MessageStocks(c, n, msgs)[m := MessageStock(c, n, env)];
  }

  /** One message changes phase and at most one message is added. */
  lemma MessageMoves(c: Config, n: nat, msgs: map<Id, Envelope>, m: Id, env: Envelope, copy: Option<Id>, sent: Envelope)
    requires m in msgs && (copy.Some? ==> copy.value !in msgs)
    ensures var msgs' := if copy.Some? then msgs[m := env][copy.value := sent] else msgs[m := env];
            Total(MessageStocks(c, n, msgs')) ==
              Total(MessageStocks(c, n, msgs)) - MessageStock(c, n, msgs[m]) + MessageStock(c, n, env)
              + if copy.Some? then MessageStock(c, n, sent) else 0
  {
    MessageSet(c, n, msgs, m, env);
    if copy.Some? {
      MessageSet(c, n, msgs[m := env], copy.value, sent);
    }
  }

  lemma MessageGone(c: Config, n: nat, msgs: map<Id, Envelope>, m: Id)
    requires m in msgs
    ensures Total(MessageStocks(c, n, Remove(msgs, m))) ==
        Total(MessageStocks(c, n, msgs)) - MessageStock(c, n, msgs[m])
  {
    TotalRemove(MessageStocks(c, n, msgs), m);
    assert MessageStocks(c, n, Remove(msgs, m)) == Remove(MessageStocks(c, n, msgs), m);
  }

  /** One row is written, locked or unlocked. */
  lemma RowMoves(c: Config, rows: map<Id, Delivery>, locks: map<Id, Id>, d: Id, r: Delivery, locks': map<Id, Id>)
    requires d in rows && forall x :: x != d ==> (x in locks <==> x in locks')
    ensures Total(RowStocks(c, rows[d := r], locks')) ==
              Total(RowStocks(c, rows, locks)) - RowStock(c, rows[d], d in locks) + RowStock(c, r, d in locks')
  {
    TotalUpdate(RowStocks(c, rows, locks), d, RowStock(c, r, d in locks'));
    assert RowStocks(c, rows[d := r], locks') == RowStocks(c, rows, locks)[d := RowStock(c, r, d in locks')];
  }

  /** Acts that only move their execution along. */
  predicate Light(act: Act) {
    act.Start? || act.Bind? || act.Hear? || act.Post? || act.Plan? || act.Scan?
  }

  lemma LightAct(c: Config, s: State, m: Id, act: Act, s': State)
    requires m in s.msgs && Acts(c, s, m, act, s') && Light(act)
    ensures m in s'.msgs && s'.msgs == s.msgs[m := s'.msgs[m]] && s'.rows == s.rows && s'.locks == s.locks
    ensures s'.endpoints == s.endpoints && s'.msgs[m].body == s.msgs[m].body
    ensures act.Plan? ==> |act.targets| <= |s.endpoints|
    ensures LowersPhase(c, |s.endpoints|, s.msgs[m].body, s.msgs[m].phase, s'.msgs[m].phase)
  {
    if act.Plan? {
      TargetsBounded(c, s, s.msgs[m].body.event, s.msgs[m].body.tenant, act.targets);
    }
  }

  /** The phase changes of light acts. */
  predicate LowersPhase(c: Config, n: nat, b: Message, p: Phase, p': Phase) {
    match p
    case Queued => p'.Received?
    case Claimed(_) => p'.Bound? || p'.Staged?
    case Bound(_, _) => p'.InFlight?
    case InFlight(_, _) => p'.Answered? || p'.Staged?
    case Received => (b.FanOut? && p'.Planned? && |p'.targets| <= n)
      || (b.Recover? && p'.Sending? && |p'.todo| <= c.batch)
    case _ => false
  }

  lemma LowersStock(c: Config, n: nat, env: Envelope, p: Phase)
    requires LowersPhase(c, n, env.body, env.phase, p)
    ensures MessageStock(c, n, env.(phase := p)) < MessageStock(c, n, env)
  {
    if p.Planned? {
      Times(|p.targets|, n, PerRow(c));
    }
  }

  lemma LightActFalls(c: Config, s: State, m: Id, act: Act, s': State)
    requires m in s.msgs && Acts(c, s, m, act, s') && Light(act)
    ensures Stock(c, s') < Stock(c, s)
  {
    LightAct(c, s, m, act, s');
    var env := s'.msgs[m];
    LowersStock(c, |s.endpoints|, s.msgs[m], env.phase);
    MessageMoves(c, |s.endpoints|, s.msgs, m, env, None, env);
  }

  lemma Times(a: nat, b: nat, k: nat)
    requires a <= b
    ensures a * k <= b * k
  {
  }

  lemma TargetsBounded(c: Config, s: State, event: Id, tenant: Id, targets: seq<Id>)
    requires IsTargets(s, event, tenant, targets)
    ensures |targets| <= |s.endpoints|
  {
    if targets != [] {
      DistinctSize(targets);
      var all := set e | e in targets;
      assert all <= s.endpoints.Keys;
      Subset(all, s.endpoints.Keys);
    }
  }

  /** A row and a message change hands: what they are worth together decides. */
  lemma Trade(c: Config, s: State, s': State, d: Id, m: Id)
    requires d in s.rows && d in s'.rows && m in s.msgs && m in s'.msgs && s'.endpoints == s.endpoints
    requires s'.rows == s.rows[d := s'.rows[d]] && s'.msgs == s.msgs[m := s'.msgs[m]]
    requires forall x :: x != d ==> (x in s.locks <==> x in s'.locks)
    requires RowStock(c, s'.rows[d], d in s'.locks) + MessageStock(c, |s.endpoints|, s'.msgs[m])
             < RowStock(c, s.rows[d], d in s.locks) + MessageStock(c, |s.endpoints|, s.msgs[m])
    ensures Stock(c, s') < Stock(c, s)
  {
    MessageMoves(c, |s.endpoints|, s.msgs, m, s'.msgs[m], None, s'.msgs[m]);
    RowMoves(c, s.rows, s.locks, d, s'.rows[d], s'.locks);
  }

  /** A claim: a hit buys the whole attempt from its row's stock, a miss ends the execution. */
  lemma ClaimPays(c: Config, s: State, m: Id, d: Id, s': State)
    requires m in s.msgs && s.msgs[m].phase.Received? && s.msgs[m].body.Deliver? && s.msgs[m].body.delivery == d
    requires d in s.rows && Shape(c.delays, s.rows[d]) && s' == ClaimRow(s, m)
    ensures m in s'.msgs && s'.endpoints == s.endpoints && s'.rows == s.rows[d := s.rows[d]] && s'.rows[d] == s.rows[d]
    ensures s'.msgs == s.msgs[m := s'.msgs[m]] && forall x :: x != d ==> (x in s.locks <==> x in s'.locks)
    ensures RowStock(c, s'.rows[d], d in s'.locks) + MessageStock(c, |s.endpoints|, s'.msgs[m])
            < RowStock(c, s.rows[d], d in s.locks) + MessageStock(c, |s.endpoints|, s.msgs[m])
  {
  }

  /** A commit: the attempt bought by the claim is used up, or the row is finished. */
  lemma CommitPays(c: Config, s: State, m: Id, d: Id, s': State)
    requires m in s.msgs && s.msgs[m].phase.Staged? && s.msgs[m].body.Deliver? && s.msgs[m].body.delivery == d
    requires MessageOk(c, s, m) && Shape(c.delays, s.rows[d]) && s' == CommitRow(s, m)
    ensures m in s'.msgs && s'.endpoints == s.endpoints && d in s'.rows && s'.rows == s.rows[d := s'.rows[d]]
    ensures s'.msgs == s.msgs[m := s'.msgs[m]] && forall x :: x != d ==> (x in s.locks <==> x in s'.locks)
    ensures RowStock(c, s'.rows[d], d in s'.locks) + MessageStock(c, |s.endpoints|, s'.msgs[m])
            < RowStock(c, s.rows[d], d in s.locks) + MessageStock(c, |s.endpoints|, s.msgs[m])
  {
  }

  /** A message changes phase and sends another one. */
  lemma Delegate(c: Config, s: State, s': State, m: Id, copy: Id)
    requires m in s.msgs && m in s'.msgs && copy !in s.msgs && copy in s'.msgs && s'.endpoints == s.endpoints
    requires s'.rows == s.rows && s'.locks == s.locks && s'.msgs == s.msgs[m := s'.msgs[m]][copy := s'.msgs[copy]]
    requires MessageStock(c, |s.endpoints|, s'.msgs[m]) + MessageStock(c, |s.endpoints|, s'.msgs[copy])
             < MessageStock(c, |s.endpoints|, s.msgs[m])
    ensures Stock(c, s') < Stock(c, s)
  {
    MessageMoves(c, |s.endpoints|, s.msgs, m, s'.msgs[m], Some(copy), s'.msgs[copy]);
  }

  lemma DelegatePays(c: Config, s: State, m: Id, act: Act, copy: Id, s': State)
    requires Acts(c, s, m, act, s') && (act == Retry(copy) || act == Send(copy))
    ensures m in s.msgs && m in s'.msgs && copy !in s.msgs && copy in s'.msgs && s'.endpoints == s.endpoints
    ensures s'.rows == s.rows && s'.locks == s.locks && s'.msgs == s.msgs[m := s'.msgs[m]][copy := s'.msgs[copy]]
    ensures MessageStock(c, |s.endpoints|, s'.msgs[m]) + MessageStock(c, |s.endpoints|, s'.msgs[copy])
            < MessageStock(c, |s.endpoints|, s.msgs[m])
  {
  }

  lemma GrownAdds(c: Config, s: State, m: Id, ids: seq<Id>, created: DateTime, s': State)
    requires m in s.msgs && s.msgs[m].body.FanOut? && s.msgs[m].phase.Planned? && Grown(s, s', m, ids, created)
    requires forall d :: d in s.locks ==> d in s.rows
    ensures Adds(RowStocks(c, s.rows, s.locks), RowStocks(c, s'.rows, s'.locks), ids, 8 * (|c.delays| + 1))
  {
    forall d | d in ids ensures d in s'.rows && RowStock(c, s'.rows[d], d in s'.locks) == 8 * (|c.delays| + 1) {
      var i :| 0 <= i < |ids| && ids[i] == d;
    }
  }

  lemma GrownFalls(c: Config, s: State, m: Id, ids: seq<Id>, created: DateTime, s': State)
    requires m in s.msgs && s.msgs[m].body.FanOut? && s.msgs[m].phase.Planned? && Grown(s, s', m, ids, created)
    requires forall d :: d in s.locks ==> d in s.rows
    ensures Stock(c, s') < Stock(c, s)
  {
    var env := s'.msgs[m];
    MessageMoves(c, |s.endpoints|, s.msgs, m, env, None, env);
    GrownAdds(c, s, m, ids, created, s');
    TotalAdd(RowStocks(c, s.rows, s.locks), RowStocks(c, s'.rows, s'.locks), ids, 8 * (|c.delays| + 1));
    Distribute(|ids|, 8 * (|c.delays| + 1), PerRow(c));
  }

  lemma Distribute(n: nat, a: nat, b: nat)
    requires b == a + 4
    ensures n * b == n * a + 4 * n
  {
  }

  lemma RowActFalls(c: Config, s: State, m: Id, act: Act, s': State)
    requires Reachable(c, s) && Acts(c, s, m, act, s') && (act.Claim? || act.Commit?)
    ensures Stock(c, s') < Stock(c, s)
  {
    ReachableBase(c, s);
    assert MessageOk(c, s, m);
    var d := s.msgs[m].body.delivery;
    RowShapes(c, s, d);
    if act.Claim? {
      ClaimPays(c, s, m, d, s');
    } else {
      CommitPays(c, s, m, d, s');
    }
    Trade(c, s, s', d, m);
  }

  /** Every act of a worker, short of dying, uses up stock. */
  lemma ActFalls(c: Config, s: State, m: Id, act: Act, s': State)
    requires Reachable(c, s) && Acts(c, s, m, act, s') && !act.Crash?
    ensures Stock(c, s') < Stock(c, s)
  {
    if Light(act) {
      LightActFalls(c, s, m, act, s');
    } else if act.Claim? || act.Commit? {
      RowActFalls(c, s, m, act, s');
    } else if act.Expand? {
      ReachableBase(c, s);
      LocksAreRows(c, s);
      Grows(s, m, act.ids, act.created);
      GrownFalls(c, s, m, act.ids, act.created, s');
    } else if act.Retry? || act.Send? {
      DelegatePays(c, s, m, act, act.copy, s');
      Delegate(c, s, s', m, act.copy);
    } else {
      MessageGone(c, |s.endpoints|, s.msgs, m);
    }
  }

  // ----- attempts left -----

  function Lefts(c: Config, rows: map<Id, Delivery>): map<Id, nat> {
    map d | d in rows :: Remaining(c, rows[d])
  }

  /** The attempts all rows together still have. */
  ghost function AttemptsLeft(c: Config, s: State): nat {
    Total(Lefts(c, s.rows))
  }

  /** A commit replaces one row by one with fewer attempts left. */
  lemma CommitLowers(c: Config, s: State, m: Id, s': State)
    requires m in s.msgs && MessageOk(c, s, m) && Acts(c, s, m, Commit, s')
    requires Shape(c.delays, s.rows[s.msgs[m].body.delivery])
    ensures var d := s.msgs[m].body.delivery; var r := s.msgs[m].phase.row;
            d in s.rows && s'.rows == s.rows[d := r] && Remaining(c, r) < Remaining(c, s.rows[d])
  {
  }

  lemma CommitSpends(c: Config, s: State, m: Id, s': State)
    requires Reachable(c, s) && Acts(c, s, m, Commit, s')
    ensures AttemptsLeft(c, s') < AttemptsLeft(c, s)
  {
    ReachableBase(c, s);
    assert MessageOk(c, s, m);
    RowShapes(c, s, s.msgs[m].body.delivery);
    CommitLowers(c, s, m, s');
    Spent(c, s.rows, s.msgs[m].body.delivery, s.msgs[m].phase.row);
  }

  lemma Spent(c: Config, rows: map<Id, Delivery>, d: Id, r: Delivery)
    requires d in rows && Remaining(c, r) < Remaining(c, rows[d])
    ensures Total(Lefts(c, rows[d := r])) < Total(Lefts(c, rows))
  {
    TotalUpdate(Lefts(c, rows), d, Remaining(c, r));
    assert Lefts(c, rows[d := r]) == Lefts(c, rows)[d := Remaining(c, r)];
  }

  lemma ExpandGrants(c: Config, s: State, m: Id, ids: seq<Id>, created: DateTime, s': State)
    requires m in s.msgs && s.msgs[m].body.FanOut? && s.msgs[m].phase.Planned? && Grown(s, s', m, ids, created)
    ensures AttemptsLeft(c, s') == AttemptsLeft(c, s) + |ids| * (|c.delays| + 1)
  {
    forall d | d in ids ensures d in s'.rows && Remaining(c, s'.rows[d]) == |c.delays| + 1 {
      var i :| 0 <= i < |ids| && ids[i] == d;
    }
    TotalAdd(Lefts(c, s.rows), Lefts(c, s'.rows), ids, |c.delays| + 1);
  }

  /** Every committed attempt uses up attempts; only a fan-out grants new ones; nothing else matters. */
  lemma AttemptsSpent(c: Config, s: State, step: Step, s': State)
    requires Reachable(c, s) && Next(c, s, step, s')
    ensures if step.Task? && step.act.Commit? then AttemptsLeft(c, s') < AttemptsLeft(c, s)
            else if step.Task? && step.act.Expand? then
              AttemptsLeft(c, s') == AttemptsLeft(c, s) + |step.act.ids| * (|c.delays| + 1)
            else AttemptsLeft(c, s') == AttemptsLeft(c, s)
  {
    if step.Task? && step.act.Commit? {
      CommitSpends(c, s, step.m, s');
    } else if step.Task? && step.act.Expand? {
      Grows(s, step.m, step.act.ids, step.act.created);
      ExpandGrants(c, s, step.m, step.act.ids, step.act.created, s');
    } else {
      SameRows(c, s, step, s');
    }
  }

  /** The other steps keep rows and announced rows, and touch no message being executed. */
  lemma StepAside(c: Config, s: State, step: Step, s': State)
    requires Next(c, s, step, s') && !step.Task?
    ensures s'.rows == s.rows && s'.released == s.released
    ensures forall m :: m in s.msgs ==> m in s'.msgs && s'.msgs[m] == s.msgs[m]
  {
    if step.Api? {
      if step.move.DispatchEvent? {
        MoveAnnounces(s, step.r, step.move.copy, s');
      } else {
        MoveAside(s, step.r, step.move, s');
      }
    } else if step.Admin? {
      ChangeAside(s, step.change, s');
    }
  }

  lemma SameRows(c: Config, s: State, step: Step, s': State)
    requires Next(c, s, step, s') && !(step.Task? && (step.act.Commit? || step.act.Expand?))
    ensures s'.rows == s.rows
  {
    if !step.Task? {
      StepAside(c, s, step, s');
    } else {
      RowsStay(c, s, step.m, step.act, s');
    }
  }
}
