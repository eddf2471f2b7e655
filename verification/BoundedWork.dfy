/**
 How much work a run can hold. Every action of a worker uses up stock; what brings stock in is
 charged for: a new event's announcement, a recovery request, a duplicate, a crash, a new endpoint.
 Endpoint edits and deletes, and requests that announce nothing, are free.
 */
module BoundedWork {
  import opened Types
  import opened Protocol
  import opened Invariant
  import opened Totals
  import opened FiniteWork

  /** What a message brings in when it enters the queue. */
  function Arriving(c: Config, s: State, body: Message): nat {
    1 + ReceivedStock(c, |s.endpoints|, body)
  }

  /** The most a step can add to the stock. */
  function Charge(c: Config, s: State, step: Step): nat {
    match step
    case Tick(_) => 0
    case Task(m, act) => if act.Crash? && m in s.msgs then 8 + Arriving(c, s, s.msgs[m].body) else 0
    case Duplicate(m, _) => if m in s.msgs then Arriving(c, s, s.msgs[m].body) else 0
    case Beat(_) => Arriving(c, s, Recover)
    case Api(r, move) =>
      if move.DispatchEvent? && r in s.calls && s.calls[r].stage.Stored? then
        Arriving(c, s, FanOut(s.calls[r].stage.event, s.calls[r].tenant))
      else 0
    case Admin(change) => if change.AddEndpoint? then |s.msgs| * PerRow(c) else 0
  }

  /** An action of a worker, as opposed to its death. */
  predicate Acting(step: Step) {
    step.Task? && !step.act.Crash?
  }

  // ----- what each step can add -----

  lemma ArrivalAdds(c: Config, s: State, copy: Id, body: Message, s': State)
    requires copy !in s.msgs && SameTable(s, s') && s'.msgs == s.msgs[copy := Envelope(body, Queued)]
    ensures Stock(c, s') == Stock(c, s) + Arriving(c, s, body)
  {
    MessageSet(c, |s.endpoints|, s.msgs, copy, Envelope(body, Queued));
  }

  /** Rows, locks and the number of endpoints are the same. */
  predicate SameTable(s: State, s': State) {
    s'.rows == s.rows && s'.locks == s.locks && |s'.endpoints| == |s.endpoints|
  }

  /** A crash: at most one attempt is to be made again, and the message to be handled again. */
  lemma CrashAdds(c: Config, s: State, m: Id, s': State)
    requires m in s.msgs && MessageOk(c, s, m) && s' == CrashTask(s, m)
    ensures Stock(c, s') <= Stock(c, s) + 8 + Arriving(c, s, s.msgs[m].body)
  {
    var n := |s.endpoints|; var env := Envelope(s.msgs[m].body, Queued);
    MessageMoves(c, n, s.msgs, m, env, None, env);
    if Holding(s.msgs[m].phase) {
      var d := s.msgs[m].body.delivery;
      RowMoves(c, s.rows, s.locks, d, s.rows[d], s'.locks);
      assert s.rows[d := s.rows[d]] == s.rows;
    }
  }

  /** A new endpoint can cost every queued fan-out one more row. */
  lemma EndpointAdds(c: Config, s: State, s': State)
    requires s'.rows == s.rows && s'.locks == s.locks && s'.msgs == s.msgs && |s'.endpoints| <= |s.endpoints| + 1
    ensures Stock(c, s') <= Stock(c, s) + |s.msgs| * PerRow(c)
  {
    var before, after := MessageStocks(c, |s.endpoints|, s.msgs), MessageStocks(c, |s'.endpoints|, s.msgs);
    forall m | m in before ensures after[m] <= before[m] + PerRow(c) {
      OneMoreRow(c, |s.endpoints|, |s'.endpoints|, s.msgs[m]);
    }
    assert before.Keys == s.msgs.Keys;
    TotalBound(before, after, PerRow(c), |s.msgs|);
  }

  lemma OneMoreRow(c: Config, n: nat, n': nat, env: Envelope)
    requires n' <= n + 1
    ensures MessageStock(c, n', env) <= MessageStock(c, n, env) + PerRow(c)
  {
    Times(n', n + 1, PerRow(c));
    OneMore(n, PerRow(c));
  }

  lemma MoveAdds(c: Config, s: State, r: Id, move: Move, s': State)
    requires Moves(s, r, move, s')
    ensures Stock(c, s') <= Stock(c, s) + Charge(c, s, Api(r, move))
  {
    SameEndpoints(s, r, move, s');
    if move.DispatchEvent? {
      var fanOut := FanOut(s.calls[r].stage.event, s.calls[r].tenant);
      MoveAnnounces(s, r, move.copy, s');
      ArrivalAdds(c, s, move.copy, fanOut, s');
    } else {
      MoveAside(s, r, move, s');
    }
  }

  lemma SameEndpoints(s: State, r: Id, move: Move, s': State)
    requires Moves(s, r, move, s')
    ensures s'.endpoints == s.endpoints
  {
  }

  lemma ChangeAdds(c: Config, s: State, change: Change, s': State)
    requires Changes(s, change, s')
    ensures Stock(c, s') <= Stock(c, s) + Charge(c, s, Admin(change))
  {
    ChangeAside(s, change, s');
    EndpointsGrow(s, change, s');
    if change.AddEndpoint? {
      EndpointAdds(c, s, s');
    }
  }

  lemma EndpointsGrow(s: State, change: Change, s': State)
    requires Changes(s, change, s')
    ensures if change.AddEndpoint? then |s'.endpoints| == |s.endpoints| + 1 else |s'.endpoints| == |s.endpoints|
  {
    if change.CommitEdit? {
      assert s'.endpoints.Keys == s.endpoints.Keys;
    }
  }

  /** One step: an action of a worker uses stock up, and any step adds at most its charge. */
  lemma StepBounded(c: Config, s: State, step: Step, s': State)
    requires Reachable(c, s) && Next(c, s, step, s')
    ensures Stock(c, s') + (if Acting(step) then 1 else 0) <= Stock(c, s) + Charge(c, s, step)
  {
    if Acting(step) {
      ActFalls(c, s, step.m, step.act, s');
    } else if step.Task? {
      ReachableBase(c, s);
      assert MessageOk(c, s, step.m);
      CrashAdds(c, s, step.m, s');
    } else if step.Duplicate? {
      ArrivalAdds(c, s, step.copy, s.msgs[step.m].body, s');
    } else if step.Beat? {
      ArrivalAdds(c, s, step.copy, Recover, s');
    } else if step.Api? {
      MoveAdds(c, s, step.r, step.move, s');
    } else if step.Admin? {
      ChangeAdds(c, s, step.change, s');
    }
  }

  // ----- whole runs -----

  /** The worker actions among the steps. */
  function Work(steps: seq<Step>): nat {
    if steps == [] then 0 else Work(steps[..|steps| - 1]) + if Acting(steps[|steps| - 1]) then 1 else 0
  }

  /** What the steps of a run are charged together. */
  function Charges(c: Config, states: seq<State>, steps: seq<Step>): nat
    requires |states| == |steps| + 1
  {
    if steps == [] then 0
    else
      var n := |steps| - 1;
      Charges(c, states[..n + 1], steps[..n]) + Charge(c, states[n], steps[n])
  }

  lemma ReachableNext(c: Config, s: State, step: Step, s': State)
    requires Reachable(c, s) && Next(c, s, step, s')
    ensures Reachable(c, s')
  {
    var t, states, steps :| Run(c, states, steps) && states[0] == Init(t) && states[|steps|] == s;
    var states', steps' := states + [s'], steps + [step];
    forall i | 0 <= i < |steps'| ensures Next(c, states'[i], steps'[i], states'[i + 1]) {
      assert i < |steps| ==> steps'[i] == steps[i];
    }
    assert Run(c, states', steps') && states'[0] == Init(t) && states'[|steps'|] == s';
  }

  /** Any run from any reachable state: the workers take at most the stock plus what the steps bring in. */
  lemma {:induction false} WorkBounded(c: Config, states: seq<State>, steps: seq<Step>)
    requires Run(c, states, steps) && Reachable(c, states[0])
    ensures Reachable(c, states[|steps|])
    ensures Work(steps) + Stock(c, states[|steps|]) <= Stock(c, states[0]) + Charges(c, states, steps)
  {
    if steps != [] {
      var n := |steps| - 1;
      var states', steps' := states[..n + 1], steps[..n];
      assert forall k :: 0 <= k < n ==> steps'[k] == steps[k];
      WorkBounded(c, states', steps');
      ReachableNext(c, states[n], steps[n], states[n + 1]);
      StepBounded(c, states[n], steps[n], states[n + 1]);
    }
  }

  /** Steps that bring nothing in: nothing dies, arrives or is added; edits and deletes go on. */
  predicate Quiet(step: Step) {
    match step
    case Tick(_) => true
    case Task(_, act) => !act.Crash?
    case Duplicate(_, _) => false
    case Beat(_) => false
    case Api(_, move) => !move.DispatchEvent?
    case Admin(change) => !change.AddEndpoint?
  }

  predicate AllQuiet(steps: seq<Step>) {
    forall k :: 0 <= k < |steps| ==> Quiet(steps[k])
  }

  lemma {:induction false} QuietIsFree(c: Config, states: seq<State>, steps: seq<Step>)
    requires |states| == |steps| + 1 && AllQuiet(steps)
    ensures Charges(c, states, steps) == 0
  {
    if steps != [] {
      var n := |steps| - 1;
      assert forall k :: 0 <= k < n ==> steps[..n][k] == steps[k];
      QuietIsFree(c, states[..n + 1], steps[..n]);
    }
  }

  /** Once nothing new comes in, any schedule, with any edits and deletes, takes at most the stock. */
  lemma QuietWorkBounded(c: Config, states: seq<State>, steps: seq<Step>)
    requires Run(c, states, steps) && Reachable(c, states[0]) && AllQuiet(steps)
    ensures Work(steps) + Stock(c, states[|steps|]) <= Stock(c, states[0])
  {
    WorkBounded(c, states, steps);
    QuietIsFree(c, states, steps);
  }
}
