/**
 The whole service as one step system: API requests, endpoint edits, the broker, the task
 executions and the database. One `Step` is one atomic action of one participant; any interleaving
 is a run. A worker is identified by the message it is executing, so the size of the pool only
 removes interleavings.
 */
module Protocol {
  import opened Types
  import opened Rules
  import opened Lifecycle

  datatype Config = Config(delays: seq<nat>, batch: nat)

  /** Why a row is about to be written: its endpoint is gone, or an answer came back. */
  datatype Cause = Missing | Replied(answer: Answer, at: Time, retry: Option<Id>)

  /** How far the execution of a message has got; `Queued` messages are not being executed. */
  datatype Phase =
    | Queued
    | Received
    | Claimed(row: Delivery)                             // row locked and read
    | Bound(row: Delivery, post: Webhook)                   // endpoint, event and tenant read
    | InFlight(row: Delivery, post: Webhook)                // request sent
    | Answered(row: Delivery, answer: Answer, at: Time)  // failed, retry not dispatched yet
    | Staged(row: Delivery, cause: Cause)                // ready to commit
    | Planned(targets: seq<Id>)                          // fan-out has read its endpoints
    | Sending(todo: seq<(Id, Id)>)                       // (delivery, tenant) messages still to send
    | Finished                                           // done, not acked yet

  datatype Envelope = Envelope(body: Message, phase: Phase)

  datatype Stage =
    | Arrived
    | Inserted(event: Id)    // inserted, not committed
    | Conflicted             // the insert hit an existing key
    | Found(event: Id)       // the re-read found the existing event
    | Broken                 // conflict, but the re-read found nothing
    | Stored(event: Id)      // committed, not dispatched yet
    | Orphaned(event: Id)    // the API died between commit and dispatch
    | Done(event: Id, created: bool)
    | Aborted

  datatype Call = Call(tenant: Id, key: Option<string>, kind: string, payload: string, stage: Stage)

  datatype Edit = Update(endpoint: Id, url: Option<string>, kinds: Option<seq<string>>) | Delete(endpoint: Id)

  datatype State = State(
    epoch: Time, now: Time,
    tenants: map<Id, string>,          // signing secrets
    endpoints: map<Id, Endpoint>,
    edits: map<Id, Edit>,              // edits that have read their active endpoint
    calls: map<Id, Call>,
    events: map<Id, Event>,
    rows: map<Id, Delivery>,           // committed delivery rows
    locks: map<Id, Id>,                // row -> the message whose transaction locks it
    msgs: map<Id, Envelope>,           // every message not acked yet
    // history, read by no step:
    hist: map<Id, seq<Obs>>,           // what happened to each row
    released: set<Id>,                 // rows whose first message has been dispatched
    urls: set<(Id, string)>)           // every URL an endpoint ever had

  /** What the execution of a message can do. */
  datatype Act =
    | Start | Claim | Bind | Post | Hear(answer: Answer) | Retry(copy: Id) | Commit
    | Plan(targets: seq<Id>) | Expand(ids: seq<Id>, created: DateTime)
    | Scan(picked: seq<Id>) | Send(copy: Id)
    | Ack | Crash

  /** What an API request can do. */
  datatype Move =
    | Arrive(tenant: Id, key: Option<string>, kind: string, payload: string)
    | Insert(event: Id) | Reread(found: Option<Id>) | CommitEvent | DispatchEvent(copy: Id) | Abort

  datatype Change =
    | AddTenant(tenant: Id, secret: string)
    | AddEndpoint(endpoint: Id, tenant: Id, url: string, kinds: seq<string>)
    | OpenEdit(q: Id, tenant: Id, edit: Edit) | CommitEdit(q: Id)

  datatype Step =
    | Tick(to: Time)
    | Task(m: Id, act: Act)
    | Duplicate(m: Id, copy: Id)    // the broker delivers a message once more
    | Beat(copy: Id)                // the scheduler asks for a recovery scan
    | Api(r: Id, move: Move)
    | Admin(change: Change)

  predicate Distinct(xs: seq<Id>) {
    forall i, j :: 0 <= i < j < |xs| ==> xs[i] != xs[j]
  }

  /** The execution is inside a transaction that locks its row. */
  predicate Holding(p: Phase) {
    p.Claimed? || p.Bound? || p.InFlight? || p.Answered? || p.Staged?
  }

  /** A POST went out in the open transaction. */
  predicate HasPosted(p: Phase) {
    p.InFlight? || p.Answered? || (p.Staged? && p.cause.Replied?)
  }

  predicate Ackable(p: Phase) {
    p.Finished? || (p.Sending? && p.todo == [])
  }

  /** The claiming query returns the row: it qualifies and nobody locks it. */
  predicate CanClaim(s: State, d: Id, tenant: Id) {
    d in s.rows && Claimable(s.rows[d], tenant, s.now) && d !in s.locks
  }

  /** What the endpoint, event and tenant reads return for a claimed row. */
  predicate Resolves(s: State, r: Delivery, tenant: Id) {
    Related(s.tenants, s.endpoints, s.events, r, tenant)
  }

  /** Where a claimed row goes next: to its POST, or to `failed`. */
  function Reads(s: State, r: Delivery, tenant: Id): Phase {
    if Resolves(s, r, tenant) then
      Bound(r, Request(s.endpoints[r.endpoint], r.event, s.events[r.event], s.tenants[tenant]))
    else Staged(GiveUp(r), Missing)
  }

  ghost predicate IsTargets(s: State, event: Id, tenant: Id, targets: seq<Id>) {
    if event in s.events && s.events[event].tenant == tenant then
      && Distinct(targets)
      && (forall e :: e in targets <==> e in s.endpoints && Matches(s.endpoints[e], tenant, s.events[event].kind))
    else targets == []
  }

  /** An answer of the recovery query: due rows, oldest first, at most `limit`, ties in any order. */
  ghost predicate IsScan(rows: map<Id, Delivery>, now: Time, limit: nat, picked: seq<Id>) {
    && Distinct(picked) && |picked| <= limit
    && (forall i :: 0 <= i < |picked| ==> picked[i] in rows && Stuck(rows[picked[i]], now))
    && (forall i, j :: 0 <= i < j < |picked| ==>
          rows[picked[i]].nextRetry.value <= rows[picked[j]].nextRetry.value)
    && (forall x :: x in rows && Stuck(rows[x], now) && x !in picked ==>
          && |picked| == limit
          && forall i :: 0 <= i < |picked| ==> rows[picked[i]].nextRetry.value <= rows[x].nextRetry.value)
  }

  ghost predicate KeyTaken(events: map<Id, Event>, tenant: Id, key: Option<string>, e: Id) {
    e in events && events[e].tenant == tenant && events[e].key == key
  }

  predicate Inserts(q: Call, tenant: Id, key: Option<string>) {
    q.stage.Inserted? && q.tenant == tenant && q.key == key
  }

  /** An uncommitted insert of the same key, for which a second insert waits. */
  ghost predicate Rival(calls: map<Id, Call>, tenant: Id, key: Option<string>) {
    exists r :: r in calls && Inserts(calls[r], tenant, key)
  }

  predicate UnusedEvent(s: State, e: Id) {
    e !in s.events && forall r :: r in s.calls && s.calls[r].stage.Inserted? ==> s.calls[r].stage.event != e
  }

  function Moved(s: State, m: Id, p: Phase): map<Id, Envelope>
    requires m in s.msgs
  {
    s.msgs[m := s.msgs[m].(phase := p)]
  }

  function Log(s: State, d: Id, o: Obs): map<Id, seq<Obs>> {
    s.hist[d := (if d in s.hist then s.hist[d] else []) + [o]]
  }

  function Remove<V>(m: map<Id, V>, k: Id): (r: map<Id, V>)
    ensures r.Keys == m.Keys - {k}
    ensures forall x :: x in r ==> r[x] == m[x]
  {
    map x | x in m && x != k :: m[x]
  }

  function Revised(e: Endpoint, edit: Edit): Endpoint {
    match edit
    case Update(_, url, kinds) =>
      e.(url := if url.Some? then url.value else e.url, kinds := if kinds.Some? then kinds.value else e.kinds)
    case Delete(_) => e.(active := false)
  }

  function NewRows(event: Id, tenant: Id, targets: seq<Id>, ids: seq<Id>, created: DateTime): (r: map<Id, Delivery>)
    requires |ids| == |targets|
    ensures r.Keys == set d | d in ids
    ensures Distinct(ids) ==> forall i :: 0 <= i < |ids| ==>
        r[ids[i]] == NewDelivery(event, targets[i], tenant, created)
  {
    if ids == [] then map[]
    else
      var rest := NewRows(event, tenant, targets[1..], ids[1..], created);
      rest[ids[0] := NewDelivery(event, targets[0], tenant, created)]
  }

  function WithTenant(ids: seq<Id>, tenant: Id): seq<(Id, Id)> {
    seq(|ids|, i requires 0 <= i < |ids| => (ids[i], tenant))
  }

  function WithTenants(rows: map<Id, Delivery>, ids: seq<Id>): seq<(Id, Id)>
    requires forall i :: 0 <= i < |ids| ==> ids[i] in rows
  {
    seq(|ids|, i requires 0 <= i < |ids| => (ids[i], rows[ids[i]].tenant))
  }

  function SetPhase(s: State, m: Id, p: Phase): State
    requires m in s.msgs
  {
    s.(msgs := Moved(s, m, p))
  }

  /** The claiming query: lock and read the row, or find nothing and be done. */
  function ClaimRow(s: State, m: Id): State
    requires m in s.msgs && s.msgs[m].body.Deliver?
  {
    var d := s.msgs[m].body.delivery; var found := CanClaim(s, d, s.msgs[m].body.tenant);
    s.(msgs := Moved(s, m, if found then Claimed(s.rows[d]) else Finished),
       locks := if found then s.locks[d := m] else s.locks,
       hist := if found then Log(s, d, Took(m, s.now)) else s.hist)
  }

  function SendPost(s: State, m: Id): State
    requires m in s.msgs && s.msgs[m].body.Deliver? && s.msgs[m].phase.Bound?
  {
    var r := Begin(s.msgs[m].phase.row); var post := s.msgs[m].phase.post;
    s.(msgs := Moved(s, m, InFlight(r, post)),
       hist := Log(s, s.msgs[m].body.delivery, Posted(m, s.now, r.attempts, post)))
  }

  function TakeAnswer(c: Config, s: State, m: Id, a: Answer): State
    requires m in s.msgs && s.msgs[m].body.Deliver? && s.msgs[m].phase.InFlight? && s.msgs[m].phase.row.attempts >= 1
  {
    var r := Classify(c.delays, s.msgs[m].phase.row, a, s.now);
    s.(msgs := Moved(s, m, if r.status == Pending then Answered(r, a, s.now) else Staged(r, Replied(a, s.now, None))),
       hist := Log(s, s.msgs[m].body.delivery, Heard(m, s.now, a)))
  }

  function SendRetry(c: Config, s: State, m: Id, copy: Id): State
    requires m in s.msgs && s.msgs[m].body.Deliver? && s.msgs[m].phase.Answered?
    requires 1 <= s.msgs[m].phase.row.attempts <= |c.delays|
  {
    var b := s.msgs[m].body; var p := s.msgs[m].phase;
    var eta := s.now + c.delays[p.row.attempts - 1] * SECOND;
    s.(msgs := Moved(s, m, Staged(p.row, Replied(p.answer, p.at, Some(copy))))
                 [copy := Envelope(Deliver(b.delivery, b.tenant, eta), Queued)])
  }

  function CommitRow(s: State, m: Id): State
    requires m in s.msgs && s.msgs[m].body.Deliver? && s.msgs[m].phase.Staged?
  {
    var d := s.msgs[m].body.delivery; var r := s.msgs[m].phase.row;
    s.(rows := s.rows[d := r], locks := Remove(s.locks, d), msgs := Moved(s, m, Finished),
       hist := Log(s, d, Wrote(m, s.now, r)))
  }

  function InsertRows(s: State, m: Id, ids: seq<Id>, created: DateTime): State
    requires m in s.msgs && s.msgs[m].body.FanOut? && s.msgs[m].phase.Planned? && |ids| == |s.msgs[m].phase.targets|
  {
    var b := s.msgs[m].body;
    var added := NewRows(b.event, b.tenant, s.msgs[m].phase.targets, ids, created);
    s.(rows := s.rows + added, hist := s.hist + (map d | d in added :: []),
       msgs := Moved(s, m, Sending(WithTenant(ids, b.tenant))))
  }

  function SendNext(s: State, m: Id, copy: Id): State
    requires m in s.msgs && s.msgs[m].phase.Sending? && s.msgs[m].phase.todo != []
  {
    var todo := s.msgs[m].phase.todo;
    s.(msgs := Moved(s, m, Sending(todo[1..]))[copy := Envelope(Deliver(todo[0].0, todo[0].1, s.now), Queued)],
       released := s.released + {todo[0].0})
  }

  /** The worker dies: an open transaction rolls back and the broker redelivers the message. */
  function CrashTask(s: State, m: Id): State
    requires m in s.msgs
  {
    var open := Holding(s.msgs[m].phase) && s.msgs[m].body.Deliver?;
    s.(msgs := Moved(s, m, Queued),
       locks := if open then Remove(s.locks, s.msgs[m].body.delivery) else s.locks,
       hist := if open then Log(s, s.msgs[m].body.delivery, Undid(m, s.now, HasPosted(s.msgs[m].phase))) else s.hist)
  }

  function Enqueue(s: State, copy: Id, body: Message): State {
    s.(msgs := s.msgs[copy := Envelope(body, Queued)])
  }

  function Drop(s: State, m: Id): State {
    s.(msgs := Remove(s.msgs, m))
  }

  function SetClock(s: State, to: Time): State {
    s.(now := to)
  }

  function AddCall(s: State, r: Id, call: Call): State {
    s.(calls := s.calls[r := call])
  }

  function SetStage(s: State, r: Id, stage: Stage): State
    requires r in s.calls
  {
    s.(calls := s.calls[r := s.calls[r].(stage := stage)])
  }

  /** The request commits: its own new event if it inserted one, nothing but its answer otherwise. */
  function CommitCall(s: State, r: Id): State
    requires r in s.calls && (s.calls[r].stage.Inserted? || s.calls[r].stage.Found?)
  {
    var q := s.calls[r]; var e := q.stage.event;
    s.(events := if q.stage.Inserted? then s.events[e := Event(q.tenant, q.kind, q.payload, q.key)] else s.events,
       calls := s.calls[r := q.(stage := if q.stage.Inserted? then Stored(e) else Done(e, false))])
  }

  function SendFanOut(s: State, r: Id, copy: Id): State
    requires r in s.calls && s.calls[r].stage.Stored?
  {
    var q := s.calls[r];
    s.(msgs := s.msgs[copy := Envelope(FanOut(q.stage.event, q.tenant), Queued)],
       calls := s.calls[r := q.(stage := Done(q.stage.event, true))])
  }

  function CreateTenant(s: State, t: Id, secret: string): State {
    s.(tenants := s.tenants[t := secret])
  }

  function ReadForEdit(s: State, q: Id, edit: Edit): State {
    s.(edits := s.edits[q := edit])
  }

  function CreateEndpoint(s: State, e: Id, endpoint: Endpoint): State {
    s.(endpoints := s.endpoints[e := endpoint], urls := s.urls + {(e, endpoint.url)})
  }

  function ApplyEdit(s: State, q: Id): State
    requires q in s.edits && s.edits[q].endpoint in s.endpoints
  {
    var e := s.edits[q].endpoint; var revised := Revised(s.endpoints[e], s.edits[q]);
    s.(endpoints := s.endpoints[e := revised], edits := Remove(s.edits, q), urls := s.urls + {(e, revised.url)})
  }

  // ----- steps -----

  /** Execution `m` does `act`, taking the system from `s` to `s'`. */
  ghost predicate Acts(c: Config, s: State, m: Id, act: Act, s': State) {
    && m in s.msgs
    && var b := s.msgs[m].body; var p := s.msgs[m].phase;
       match act
       case Start => p.Queued? && (b.Deliver? ==> b.eta <= s.now) && s' == SetPhase(s, m, Received)
       case Claim => p.Received? && b.Deliver? && s' == ClaimRow(s, m)
       case Bind => p.Claimed? && b.Deliver? && s' == SetPhase(s, m, Reads(s, p.row, b.tenant))
       case Post => p.Bound? && b.Deliver? && s' == SendPost(s, m)
       case Hear(a) => p.InFlight? && b.Deliver? && p.row.attempts >= 1 && s' == TakeAnswer(c, s, m, a)
       case Retry(copy) =>
         && p.Answered? && b.Deliver? && copy !in s.msgs && 1 <= p.row.attempts <= |c.delays|
         && s' == SendRetry(c, s, m, copy)
       case Commit => p.Staged? && b.Deliver? && s' == CommitRow(s, m)
       case Plan(targets) =>
         p.Received? && b.FanOut? && IsTargets(s, b.event, b.tenant, targets) && s' == SetPhase(s, m, Planned(targets))
       case Expand(ids, created) =>
         && p.Planned? && b.FanOut?
         && |ids| == |p.targets| && Distinct(ids) && (forall d :: d in ids ==> d !in s.rows)
         && s' == InsertRows(s, m, ids, created)
       case Scan(picked) =>
         && p.Received? && b.Recover? && IsScan(s.rows, s.now, c.batch, picked)
         && s' == SetPhase(s, m, Sending(WithTenants(s.rows, picked)))
       case Send(copy) => p.Sending? && p.todo != [] && copy !in s.msgs && s' == SendNext(s, m, copy)
       case Ack => Ackable(p) && s' == Drop(s, m)
       case Crash => !p.Queued? && s' == CrashTask(s, m)
  }

  /** API request `r` does `move`. An insert waits while a rival insert of its key is uncommitted. */
  ghost predicate Moves(s: State, r: Id, move: Move, s': State) {
    if move.Arrive? then
      && r !in s.calls && move.tenant in s.tenants
      && s' == AddCall(s, r, Call(move.tenant, move.key, move.kind, move.payload, Arrived))
    else
      && r in s.calls
      && var q := s.calls[r];
         match move
         case Insert(e) =>
           && q.stage.Arrived? && UnusedEvent(s, e) && (q.key.Some? ==> !Rival(s.calls, q.tenant, q.key))
           && var taken := q.key.Some? && exists x :: KeyTaken(s.events, q.tenant, q.key, x);
              s' == SetStage(s, r, if taken then Conflicted else Inserted(e))
         case Reread(found) =>
           && q.stage.Conflicted?
           && (if found.Some? then KeyTaken(s.events, q.tenant, q.key, found.value)
               else forall e :: !KeyTaken(s.events, q.tenant, q.key, e))
           && s' == SetStage(s, r, if found.Some? then Found(found.value) else Broken)
         case CommitEvent => (q.stage.Inserted? || q.stage.Found?) && s' == CommitCall(s, r)
         case DispatchEvent(copy) => q.stage.Stored? && copy !in s.msgs && s' == SendFanOut(s, r, copy)
         case Abort =>
           && !q.stage.Done? && !q.stage.Orphaned? && !q.stage.Broken?
           && s' == SetStage(s, r, if q.stage.Stored? then Orphaned(q.stage.event) else Aborted)
  }

  predicate Changes(s: State, change: Change, s': State) {
    match change
    case AddTenant(t, secret) => t !in s.tenants && s' == CreateTenant(s, t, secret)
    case AddEndpoint(e, t, url, kinds) =>
      e !in s.endpoints && t in s.tenants && s' == CreateEndpoint(s, e, Endpoint(t, url, kinds, true))
    case OpenEdit(q, t, edit) =>
      && q !in s.edits && edit.endpoint in s.endpoints
      && s.endpoints[edit.endpoint].tenant == t && s.endpoints[edit.endpoint].active
      && s' == ReadForEdit(s, q, edit)
    case CommitEdit(q) => q in s.edits && s.edits[q].endpoint in s.endpoints && s' == ApplyEdit(s, q)
  }

  ghost predicate Next(c: Config, s: State, step: Step, s': State) {
    match step
    case Tick(to) => s.now <= to && s' == SetClock(s, to)
    case Task(m, act) => Acts(c, s, m, act, s')
    case Duplicate(m, copy) => m in s.msgs && copy !in s.msgs && s' == Enqueue(s, copy, s.msgs[m].body)
    case Beat(copy) => copy !in s.msgs && s' == Enqueue(s, copy, Recover)
    case Api(r, move) => Moves(s, r, move, s')
    case Admin(change) => Changes(s, change, s')
  }

  function Init(t: Time): State {
    State(t, t, map[], map[], map[], map[], map[], map[], map[], map[], map[], {}, {})
  }

  /** `states` is a run: each state follows from the one before by the step between them. */
  ghost predicate Run(c: Config, states: seq<State>, steps: seq<Step>) {
    && |states| == |steps| + 1
    && forall i {:trigger steps[i]} :: 0 <= i < |steps| ==> Next(c, states[i], steps[i], states[i + 1])
  }

  ghost predicate Reachable(c: Config, s: State) {
    exists t, states, steps :: Run(c, states, steps) && states[0] == Init(t) && states[|steps|] == s
  }
}
