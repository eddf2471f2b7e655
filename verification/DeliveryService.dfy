/** The worker-side service functions, on committed tables and a queue. */
module DeliveryService {
  import opened Types
  import opened Rules
  import opened Store
  import opened Sorting
  import Protocol

  /** A row loaded into a session: its fields change in place, the table only at the commit. */
  class DeliveryRow {
    const event: Id
    const endpoint: Id
    const tenant: Id
    const created: DateTime
    var status: Status
    var attempts: nat
    var nextRetry: Option<Time>
    var code: Option<int>

    constructor (r: Delivery)
      ensures Value() == r
    {
      event, endpoint, tenant, created := r.event, r.endpoint, r.tenant, r.created;
      status, attempts, nextRetry, code := r.status, r.attempts, r.nextRetry, r.code;
    }

    function Value(): Delivery
      reads this
    {
      Delivery(event, endpoint, tenant, created, status, attempts, nextRetry, code)
    }
  }

  /** What the clock and the network answer in one execution. */
  datatype Inputs = Inputs(claimAt: Time, answer: Answer, heardAt: Time, sentAt: Time)

  /** What one execution leaves behind. */
  datatype Effect = Effect(rows: map<Id, Delivery>, sent: seq<Message>, post: Option<Webhook>)

  function RetryOf(delays: seq<nat>, id: Id, tenant: Id, r: Delivery, sentAt: Time): seq<Message> {
    if r.status == Pending && 1 <= r.attempts <= |delays| then
      [Deliver(id, tenant, sentAt + delays[r.attempts - 1] * SECOND)]
    else []
  }

  predicate Claims(t: Tables, locked: set<Id>, id: Id, tenant: Id, now: Time) {
    id in t.rows && Claimable(t.rows[id], tenant, now) && id !in locked
  }

  function DeliverOnce(delays: seq<nat>, t: Tables, locked: set<Id>, id: Id, tenant: Id, input: Inputs): Effect {
    if !Claims(t, locked, id, tenant, input.claimAt) then Effect(t.rows, [], None)
    else
      var r := t.rows[id];
      if !Related(t.tenants, t.endpoints, t.events, r, tenant) then Effect(t.rows[id := GiveUp(r)], [], None)
      else
        var r' := Classify(delays, Begin(r), input.answer, input.heardAt);
        Effect(t.rows[id := r'], RetryOf(delays, id, tenant, r', input.sentAt),
               Some(Request(t.endpoints[r.endpoint], r.event, t.events[r.event], t.tenants[tenant])))
  }

  /** An execution that does not get its row leaves everything as it was; one that does writes no other row. */
  lemma OnlyTheClaimedRow(delays: seq<nat>, t: Tables, locked: set<Id>, id: Id, tenant: Id, input: Inputs)
    ensures var effect := DeliverOnce(delays, t, locked, id, tenant, input);
            && effect.rows.Keys == t.rows.Keys && (forall x :: x in t.rows && x != id ==> effect.rows[x] == t.rows[x])
            && ((id in t.rows && id !in locked && t.rows[id].tenant == tenant && t.rows[id].status == Pending
                 && (t.rows[id].nextRetry.None? || t.rows[id].nextRetry.value <= input.claimAt))
                || (effect.rows == t.rows && effect.sent == [] && effect.post == None))
  {
  }

  /** An execution that finds its endpoint, event or tenant gone: the row is failed, and nothing is sent. */
  lemma GoneIsFailed(delays: seq<nat>, t: Tables, locked: set<Id>, id: Id, tenant: Id, input: Inputs)
    requires Claims(t, locked, id, tenant, input.claimAt)
    requires var r := t.rows[id];
             || r.endpoint !in t.endpoints || !t.endpoints[r.endpoint].active
               || t.endpoints[r.endpoint].tenant != tenant
             || r.event !in t.events || t.events[r.event].tenant != tenant || tenant !in t.tenants
    ensures var effect := DeliverOnce(delays, t, locked, id, tenant, input); var r := t.rows[id];
            && id in effect.rows && effect.sent == [] && effect.post == None
            && effect.rows[id] ==
                 Delivery(r.event, r.endpoint, r.tenant, r.created, Failed, r.attempts, r.nextRetry, r.code)
  {
  }

  /** An execution that finds them all: the request, and what the answer makes of the row and sends. */
  lemma AnswerIsRecorded(delays: seq<nat>, t: Tables, locked: set<Id>, id: Id, tenant: Id, input: Inputs)
    requires Claims(t, locked, id, tenant, input.claimAt)
    requires var r := t.rows[id];
             && r.endpoint in t.endpoints && t.endpoints[r.endpoint].active && t.endpoints[r.endpoint].tenant == tenant
             && r.event in t.events && t.events[r.event].tenant == tenant && tenant in t.tenants
    ensures var effect := DeliverOnce(delays, t, locked, id, tenant, input);
            id in effect.rows && var r := t.rows[id]; var r' := effect.rows[id]; var event := t.events[r.event];
            && effect.post == Some(Webhook(t.endpoints[r.endpoint].url, r.event, event.kind, event.payload,
                                           Signature(t.tenants[tenant], event.payload)))
            && r'.event == r.event && r'.endpoint == r.endpoint && r'.tenant == r.tenant && r'.created == r.created
            && r'.attempts == r.attempts + 1
            && r'.code == (if input.answer.Response? then Some(input.answer.code) else None)
            && (r'.status == Success <==> input.answer.Response? && 200 <= input.answer.code <= 299)
            && (r'.status == Pending <==> r'.status != Success && r.attempts < |delays|)
            && (r'.status == Exhausted <==> r'.status != Success && r.attempts >= |delays|)
            && (if r'.status == Pending then
                  var micros := delays[r.attempts] * 1_000_000;
                  && r'.nextRetry == Some(input.heardAt + micros)
                  && effect.sent == [Deliver(id, tenant, input.sentAt + micros)]
                else r'.nextRetry == None && effect.sent == [])
  {
  }

  /**
   A second call for the same row, from a duplicate, stale or recovery message, does nothing: not
   once the row is terminal, and not before its retry is due.
   */
  lemma SecondCallWaits(delays: seq<nat>, t: Tables, locked: set<Id>, id: Id, tenant: Id, first: Inputs, second: Inputs)
    requires Claims(t, locked, id, tenant, first.claimAt)
    ensures var effect := DeliverOnce(delays, t, locked, id, tenant, first);
            id in effect.rows && var r := effect.rows[id];
            r.status != Pending || (r.nextRetry.Some? && second.claimAt < r.nextRetry.value) <==>
              DeliverOnce(delays, t.(rows := effect.rows), locked, id, tenant, second) == Effect(effect.rows, [], None)
  {
  }

  method GetPendingDeliveryForUpdate(db: Database, id: Id, tenant: Id, now: Time) returns (found: DeliveryRow?)
    ensures found != null <==>
              && id in db.rows && id !in db.locked && db.rows[id].tenant == tenant && db.rows[id].status == Pending
              && (db.rows[id].nextRetry.None? || db.rows[id].nextRetry.value <= now)
    ensures found != null ==> fresh(found) && found.Value() == db.rows[id]
  {
    found := null;
    if id in db.rows && Claimable(db.rows[id], tenant, now) && id !in db.locked {
      found := new DeliveryRow(db.rows[id]);
    }
  }

  /** Sends the request, works the answer into the row and dispatches the retry, if any. */
  method PostAndRecordDelivery(delays: seq<nat>, delivery: DeliveryRow, endpoint: Endpoint, event: Event,
                               secret: string,
                               id: Id, tenant: Id, broker: Broker, input: Inputs)
    returns (post: Webhook)
    modifies delivery, broker
    ensures delivery.Value() == Classify(delays, Begin(old(delivery.Value())), input.answer, input.heardAt)
    ensures broker.sent == old(broker.sent) + RetryOf(delays, id, tenant, delivery.Value(), input.sentAt)
    ensures delivery.attempts == old(delivery.attempts) + 1
    ensures delivery.code == if input.answer.Response? then Some(input.answer.code) else None
    ensures delivery.status == Success <==> input.answer.Response? && 200 <= input.answer.code <= 299
    ensures delivery.status == Pending <==> delivery.status != Success && old(delivery.attempts) < |delays|
    ensures delivery.status == Success || delivery.status == Pending || delivery.status == Exhausted
    ensures if delivery.status == Pending then
              var micros := delays[old(delivery.attempts)] * 1_000_000;
              && delivery.nextRetry == Some(input.heardAt + micros)
              && broker.sent == old(broker.sent) + [Deliver(id, tenant, input.sentAt + micros)]
            else delivery.nextRetry == None && broker.sent == old(broker.sent)
    ensures post == Webhook(endpoint.url, delivery.event, event.kind, event.payload, Signature(secret, event.payload))
  {
    delivery.attempts := delivery.attempts + 1;
    post := Webhook(endpoint.url, delivery.event, event.kind, event.payload, Signature(secret, event.payload));
    match input.answer {
      case Response(code) =>
        delivery.code := Some(code);
        delivery.status := if 200 <= code <= 299 then Success else Failed;
      case NoResponse =>
        delivery.status := Failed;
        delivery.code := None;
    }
    if delivery.status == Failed {
      var retryIndex := delivery.attempts - 1;
      if retryIndex < |delays| {
        var delay := delays[retryIndex];
        delivery.status := Pending;
        delivery.nextRetry := Some(input.heardAt + delay * SECOND);
        broker.Send(Deliver(id, tenant, input.sentAt + delay * SECOND));
      } else {
        delivery.status := Exhausted;
        delivery.nextRetry := None;
      }
    } else {
      delivery.nextRetry := None;
    }
  }

  /** One execution of the delivery task, from the claim to the commit. */
  method DeliverToEndpointOnce(delays: seq<nat>, db: Database, broker: Broker, id: Id, tenant: Id, input: Inputs)
    returns (post: Option<Webhook>)
    modifies db`rows, broker
    ensures var effect := DeliverOnce(delays, old(db.Contents()), db.locked, id, tenant, input);
            db.rows == effect.rows && broker.sent == old(broker.sent) + effect.sent && post == effect.post
  {
    post := None;
    var delivery := GetPendingDeliveryForUpdate(db, id, tenant, input.claimAt);
    if delivery == null {
      return;
    }
    var endpointFound := delivery.endpoint in db.endpoints && db.endpoints[delivery.endpoint].active
                         && db.endpoints[delivery.endpoint].tenant == tenant;
    var eventFound := delivery.event in db.events && db.events[delivery.event].tenant == tenant;
    if !endpointFound || !eventFound {
      delivery.status := Failed;
      db.rows := db.rows[id := delivery.Value()];
      return;
    }
    if tenant !in db.tenants {
      delivery.status := Failed;
      db.rows := db.rows[id := delivery.Value()];
      return;
    }
    var sent := PostAndRecordDelivery(delays, delivery, db.endpoints[delivery.endpoint], db.events[delivery.event],
                                      db.tenants[tenant], id, tenant, broker, input);
    db.rows := db.rows[id := delivery.Value()];
    post := Some(sent);
  }

  // ----- fan-out -----

  function Announcements(ids: seq<Id>, tenant: Id, at: Time): seq<Message> {
    seq(|ids|, i requires 0 <= i < |ids| => Deliver(ids[i], tenant, at))
  }

  /** The new rows are exactly one for each target; every other row is as before. */
  ghost predicate FannedOut(rows: map<Id, Delivery>, rows': map<Id, Delivery>, event: Id, tenant: Id,
                            targets: seq<Id>, ids: seq<Id>, created: DateTime) {
    && |ids| == |targets|
    && (forall d :: d in rows' <==> d in rows || d in ids)
    && (forall d :: d in rows && d !in ids ==> rows'[d] == rows[d])
    && (forall i :: 0 <= i < |ids| ==>
         ids[i] in rows' && rows'[ids[i]] == Delivery(event, targets[i], tenant, created, Pending, 0, None, None))
  }

  lemma OneMoreRow(rows: map<Id, Delivery>, session: map<Id, Delivery>, event: Id, tenant: Id,
                   targets: seq<Id>, ids: seq<Id>, created: DateTime, target: Id, id: Id)
    requires FannedOut(rows, session, event, tenant, targets, ids, created) && id !in ids
    ensures FannedOut(rows, session[id := NewDelivery(event, target, tenant, created)], event, tenant,
                      targets + [target], ids + [id], created)
  {
    assert forall i :: 0 <= i < |ids| ==> ids[i] in ids;
  }

  lemma NotYetUsed(newIds: seq<Id>, i: nat)
    requires Protocol.Distinct(newIds) && i < |newIds|
    ensures newIds[i] !in newIds[..i] && newIds[..i + 1] == newIds[..i] + [newIds[i]]
  {
  }

  /** The first loop: a row for each endpoint, in the open session. */
  method AddDeliveries(db: Database, event: Id, tenant: Id, endpoints: seq<Id>, newIds: seq<Id>, created: DateTime)
    returns (session: map<Id, Delivery>, ids: seq<Id>)
    requires Protocol.Distinct(newIds) && |endpoints| <= |newIds|
    ensures ids <= newIds && FannedOut(db.rows, session, event, tenant, endpoints, ids, created)
    ensures forall d :: d in db.rows && d !in ids ==> d in session && session[d] == db.rows[d]
    ensures forall i :: 0 <= i < |ids| ==>
              && ids[i] in session && i < |endpoints|
              && session[ids[i]] == Delivery(event, endpoints[i], tenant, created, Pending, 0, None, None)
  {
    session, ids := db.rows, [];
    for i := 0 to |endpoints|
      invariant ids == newIds[..i] && FannedOut(db.rows, session, event, tenant, endpoints[..i], ids, created)
    {
      NotYetUsed(newIds, i);
      OneMoreRow(db.rows, session, event, tenant, endpoints[..i], ids, created, endpoints[i], newIds[i]);
      session := session[newIds[i] := NewDelivery(event, endpoints[i], tenant, created)];
      ids := ids + [newIds[i]];
      assert endpoints[..i + 1] == endpoints[..i] + [endpoints[i]];
    }
    assert endpoints[..|endpoints|] == endpoints;
  }

  /** The second loop: a message for each new row. */
  method AnnounceDeliveries(broker: Broker, ids: seq<Id>, tenant: Id, sentAt: Time)
    modifies broker
    ensures broker.sent == old(broker.sent) + Announcements(ids, tenant, sentAt)
    ensures |broker.sent| == |old(broker.sent)| + |ids|
    ensures forall i :: 0 <= i < |ids| ==> broker.sent[|old(broker.sent)| + i] == Deliver(ids[i], tenant, sentAt)
  {
    for i := 0 to |ids|
      invariant broker.sent == old(broker.sent) + Announcements(ids[..i], tenant, sentAt)
    {
      broker.Send(Deliver(ids[i], tenant, sentAt));
      assert ids[..i + 1] == ids[..i] + [ids[i]];
    }
    assert ids[..|ids|] == ids;
  }

  /** One row for each active endpoint of the tenant that takes the event's kind, and no other. */
  ghost predicate OneEach(t: Tables, rows: map<Id, Delivery>, event: Id, tenant: Id, ids: seq<Id>) {
    && (forall e :: (exists i :: 0 <= i < |ids| && ids[i] in rows && rows[ids[i]].endpoint == e) <==>
          && event in t.events && t.events[event].tenant == tenant
          && e in t.endpoints && t.endpoints[e].tenant == tenant && t.endpoints[e].active
          && t.events[event].kind in t.endpoints[e].kinds)
    && (forall i, j :: 0 <= i < j < |ids| && ids[i] in rows && ids[j] in rows ==>
          rows[ids[i]].endpoint != rows[ids[j]].endpoint)
  }

  lemma FansOutToEach(t: Tables, rows: map<Id, Delivery>, event: Id, tenant: Id, targets: seq<Id>, ids: seq<Id>,
                      created: DateTime)
    requires targets == if event in t.events && t.events[event].tenant == tenant then
                          MatchingEndpoints(t.endpoints, tenant, t.events[event].kind) else []
    requires FannedOut(t.rows, rows, event, tenant, targets, ids, created)
    ensures OneEach(t, rows, event, tenant, ids)
  {
    if event in t.events {
      MatchingAreMatched(t.endpoints, tenant, t.events[event].kind);
    }
    forall e | e in targets ensures exists i :: 0 <= i < |ids| && ids[i] in rows && rows[ids[i]].endpoint == e {
      var i :| 0 <= i < |targets| && targets[i] == e;
      assert rows[ids[i]].endpoint == e;
    }
    forall i | 0 <= i < |ids| ensures ids[i] in rows && rows[ids[i]].endpoint in targets {
      assert rows[ids[i]].endpoint == targets[i];
    }
  }

  /** Inserts a row for every active endpoint of the tenant that wants the event, commits, then announces them. */
  method FanOutEventDeliveries(db: Database, broker: Broker, event: Id, tenant: Id,
                               newIds: seq<Id>, created: DateTime, sentAt: Time)
    returns (ids: seq<Id>)
    requires Protocol.Distinct(newIds) && (forall d :: d in newIds ==> d !in db.rows)
    requires forall kind :: |MatchingEndpoints(db.endpoints, tenant, kind)| <= |newIds|
    modifies db`rows, broker
    ensures var found := event in db.events && db.events[event].tenant == tenant;
            var targets := if found then MatchingEndpoints(db.endpoints, tenant, db.events[event].kind) else [];
            ids <= newIds && FannedOut(old(db.rows), db.rows, event, tenant, targets, ids, created)
    ensures OneEach(old(db.Contents()), db.rows, event, tenant, ids)
    ensures forall d :: d in ids <==> d in db.rows && d !in old(db.rows)
    ensures forall d :: d in old(db.rows) ==> d in db.rows && db.rows[d] == old(db.rows)[d]
    ensures forall d :: d in ids ==>
              db.rows[d] == Delivery(event, db.rows[d].endpoint, tenant, created, Pending, 0, None, None)
    ensures broker.sent == old(broker.sent) + Announcements(ids, tenant, sentAt)
  {
    ids := [];
    if event !in db.events || db.events[event].tenant != tenant {
      FansOutToEach(db.Contents(), db.rows, event, tenant, [], [], created);
      return;
    }
    var endpoints := MatchingEndpoints(db.endpoints, tenant, db.events[event].kind);
    var session;
    session, ids := AddDeliveries(db, event, tenant, endpoints, newIds, created);
    FansOutToEach(db.Contents(), session, event, tenant, endpoints, ids, created);
    db.rows := session;
    AnnounceDeliveries(broker, ids, tenant, sentAt);
  }

  // ----- recovery -----

  function Requeued(rows: map<Id, Delivery>, ids: seq<Id>, at: Time): seq<Message>
    requires forall i :: 0 <= i < |ids| ==> ids[i] in rows
  {
    seq(|ids|, i requires 0 <= i < |ids| => Deliver(ids[i], rows[ids[i]].tenant, at))
  }

  /** The dispatch loop. */
  method RequeueDeliveries(db: Database, broker: Broker, ids: seq<Id>, sentAt: Time)
    requires forall i :: 0 <= i < |ids| ==> ids[i] in db.rows
    modifies broker
    ensures broker.sent == old(broker.sent) + Requeued(db.rows, ids, sentAt)
    ensures |broker.sent| == |old(broker.sent)| + |ids|
    ensures forall i :: 0 <= i < |ids| ==>
              broker.sent[|old(broker.sent)| + i] == Deliver(ids[i], db.rows[ids[i]].tenant, sentAt)
  {
    for i := 0 to |ids|
      invariant broker.sent == old(broker.sent) + Requeued(db.rows, ids[..i], sentAt)
    {
      broker.Send(Deliver(ids[i], db.rows[ids[i]].tenant, sentAt));
      assert ids[..i + 1] == ids[..i] + [ids[i]];
    }
    assert ids[..|ids|] == ids;
  }

  /** Sends one message for each of the oldest due rows, at most a batch, and touches no row. */
  method SendStuckDeliveries(db: Database, broker: Broker, now: Time, batch: nat, sentAt: Time)
    returns (count: nat, ghost picked: seq<Id>)
    modifies broker
    ensures Protocol.IsScan(db.rows, now, batch, picked) && count == |picked|
    ensures broker.sent == old(broker.sent) + Requeued(db.rows, picked, sentAt)
    ensures forall i :: 0 <= i < |picked| ==>
              && picked[i] in db.rows && db.rows[picked[i]].status == Pending
              && db.rows[picked[i]].nextRetry.Some? && db.rows[picked[i]].nextRetry.value <= now
              && broker.sent[|old(broker.sent)| + i] == Deliver(picked[i], db.rows[picked[i]].tenant, sentAt)
    ensures |broker.sent| == |old(broker.sent)| + |picked| && |picked| <= batch
    ensures forall i, j :: 0 <= i < j < |picked| ==>
              && picked[i] != picked[j]
              && db.rows[picked[i]].nextRetry.value <= db.rows[picked[j]].nextRetry.value
    ensures forall x :: x in db.rows && x !in picked && db.rows[x].status == Pending && db.rows[x].nextRetry.Some?
                        && db.rows[x].nextRetry.value <= now ==>
              && |picked| == batch
              && forall i :: 0 <= i < |picked| ==> db.rows[picked[i]].nextRetry.value <= db.rows[x].nextRetry.value
  {
    var stuck := First(DueFirst(db.rows, now), batch);
    FirstIsScan(db.rows, now, batch);
    RequeueDeliveries(db, broker, stuck, sentAt);
    count := |stuck|;
    picked := stuck;
  }
}
