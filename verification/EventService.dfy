/** Event ingestion as one uninterrupted API request performs it. */
module EventService {
  import opened Types
  import opened Protocol
  import opened Ingest
  import opened Store

  /** The unique constraint on (tenant, idempotency key); null keys never conflict. */
  ghost predicate UniqueKeys(events: map<Id, Event>) {
    forall e1, e2 :: e1 in events && e2 in events && SameKey(events[e1], events[e2]) ==> e1 == e2
  }

  /** An open transaction: what it inserted is not in the table before the commit. */
  class EventSession {
    const db: Database
    var inserted: map<Id, Event>

    constructor (db: Database)
      ensures this.db == db && inserted == map[]
    {
      this.db := db;
      inserted := map[];
    }

    method Commit()
      modifies this, db`events
      ensures db.events == old(db.events) + old(inserted) && inserted == map[]
    {
      db.events := db.events + inserted;
      inserted := map[];
    }
  }

  function Holders(events: map<Id, Event>, tenant: Id, key: string): set<Id> {
    set e | e in events && events[e].tenant == tenant && events[e].key == Some(key)
  }

  predicate IsOnly(ids: set<Id>, e: Id) {
    e in ids && forall x :: x in ids ==> x == e
  }

  lemma OnlyHolder(events: map<Id, Event>, tenant: Id, key: string)
    requires UniqueKeys(events) && Holders(events, tenant, key) != {}
    ensures exists e :: IsOnly(Holders(events, tenant, key), e)
  {
    var ids := Holders(events, tenant, key);
    if forall e :: e !in ids {
      assert false;
    }
    var e :| e in ids;
    forall x | x in ids ensures x == e {
      assert SameKey(events[x], events[e]);
    }
    assert IsOnly(ids, e);
  }

  /** SELECT id WHERE tenant and key match. */
  function FindEvent(events: map<Id, Event>, tenant: Id, key: string): (found: Option<Id>)
    requires UniqueKeys(events)
    ensures found.Some? ==> KeyTaken(events, tenant, Some(key), found.value)
    ensures found.None? ==> forall e :: !KeyTaken(events, tenant, Some(key), e)
  {
    var ids := Holders(events, tenant, key);
    if ids == {} then
      assert forall e :: KeyTaken(events, tenant, Some(key), e) ==> e in ids;
      None
    else
      OnlyHolder(events, tenant, key);
      var e :| IsOnly(ids, e);
      Some(e)
  }

  /** Insert, or on conflict do nothing and look the existing event up. */
  method InsertEventIdempotently(session: EventSession, newId: Id, tenant: Id, kind: string, payload: string,
                                 key: Option<string>)
    returns (result: Result<(Id, bool)>)
    requires UniqueKeys(session.db.events) && session.inserted == map[] && newId !in session.db.events
    modifies session
    ensures result.Ok?
    ensures var (e, created) := result.value;
            if created then e == newId && session.inserted == map[newId := Event(tenant, kind, payload, key)]
                            && (key.Some? ==> forall x :: !KeyTaken(session.db.events, tenant, key, x))
            else session.inserted == map[] && key.Some? && KeyTaken(session.db.events, tenant, key, e)
  {
    if key.None? {
      session.inserted := map[newId := Event(tenant, kind, payload, key)];
      return Ok((newId, true));
    }
    var conflict := FindEvent(session.db.events, tenant, key.value).Some?;
    if !conflict {
      session.inserted := map[newId := Event(tenant, kind, payload, key)];
      return Ok((newId, true));
    }
    var existing := FindEvent(session.db.events, tenant, key.value);
    if existing.None? {
      return Err(ConflictWithoutEvent);
    }
    return Ok((existing.value, false));
  }

  /** Insert and commit, then announce the event if it is new. */
  method IngestEvent(db: Database, broker: Broker, newId: Id, tenant: Id, kind: string, payload: string,
                     key: Option<string>)
    returns (result: Result<(Id, bool)>)
    requires UniqueKeys(db.events) && newId !in db.events
    modifies db`events, broker
    ensures result.Ok? && UniqueKeys(db.events)
    ensures var (e, created) := result.value;
            && AtomicIngest(old(db.events), Call(tenant, key, kind, payload, Arrived), e, created, db.events)
            && broker.sent == old(broker.sent) + (if created then [FanOut(e, tenant)] else [])
  {
    var session := new EventSession(db);
    result := InsertEventIdempotently(session, newId, tenant, kind, payload, key);
    if result.Err? {
      return;  // would roll back; the contract above says it never happens
    }
    var (e, created) := result.value;
    ghost var before := db.events;
    session.Commit();
    assert db.events == if created then before[e := Event(tenant, kind, payload, key)] else before;
    assert forall x :: x in before && before[x].tenant == tenant && before[x].key == key ==>
      KeyTaken(before, tenant, key, x);
    IngestKeepsKeys(before, Call(tenant, key, kind, payload, Arrived), e, created, db.events);
    if created {
      broker.Send(FanOut(e, tenant));
    }
  }

  lemma IngestKeepsKeys(before: map<Id, Event>, q: Call, e: Id, created: bool, after: map<Id, Event>)
    requires UniqueKeys(before) && AtomicIngest(before, q, e, created, after)
    ensures UniqueKeys(after)
  {
  }

  /** Asking again with the same key returns the same event and changes nothing. */
  lemma IngestTwice(before: map<Id, Event>, q1: Call, e1: Id, created1: bool, middle: map<Id, Event>,
                    q2: Call, e2: Id, created2: bool, after: map<Id, Event>)
    requires UniqueKeys(before) && AtomicIngest(before, q1, e1, created1, middle)
    requires AtomicIngest(middle, q2, e2, created2, after)
    requires q1.key.Some? && q2.key == q1.key && q2.tenant == q1.tenant
    ensures !created2 && e2 == e1 && after == middle
  {
    IngestKeepsKeys(before, q1, e1, created1, middle);
    assert e1 in middle && middle[e1].tenant == q1.tenant && middle[e1].key == q1.key;
    if !created2 {
      assert SameKey(middle[e1], middle[e2]);
    }
  }
}
