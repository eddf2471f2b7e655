/** What the service does to one delivery row, shared by the service methods and the protocol. */
module Rules {
  import opened Types

  /** The row `add_delivery` inserts. */
  function NewDelivery(event: Id, endpoint: Id, tenant: Id, created: DateTime): Delivery {
    Delivery(event, endpoint, tenant, created, Pending, 0, None, None)
  }

  /** The WHERE clause of the claiming query, lock aside. */
  predicate Claimable(r: Delivery, tenant: Id, now: Time) {
    && r.tenant == tenant
    && r.status == Pending
    && (r.nextRetry.None? || r.nextRetry.value <= now)
  }

  /** The WHERE clause of the recovery query. */
  predicate Stuck(r: Delivery, now: Time) {
    && r.status == Pending
    && r.nextRetry.Some?
    && r.nextRetry.value <= now
  }

  predicate Ok2xx(code: int) {
    200 <= code <= 299
  }

  predicate Accepted(a: Answer) {
    a.Response? && Ok2xx(a.code)
  }

  /** The attempt counter is raised before the request goes out. */
  function Begin(r: Delivery): Delivery {
    r.(attempts := r.attempts + 1)
  }

  /** The row once the answer to attempt `r.attempts` has been worked in at time `now`. */
  function Classify(delays: seq<nat>, r: Delivery, a: Answer, now: Time): Delivery
    requires r.attempts >= 1
  {
    var answered := r.(code := if a.Response? then Some(a.code) else None);
    if Accepted(a) then
      answered.(status := Success, nextRetry := None)
    else if r.attempts - 1 < |delays| then
      answered.(status := Pending, nextRetry := Some(now + delays[r.attempts - 1] * SECOND))
    else
      answered.(status := Exhausted, nextRetry := None)
  }

  /** The row when the endpoint, the event or the tenant could not be read. */
  function GiveUp(r: Delivery): Delivery {
    r.(status := Failed)
  }

  predicate Matches(e: Endpoint, tenant: Id, kind: string) {
    e.tenant == tenant && e.active && kind in e.kinds
  }

  /** Endpoint, event and tenant of a row are all there for the given tenant. */
  predicate Related(tenants: map<Id, string>, endpoints: map<Id, Endpoint>, events: map<Id, Event>, r: Delivery,
                    tenant: Id)
  {
    && r.endpoint in endpoints && endpoints[r.endpoint].active && endpoints[r.endpoint].tenant == tenant
    && r.event in events && events[r.event].tenant == tenant
    && tenant in tenants
  }

  function Request(e: Endpoint, id: Id, event: Event, secret: string): Webhook {
    Webhook(e.url, id, event.kind, event.payload, Signature(secret, event.payload))
  }

  /** The shapes a stored row can have, for a list of retry delays. */
  predicate Shape(delays: seq<nat>, r: Delivery) {
    var refused := r.code.Some? ==> !Ok2xx(r.code.value);
    match r.status
    case Pending => r.attempts <= |delays| && (r.nextRetry.None? <==> r.attempts == 0) && refused
    case Failed => r.attempts <= |delays| && (r.nextRetry.None? <==> r.attempts == 0) && refused
    case Success => 1 <= r.attempts <= |delays| + 1 && r.nextRetry.None? && r.code.Some? && Ok2xx(r.code.value)
    case Exhausted => r.attempts == |delays| + 1 && r.nextRetry.None? && refused
  }
}
