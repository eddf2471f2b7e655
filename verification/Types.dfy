/** The values the service stores and exchanges. */
module Types {

  type Id = int

  /** Microseconds on the one monotone clock shared by workers, broker and database. */
  type Time = int

  const SECOND: Time := 1_000_000

  datatype Option<+T> = None | Some(value: T) {
    function UnwrapOr(fallback: T): T {
      if Some? then value else fallback
    }

    predicate IsFailure() {
      None?
    }

    function PropagateFailure<U>(): Option<U>
      requires None?
    {
      None
    }

    function Extract(): T
      requires Some?
    {
      value
    }
  }

  /** `Err` stands for the exception a service raises. */
  datatype Result<+T> = Ok(value: T) | Err(error: Error)

  datatype Error = InvalidCursor | EndpointNotFound | ConflictWithoutEvent

  datatype Status = Pending | Success | Failed | Exhausted

  /** A timezone-free `datetime`. */
  datatype DateTime = DateTime(year: nat, month: nat, day: nat, hour: nat, minute: nat, second: nat, micro: nat)

  /** One row of table `delivery`; response text and latency are opaque and dropped. */
  datatype Delivery = Delivery(
    event: Id, endpoint: Id, tenant: Id, created: DateTime,
    status: Status, attempts: nat, nextRetry: Option<Time>, code: Option<int>)

  datatype Endpoint = Endpoint(tenant: Id, url: string, kinds: seq<string>, active: bool)

  datatype Event = Event(tenant: Id, kind: string, payload: string, key: Option<string>)

  /** What a POST comes back with: a status code, or a `requests.RequestException`. */
  datatype Answer = Response(code: int) | NoResponse

  /** HMAC-SHA256 as an uninterpreted function of the secret and the body. */
  datatype Signature = Signature(secret: string, body: string)

  datatype Webhook = Webhook(url: string, event: Id, kind: string, body: string, signature: Signature)

  /** A task message; `eta` is the earliest time the broker hands it to a worker. */
  datatype Message =
    | FanOut(event: Id, tenant: Id)
    | Deliver(delivery: Id, tenant: Id, eta: Time)
    | Recover
}
