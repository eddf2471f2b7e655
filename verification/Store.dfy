/** The committed tables and the queue, as the service functions see them. */
module Store {
  import opened Types

  datatype Tables = Tables(
    tenants: map<Id, string>, endpoints: map<Id, Endpoint>, events: map<Id, Event>, rows: map<Id, Delivery>)

  class Database {
    var tenants: map<Id, string>
    var endpoints: map<Id, Endpoint>
    var events: map<Id, Event>
    var rows: map<Id, Delivery>
    var locked: set<Id>  // delivery rows locked by other transactions

    constructor ()
      ensures Contents() == Tables(map[], map[], map[], map[]) && locked == {}
    {
      tenants, endpoints, events, rows, locked := map[], map[], map[], map[], {};
    }

    function Contents(): Tables
      reads this
    {
      Tables(tenants, endpoints, events, rows)
    }
  }

  class Broker {
    var sent: seq<Message>

    constructor ()
      ensures sent == []
    {
      sent := [];
    }

    method Send(message: Message)
      modifies this
      ensures sent == old(sent) + [message]
    {
      sent := sent + [message];
    }
  }
}
