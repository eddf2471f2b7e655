/** Endpoint management: create, edit, soft delete. */
module EndpointService {
  import opened Types
  import opened Protocol
  import opened Store
  import opened Sorting

  /** An endpoint loaded into a session; the table changes at the commit. */
  class EndpointRow {
    const tenant: Id
    var url: string
    var kinds: seq<string>
    var active: bool

    constructor (e: Endpoint)
      ensures Value() == e
    {
      tenant, url, kinds, active := e.tenant, e.url, e.kinds, e.active;
    }

    function Value(): Endpoint
      reads this
    {
      Endpoint(tenant, url, kinds, active)
    }
  }

  method GetActiveEndpoint(db: Database, tenant: Id, e: Id) returns (found: EndpointRow?)
    ensures found != null <==> e in db.endpoints && db.endpoints[e].tenant == tenant && db.endpoints[e].active
    ensures found != null ==> fresh(found) && found.Value() == db.endpoints[e]
  {
    found := null;
    if e in db.endpoints && db.endpoints[e].tenant == tenant && db.endpoints[e].active {
      found := new EndpointRow(db.endpoints[e]);
    }
  }

  method CreateEndpoint(db: Database, newId: Id, tenant: Id, url: string, kinds: seq<string>)
    returns (created: Endpoint)
    requires newId !in db.endpoints
    modifies db`endpoints
    ensures created == Endpoint(tenant, url, kinds, true) && db.endpoints == old(db.endpoints)[newId := created]
  {
    var endpoint := new EndpointRow(Endpoint(tenant, url, kinds, true));
    db.endpoints := db.endpoints[newId := endpoint.Value()];
    created := endpoint.Value();
  }

  /** Only the given fields change, and only on an active endpoint of the tenant. */
  method UpdateEndpoint(db: Database, tenant: Id, e: Id, url: Option<string>, kinds: Option<seq<string>>)
    returns (result: Result<Endpoint>)
    modifies db`endpoints
    ensures var before := old(db.endpoints);
            if e in before && before[e].tenant == tenant && before[e].active then
              && result == Ok(Endpoint(tenant, if url.Some? then url.value else before[e].url,
                                       if kinds.Some? then kinds.value else before[e].kinds, true))
              && db.endpoints == before[e := result.value]
              && result.value == Revised(before[e], Update(e, url, kinds))
            else db.endpoints == before && result == Err(EndpointNotFound)
  {
    var endpoint := GetActiveEndpoint(db, tenant, e);
    if endpoint == null {
      return Err(EndpointNotFound);
    }
    if url.Some? {
      endpoint.url := url.value;
    }
    if kinds.Some? {
      endpoint.kinds := kinds.value;
    }
    db.endpoints := db.endpoints[e := endpoint.Value()];
    return Ok(endpoint.Value());
  }

  /** The row stays, inactive. */
  method DeleteEndpoint(db: Database, tenant: Id, e: Id) returns (result: Result<()>)
    modifies db`endpoints
    ensures var before := old(db.endpoints);
            if e in before && before[e].tenant == tenant && before[e].active then
              && db.endpoints == before[e := Endpoint(tenant, before[e].url, before[e].kinds, false)]
                   && result == Ok(())
              && db.endpoints[e] == Revised(before[e], Delete(e))
            else db.endpoints == before && result == Err(EndpointNotFound)
  {
    var endpoint := GetActiveEndpoint(db, tenant, e);
    if endpoint == null {
      return Err(EndpointNotFound);
    }
    endpoint.active := false;
    db.endpoints := db.endpoints[e := endpoint.Value()];
    return Ok(());
  }

  /** After a delete no tenant can edit the endpoint any more, and no fan-out of any event selects it. */
  lemma DeletedIsUnreachable(endpoints: map<Id, Endpoint>, owner: Id, e: Id, tenant: Id, kind: string)
    requires e in endpoints && endpoints[e].tenant == owner && endpoints[e].active
    ensures var after := endpoints[e := Revised(endpoints[e], Delete(e))];
            && e in after && !after[e].active && e !in MatchingEndpoints(after, tenant, kind)
            && forall x :: x in MatchingEndpoints(after, tenant, kind) <==>
                 x != e && x in MatchingEndpoints(endpoints, tenant, kind)
  {
    MatchingAreMatched(endpoints, tenant, kind);
    MatchingAreMatched(endpoints[e := Revised(endpoints[e], Delete(e))], tenant, kind);
  }
}
