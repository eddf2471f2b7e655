/** Uninterrupted API requests, as the service functions perform them, are runs of the step system. */
module ApiRuns {
  import opened Types
  import opened Protocol
  import opened Invariant
  import opened Rest
  import opened ServiceRuns

  lemma TenantIsRun(c: Config, s: State, tenant: Id, secret: string) returns (s': State)
    requires tenant !in s.tenants
    ensures Leads(c, s, s') && SameWork(s, s') && s'.tenants == s.tenants[tenant := secret]
  {
    s' := CreateTenant(s, tenant, secret);
    StandStill(c, s);
    Onward(c, s, s, Admin(AddTenant(tenant, secret)), s');
  }

  // ----- endpoints -----

  /** Only the endpoints differ. */
  predicate OnlyEndpoints(s: State, s': State) {
    SameWork(s, s') && s'.calls == s.calls && s'.events == s.events && s'.tenants == s.tenants && s'.edits == s.edits
  }

  lemma CreateIsRun(c: Config, s: State, e: Id, tenant: Id, url: string, kinds: seq<string>) returns (s': State)
    requires e !in s.endpoints && tenant in s.tenants
    ensures Leads(c, s, s') && OnlyEndpoints(s, s')
        && s'.endpoints == s.endpoints[e := Endpoint(tenant, url, kinds, true)]
  {
    s' := CreateEndpoint(s, e, Endpoint(tenant, url, kinds, true));
    StandStill(c, s);
    Onward(c, s, s, Admin(AddEndpoint(e, tenant, url, kinds)), s');
  }

  /** Read the active endpoint, change it, commit. */
  lemma EditRun(c: Config, s: State, q: Id, tenant: Id, edit: Edit) returns (s': State)
    requires q !in s.edits && edit.endpoint in s.endpoints
    requires s.endpoints[edit.endpoint].tenant == tenant && s.endpoints[edit.endpoint].active
    ensures Leads(c, s, s') && OnlyEndpoints(s, s')
    ensures s'.endpoints == s.endpoints[edit.endpoint := Revised(s.endpoints[edit.endpoint], edit)]
  {
    var s1 := ReadForEdit(s, q, edit);
    s' := ApplyEdit(s1, q);
    StandStill(c, s);
    Onward(c, s, s, Admin(OpenEdit(q, tenant, edit)), s1);
    Onward(c, s, s1, Admin(CommitEdit(q)), s');
    assert s'.edits == s.edits;
  }

  lemma UpdateIsRun(c: Config, s: State, q: Id, tenant: Id, e: Id, url: Option<string>, kinds: Option<seq<string>>)
    returns (s': State)
    requires q !in s.edits && e in s.endpoints && s.endpoints[e].tenant == tenant && s.endpoints[e].active
    ensures Leads(c, s, s') && OnlyEndpoints(s, s')
    ensures s'.endpoints == s.endpoints[e :=
              Endpoint(tenant, if url.Some? then url.value else s.endpoints[e].url,
                       if kinds.Some? then kinds.value else s.endpoints[e].kinds, true)]
  {
    s' := EditRun(c, s, q, tenant, Update(e, url, kinds));
  }

  lemma DeleteIsRun(c: Config, s: State, q: Id, tenant: Id, e: Id) returns (s': State)
    requires q !in s.edits && e in s.endpoints && s.endpoints[e].tenant == tenant && s.endpoints[e].active
    ensures Leads(c, s, s') && OnlyEndpoints(s, s')
    ensures s'.endpoints == s.endpoints[e := Endpoint(tenant, s.endpoints[e].url, s.endpoints[e].kinds, false)]
  {
    s' := EditRun(c, s, q, tenant, Delete(e));
  }

  /** No one else's edit gets past its read: it is opened by the endpoint's own tenant, while it is active. */
  lemma OnlyOwnersEdit(c: Config, s: State, q: Id, tenant: Id, edit: Edit)
    ensures (exists s' :: Next(c, s, Admin(OpenEdit(q, tenant, edit)), s')) <==>
              && q !in s.edits && edit.endpoint in s.endpoints
              && s.endpoints[edit.endpoint].tenant == tenant && s.endpoints[edit.endpoint].active
  {
    if q !in s.edits && edit.endpoint in s.endpoints && s.endpoints[edit.endpoint].tenant == tenant
       && s.endpoints[edit.endpoint].active {
      assert Next(c, s, Admin(OpenEdit(q, tenant, edit)), ReadForEdit(s, q, edit));
    }
  }

  // ----- ingestion -----

  /** Another request has inserted this tenant's key and not committed it. */
  predicate Uncommitted(s: State, tenant: Id, key: Option<string>) {
    && key.Some?
    && exists r :: r in s.calls && s.calls[r].stage.Inserted? && s.calls[r].tenant == tenant && s.calls[r].key == key
  }

  /** The tenant has an event with this key. */
  ghost predicate Taken(s: State, tenant: Id, key: Option<string>) {
    key.Some? && exists e :: e in s.events && s.events[e].tenant == tenant && s.events[e].key == key
  }

  /** The event ids in use, committed or not. */
  function EventsInUse(s: State): set<Id> {
    s.events.Keys + set r | r in s.calls && s.calls[r].stage.Inserted? :: s.calls[r].stage.event
  }

  lemma FreeEvent(s: State) returns (e: Id)
    ensures UnusedEvent(s, e)
  {
    var ids := NewIds(EventsInUse(s), 1);
    e := ids[0];
    forall r | r in s.calls && s.calls[r].stage.Inserted? ensures s.calls[r].stage.event != e {
      assert s.calls[r].stage.event in EventsInUse(s);
    }
  }

  /** An insert waits for an uncommitted insert of the same key of the same tenant, and for nothing else. */
  lemma InsertWaitsOnlyForRival(c: Config, s: State, r: Id)
    requires r in s.calls && s.calls[r].stage.Arrived?
    ensures (exists e, s' :: Next(c, s, Api(r, Insert(e)), s')) <==> !Uncommitted(s, s.calls[r].tenant, s.calls[r].key)
  {
    var q := s.calls[r];
    if !Uncommitted(s, q.tenant, q.key) {
      var e := FreeEvent(s);
      var taken := q.key.Some? && exists x :: KeyTaken(s.events, q.tenant, q.key, x);
      assert Next(c, s, Api(r, Insert(e)), SetStage(s, r, if taken then Conflicted else Inserted(e)));
    }
  }

  /** A key no one has used, or none: the event is stored and announced. */
  lemma NewEventIsRun(c: Config, s: State, r: Id, e: Id, copy: Id, tenant: Id, key: Option<string>, kind: string,
                      payload: string)
    returns (s': State)
    requires r !in s.calls && tenant in s.tenants && UnusedEvent(s, e) && copy !in s.msgs
    requires !Uncommitted(s, tenant, key) && !Taken(s, tenant, key)
    ensures Leads(c, s, s') && s'.rows == s.rows && s'.endpoints == s.endpoints
    ensures s'.events == s.events[e := Event(tenant, kind, payload, key)]
    ensures s'.msgs == s.msgs[copy := Envelope(FanOut(e, tenant), Queued)]
    ensures r in s'.calls && s'.calls[r].stage == Done(e, true)
  {
    var s1 := InsertRun(c, s, r, e, Call(tenant, key, kind, payload, Arrived), Inserted(e));
    var s2 := CommitCall(s1, r);
    Onward(c, s, s1, Api(r, CommitEvent), s2);
    s' := SendFanOut(s2, r, copy);
    Onward(c, s, s2, Api(r, DispatchEvent(copy)), s');
  }

  /** Arrival and insert of a request, when nothing is in the way. */
  lemma InsertRun(c: Config, s: State, r: Id, e: Id, q: Call, stage: Stage) returns (s': State)
    requires r !in s.calls && q.tenant in s.tenants && q.stage.Arrived? && UnusedEvent(s, e)
    requires !Uncommitted(s, q.tenant, q.key) && stage == if Taken(s, q.tenant, q.key) then Conflicted else Inserted(e)
    ensures Leads(c, s, s') && s' == AddCall(s, r, q.(stage := stage))
  {
    var s1 := AddCall(s, r, q);
    StandStill(c, s);
    Onward(c, s, s, Api(r, Arrive(q.tenant, q.key, q.kind, q.payload)), s1);
    s' := SetStage(s1, r, stage);
    NoRival(s1, r, q);
    TakenMeansKeyTaken(s, q.tenant, q.key);
    assert Next(c, s1, Api(r, Insert(e)), s');
    Onward(c, s, s1, Api(r, Insert(e)), s');
  }

  lemma NoRival(s: State, r: Id, q: Call)
    requires r in s.calls && s.calls[r] == q && q.stage.Arrived?
    requires q.key.Some? ==> forall x :: x in s.calls && x != r && s.calls[x].stage.Inserted? ==>
               s.calls[x].tenant != q.tenant || s.calls[x].key != q.key
    ensures q.key.Some? ==> !Rival(s.calls, q.tenant, q.key)
  {
  }

  lemma TakenMeansKeyTaken(s: State, tenant: Id, key: Option<string>)
    ensures Taken(s, tenant, key) <==> key.Some? && exists x :: KeyTaken(s.events, tenant, key, x)
  {
    if e :| e in s.events && s.events[e].tenant == tenant && s.events[e].key == key {
      assert KeyTaken(s.events, tenant, key, e);
    }
  }

  /** A key already used: the existing event is the answer, and nothing is stored or announced. */
  lemma OldEventIsRun(c: Config, s: State, r: Id, old0: Id, tenant: Id, key: Option<string>, kind: string,
                      payload: string)
    returns (s': State)
    requires r !in s.calls && tenant in s.tenants && !Uncommitted(s, tenant, key)
    requires key.Some? && old0 in s.events && s.events[old0].tenant == tenant && s.events[old0].key == key
    ensures Leads(c, s, s') && s'.rows == s.rows && s'.endpoints == s.endpoints
    ensures s'.events == s.events && s'.msgs == s.msgs && r in s'.calls && s'.calls[r].stage == Done(old0, false)
  {
    var e := FreeEvent(s);
    var s1 := InsertRun(c, s, r, e, Call(tenant, key, kind, payload, Arrived), Conflicted);
    var s2 := SetStage(s1, r, Found(old0));
    Onward(c, s, s1, Api(r, Reread(Some(old0))), s2);
    s' := CommitCall(s2, r);
    Onward(c, s, s2, Api(r, CommitEvent), s');
  }
}
