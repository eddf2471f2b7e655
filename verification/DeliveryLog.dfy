/** The delivery log as its API serves it, with opaque cursors, and the load test's client. */
module DeliveryLog {
  import opened Types
  import opened Paging
  import opened Cursor

  datatype LogPage = LogPage(items: seq<Id>, nextCursor: Option<string>)

  /** Every row's creation time and id are ones the database can hold. */
  predicate ValidTable(t: Table) {
    forall d :: d in t ==> ValidKey(KeyOf(t, d))
  }

  predicate ValidPosition(k: Option<Key>) {
    k.Some? ==> ValidKey(k.value)
  }

  function Opaque(k: Option<Key>): Option<string>
    requires ValidPosition(k)
  {
    if k.Some? then Some(EncodeDeliveryCursor(k.value)) else None
  }

  lemma NextIsValid(t: Table, f: Filter, k: Option<Key>, limit: nat)
    requires ValidTable(t) && limit >= 1
    ensures ValidPosition(ListDeliveryLogs(t, f, k, limit).next)
  {
    PageFacts(t, f, k, limit);
  }

  function ListLogs(t: Table, f: Filter, cursor: Option<string>, limit: nat): Result<LogPage>
    requires ValidTable(t) && limit >= 1
  {
    match DecodeDeliveryCursor(cursor)
    case Err(e) => Err(e)
    case Ok(k) =>
      NextIsValid(t, f, k, limit);
      var page := ListDeliveryLogs(t, f, k, limit);
      Ok(LogPage(page.items, Opaque(page.next)))
  }

  /** Following a cursor is following the position it stands for. */
  lemma OpaqueIsRaw(t: Table, f: Filter, k: Option<Key>, limit: nat)
    requires ValidTable(t) && limit >= 1 && ValidPosition(k)
    ensures var p := ListDeliveryLogs(t, f, k, limit);
            ValidPosition(p.next) && ListLogs(t, f, Opaque(k), limit) == Ok(LogPage(p.items, Opaque(p.next)))
  {
    NextIsValid(t, f, k, limit);
    if k.Some? {
      CursorRoundTrip(k.value);
    }
  }

  function OpaqueCursor(logs: seq<LogPage>, i: nat): Option<string>
    requires i <= |logs|
  {
    if i == 0 then None else logs[i - 1].nextCursor
  }

  /** A client's pages: each is asked for with the cursor of the previous one. */
  ghost predicate ReadOpaquely(tables: seq<Table>, logs: seq<LogPage>, f: Filter, limit: nat) {
    && |tables| == |logs| && logs != [] && limit >= 1
    && (forall i :: 0 <= i < |tables| ==> ValidTable(tables[i]))
    && (forall i {:trigger logs[i]} :: 0 <= i < |logs| ==>
          && (i > 0 ==> logs[i - 1].nextCursor.Some?)
          && ListLogs(tables[i], f, OpaqueCursor(logs, i), limit) == Ok(logs[i]))
  }

  /** The pages read by position that the client's pages amount to. */
  ghost function Raw(tables: seq<Table>, logs: seq<LogPage>, f: Filter, limit: nat): (pages: seq<Page>)
    requires ReadOpaquely(tables, logs, f, limit) || logs == []
    ensures |pages| == |logs|
  {
    seq(|logs|, i requires 0 <= i < |logs| =>
      Page(logs[i].items, var k := DecodeDeliveryCursor(logs[i].nextCursor); if k.Ok? then k.value else None))
  }

  lemma RawPage(tables: seq<Table>, logs: seq<LogPage>, f: Filter, limit: nat, i: nat)
    requires ReadOpaquely(tables, logs, f, limit) && i < |logs|
    ensures var pages := Raw(tables, logs, f, limit);
            && ValidPosition(pages[i].next) && logs[i].nextCursor == Opaque(pages[i].next)
            && pages[i] == ListDeliveryLogs(tables[i], f, CursorOf(pages, i), limit)
  {
    var pages := Raw(tables, logs, f, limit);
    assert ListLogs(tables[i], f, OpaqueCursor(logs, i), limit) == Ok(logs[i]);
    if i > 0 {
      RawPage(tables, logs, f, limit, i - 1);
    }
    var k := CursorOf(pages, i);
    OpaqueIsRaw(tables[i], f, k, limit);
    var next := ListDeliveryLogs(tables[i], f, k, limit).next;
    if next.Some? {
      CursorRoundTrip(next.value);
    }
  }

  predicate SamePage(page: Page, log: LogPage) {
    page.items == log.items && (page.next.None? <==> log.nextCursor.None?)
  }

  lemma RawFollows(tables: seq<Table>, logs: seq<LogPage>, f: Filter, limit: nat, i: nat)
    requires ReadOpaquely(tables, logs, f, limit) && i < |logs|
    ensures Follows(tables, Raw(tables, logs, f, limit), f, limit, i)
    ensures SamePage(Raw(tables, logs, f, limit)[i], logs[i])
  {
    RawPage(tables, logs, f, limit, i);
    if i > 0 {
      RawPage(tables, logs, f, limit, i - 1);
    }
    assert logs[i] == logs[i];
  }

  /** Paging through opaque cursors is paging through positions: same rows, same end, never an error. */
  lemma OpaquePagingIsRaw(tables: seq<Table>, logs: seq<LogPage>, f: Filter, limit: nat)
    requires ReadOpaquely(tables, logs, f, limit)
    ensures ReadFrom(tables, Raw(tables, logs, f, limit), f, limit)
    ensures forall i :: 0 <= i < |logs| ==> SamePage(Raw(tables, logs, f, limit)[i], logs[i])
  {
    forall i | 0 <= i < |logs|
      ensures Follows(tables, Raw(tables, logs, f, limit), f, limit, i)
      ensures SamePage(Raw(tables, logs, f, limit)[i], logs[i])
    {
      RawFollows(tables, logs, f, limit, i);
    }
  }

  // ----- the client -----

  const PAGE_LIMIT: nat := 100

  /** The rows among `ids` with an event of interest and this status. */
  function Having(t: Table, ids: set<Id>, events: set<Id>, s: Status): set<Id> {
    set d | d in ids && d in t && t[d].event in events && t[d].status == s
  }

  function CountOf(counts: map<Status, nat>, s: Status): nat {
    if s in counts then counts[s] else 0
  }

  ghost predicate Counted(counts: map<Status, nat>, t: Table, ids: set<Id>, events: set<Id>) {
    forall s :: CountOf(counts, s) == |Having(t, ids, events, s)|
  }

  lemma CountOne(counts: map<Status, nat>, t: Table, ids: set<Id>, events: set<Id>, d: Id)
    requires Counted(counts, t, ids, events) && d !in ids && d in t
    ensures var s := t[d].status;
            Counted(if t[d].event in events then counts[s := CountOf(counts, s) + 1] else counts, t, ids + {d}, events)
  {
    var s := t[d].status;
    forall x
      ensures |Having(t, ids + {d}, events, x)|
              == |Having(t, ids, events, x)| + if t[d].event in events && x == s then 1 else 0
    {
      if t[d].event in events && x == s {
        assert Having(t, ids + {d}, events, x) == Having(t, ids, events, x) + {d};
      } else {
        assert Having(t, ids + {d}, events, x) == Having(t, ids, events, x);
      }
    }
  }

  function Members(list: seq<Id>): set<Id> {
    set d | d in list
  }

  /** The inner loop: every row of the page is new, and is counted. */
  method CountPage(t: Table, items: seq<Id>, events: set<Id>, before: map<Status, nat>, ghost seen: set<Id>)
    returns (counts: map<Status, nat>)
    requires Falling(t, items) && (forall d :: d in items ==> d !in seen) && Counted(before, t, seen, events)
    ensures Counted(counts, t, seen + Members(items), events)
  {
    counts := before;
    assert seen + Members(items[..0]) == seen;
    for i := 0 to |items|
      invariant Counted(counts, t, seen + Members(items[..i]), events)
    {
      var d := items[i];
      assert d !in Members(items[..i]);
      CountOne(counts, t, seen + Members(items[..i]), events, d);
      assert seen + Members(items[..i]) + {d} == seen + Members(items[..i + 1]);
      if t[d].event in events {
        counts := counts[t[d].status := CountOf(counts, t[d].status) + 1];
      }
    }
    assert items[..|items|] == items;
  }

  /** Walks all pages; on a table at rest it counts, per status, exactly the tenant's rows of the events. */
  method FetchDeliveryStatusCounts(t: Table, tenant: Id, events: set<Id>) returns (counts: map<Status, nat>)
    requires ValidTable(t)
    ensures forall s :: CountOf(counts, s) ==
                        |set d | d in t && t[d].tenant == tenant && t[d].event in events && t[d].status == s|
  {
    var f := Filter(tenant, None, None);
    counts := map[];
    var cursor: Option<string> := None;
    ghost var position: Option<Key> := None;
    ghost var seen: set<Id> := {};
    while true
      invariant ValidPosition(position) && cursor == Opaque(position)
      invariant forall d :: d in seen <==> Selected(t, f, d) && !Left(t, f, position, d)
      invariant Counted(counts, t, seen, events)
      decreases Unread(t, f, position)
    {
      OpaqueIsRaw(t, f, position, PAGE_LIMIT);
      PageFacts(t, f, position, PAGE_LIMIT);
      ghost var page := ListDeliveryLogs(t, f, position, PAGE_LIMIT);
      var body := ListLogs(t, f, cursor, PAGE_LIMIT).value;
      counts := CountPage(t, body.items, events, counts, seen);
      seen := seen + Members(body.items);
      cursor := body.nextCursor;
      if cursor.None? {
        AllCounted(t, f, seen, events);
        return;
      }
      NextShrinks(t, f, position, PAGE_LIMIT, page);
      position := page.next;
    }
  }

  lemma AllCounted(t: Table, f: Filter, seen: set<Id>, events: set<Id>)
    requires f.status.None? && f.endpoint.None? && forall d :: d in seen <==> Selected(t, f, d)
    ensures forall s :: Having(t, seen, events, s)
                        == set d | d in t && t[d].tenant == f.tenant && t[d].event in events && t[d].status == s
  {
    forall s ensures Having(t, seen, events, s)
                     == set d | d in t && t[d].tenant == f.tenant && t[d].event in events && t[d].status == s
    {
      assert forall d :: d in Having(t, seen, events, s) <==>
        d in t && t[d].tenant == f.tenant && t[d].event in events && t[d].status == s;
    }
  }
}
