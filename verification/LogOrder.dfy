/** The delivery log in plain terms: which rows a page holds, and that newer rows come first. */
module LogOrder {
  import opened Types
  import opened Paging

  /** A row created at `a` with id `i` comes before one created at `b` with id `j`: later,
    or as late with a larger id. */
  predicate Newer(a: DateTime, i: Id, b: DateTime, j: Id) {
    a.year > b.year || (a.year == b.year &&
    (a.month > b.month || (a.month == b.month &&
    (a.day > b.day || (a.day == b.day &&
    (a.hour > b.hour || (a.hour == b.hour &&
    (a.minute > b.minute || (a.minute == b.minute &&
    (a.second > b.second || (a.second == b.second &&
    (a.micro > b.micro || (a.micro == b.micro && i > j)))))))))))))
  }

  /** A number that grows with the calendar time, every month counted as 31 days. */
  function Ticks(t: DateTime): int {
    t.micro + 1_000_000 * (t.second + 60 * (t.minute + 60 * (t.hour + 24 * (t.day + 31 * (t.month + 12 * t.year)))))
  }

  predicate OnTheClock(t: DateTime) {
    1 <= t.month <= 12 && 1 <= t.day <= 31 && t.hour < 24 && t.minute < 60 && t.second < 60 && t.micro < 1_000_000
  }

  /** For times a clock can show, newer means later, and ids decide only between equal times. */
  lemma NewerIsLater(a: DateTime, i: Id, b: DateTime, j: Id)
    requires OnTheClock(a) && OnTheClock(b)
    ensures Newer(a, i, b, j) <==> Ticks(a) > Ticks(b) || (Ticks(a) == Ticks(b) && i > j)
  {
    var h1, h2 := a.day + 31 * (a.month + 12 * a.year), b.day + 31 * (b.month + 12 * b.year);
    var m1, m2 := a.hour + 24 * h1, b.hour + 24 * h2;
    var s1, s2 := a.minute + 60 * m1, b.minute + 60 * m2;
    var u1, u2 := a.second + 60 * s1, b.second + 60 * s2;
    assert Ticks(a) == a.micro + 1_000_000 * u1 && Ticks(b) == b.micro + 1_000_000 * u2;
  }

  /** The key order of the queries is that one, read from the other end. */
  lemma BelowIsOlder(a: Key, b: Key)
    ensures Below(a, b) <==> Newer(b.at, b.id, a.at, a.id)
  {
  }

  /** The list runs from newer to older. */
  predicate Descends(t: Table, list: seq<Id>) {
    && (forall i :: 0 <= i < |list| ==> list[i] in t)
    && (forall i, j :: 0 <= i < j < |list| ==> Newer(t[list[i]].created, list[i], t[list[j]].created, list[j]))
  }

  /** The row is the tenant's, and has the status and the endpoint asked for, where one was asked for. */
  predicate Wanted(t: Table, f: Filter, d: Id) {
    && d in t && t[d].tenant == f.tenant
    && (f.status.None? || f.status == Some(t[d].status)) && (f.endpoint.None? || f.endpoint == Some(t[d].endpoint))
  }

  /** A wanted row older than the cursor, if there is one. */
  predicate Older(t: Table, f: Filter, cursor: Option<Key>, d: Id) {
    Wanted(t, f, d) && (cursor.None? || Newer(cursor.value.at, cursor.value.id, t[d].created, d))
  }

  lemma FallingDescends(t: Table, list: seq<Id>)
    requires Falling(t, list)
    ensures Descends(t, list)
  {
    forall i, j | 0 <= i < j < |list| ensures Newer(t[list[i]].created, list[i], t[list[j]].created, list[j]) {
      BelowIsOlder(KeyOf(t, list[j]), KeyOf(t, list[i]));
    }
  }

  lemma LeftIsOlder(t: Table, f: Filter, cursor: Option<Key>, d: Id)
    ensures Left(t, f, cursor, d) <==> Older(t, f, cursor, d)
  {
    if d in t && cursor.Some? {
      BelowIsOlder(KeyOf(t, d), cursor.value);
    }
  }

  /** Sorting puts newer rows first, and on equal times larger ids. */
  lemma SortingDescends(t: Table, ids: set<Id>)
    requires forall d :: d in ids ==> d in t
    ensures Descends(t, NewestFirst(t, ids)) && forall d :: d in NewestFirst(t, ids) <==> d in ids
  {
    NewestFirstIsSorted(t, ids);
    FallingDescends(t, NewestFirst(t, ids));
  }

  /** The whole log: exactly the wanted rows, newer ones first, for every page limit. */
  lemma LogDescends(t: Table, f: Filter, limit: nat)
    requires limit >= 1
    ensures var log := Walk(t, f, None, limit); Descends(t, log) && forall d :: d in log <==> Wanted(t, f, d)
  {
    WalkSorted(t, f, None, limit);
    FallingDescends(t, Walk(t, f, None, limit));
    forall d ensures d in Walk(t, f, None, limit) <==> Wanted(t, f, d) {
      LeftIsOlder(t, f, None, d);
    }
  }

  /**
   What a page is: the newest wanted rows older than the cursor, newer ones first, as many as were asked
   for and at most 100; with a cursor for the next page, which is its last row's, exactly if rows are left.
   */
  lemma PageHoldsNewest(t: Table, f: Filter, cursor: Option<Key>, limit: nat)
    requires limit >= 1
    ensures var p := ListDeliveryLogs(t, f, cursor, limit); var n := |p.items|;
            && Descends(t, p.items) && n <= limit && n <= 100
            && (forall d :: d in p.items ==> Older(t, f, cursor, d))
            && (forall d, i :: Older(t, f, cursor, d) && d !in p.items && 0 <= i < n ==>
                  Newer(t[p.items[i]].created, p.items[i], t[d].created, d))
            && ((exists d :: Older(t, f, cursor, d) && d !in p.items) <==> p.next.Some?)
            && (p.next.Some? ==>
                  (n == limit || n == 100) && p.next == Some(Key(t[p.items[n - 1]].created, p.items[n - 1])))
  {
    var p := ListDeliveryLogs(t, f, cursor, limit);
    PageFacts(t, f, cursor, limit);
    PageIsPrefix(t, f, cursor, limit);
    FallingDescends(t, p.items);
    forall d ensures Left(t, f, cursor, d) <==> Older(t, f, cursor, d) {
      LeftIsOlder(t, f, cursor, d);
    }
    forall d, i | Older(t, f, cursor, d) && d !in p.items && 0 <= i < |p.items|
      ensures Newer(t[p.items[i]].created, p.items[i], t[d].created, d)
    {
      RestIsOlder(t, f, cursor, limit, d, i);
    }
    if p.next.Some? {
      LeftOver(t, f, cursor, limit, p);
    }
  }

  lemma RestIsOlder(t: Table, f: Filter, cursor: Option<Key>, limit: nat, d: Id, i: nat)
    requires limit >= 1
    requires var p := ListDeliveryLogs(t, f, cursor, limit); Left(t, f, cursor, d) && d !in p.items && i < |p.items|
    ensures var x := ListDeliveryLogs(t, f, cursor, limit).items[i];
            x in t && Newer(t[x].created, x, t[d].created, d)
  {
    var p := ListDeliveryLogs(t, f, cursor, limit); var last := p.items[|p.items| - 1];
    PageFacts(t, f, cursor, limit);
    BelowIsOlder(KeyOf(t, d), KeyOf(t, last));
    if i < |p.items| - 1 {
      BelowTransitive(KeyOf(t, d), KeyOf(t, last), KeyOf(t, p.items[i]));
    }
    BelowIsOlder(KeyOf(t, d), KeyOf(t, p.items[i]));
  }

  lemma LeftOver(t: Table, f: Filter, cursor: Option<Key>, limit: nat, p: Page)
    requires limit >= 1 && GoodPage(t, f, cursor, limit, p) && p.next.Some?
    requires forall d :: Left(t, f, cursor, d) <==> Older(t, f, cursor, d)
    ensures exists d :: Older(t, f, cursor, d) && d !in p.items
  {
    NextShrinks(t, f, cursor, limit, p);
    var d :| Left(t, f, p.next, d);
    assert Older(t, f, cursor, d) && d !in p.items;
  }

  /** Every row of the next page, whatever was written in between, is older than the last row of this one. */
  lemma NextPageIsOlder(t: Table, t': Table, f: Filter, cursor: Option<Key>, limit: nat, limit': nat, d: Id)
    requires limit >= 1 && limit' >= 1 && ListDeliveryLogs(t, f, cursor, limit).next.Some?
    requires d in ListDeliveryLogs(t', f, ListDeliveryLogs(t, f, cursor, limit).next, limit').items
    ensures var items := ListDeliveryLogs(t, f, cursor, limit).items;
            items != [] && var last := items[|items| - 1];
            last in t && Wanted(t', f, d) && Newer(t[last].created, last, t'[d].created, d)
  {
    PageHoldsNewest(t, f, cursor, limit);
    PageHoldsNewest(t', f, ListDeliveryLogs(t, f, cursor, limit).next, limit');
  }
}
