/** The delivery log, page by page, against reading and sorting the whole log at once: on a table at rest, and
    on one that other transactions keep changing. */
module Paging {
  import opened Types

  type Table = map<Id, Delivery>

  /** A position in the log: ids break ties between rows created in one transaction. */
  datatype Key = Key(at: DateTime, id: Id)

  /** The `status` and `endpoint_id` query parameters of one tenant's log. */
  datatype Filter = Filter(tenant: Id, status: Option<Status>, endpoint: Option<Id>)

  datatype Page = Page(items: seq<Id>, next: Option<Key>)

  const MAX_LIMIT: nat := 100

  predicate Earlier(a: DateTime, b: DateTime) {
    if a.year != b.year then a.year < b.year
    else if a.month != b.month then a.month < b.month
    else if a.day != b.day then a.day < b.day
    else if a.hour != b.hour then a.hour < b.hour
    else if a.minute != b.minute then a.minute < b.minute
    else if a.second != b.second then a.second < b.second
    else a.micro < b.micro
  }

  predicate Below(a: Key, b: Key) {
    Earlier(a.at, b.at) || (a.at == b.at && a.id < b.id)
  }

  function KeyOf(t: Table, d: Id): Key
    requires d in t
  {
    Key(t[d].created, d)
  }

  predicate Selected(t: Table, f: Filter, d: Id) {
    && d in t && t[d].tenant == f.tenant
    && (f.status.Some? ==> t[d].status == f.status.value)
    && (f.endpoint.Some? ==> t[d].endpoint == f.endpoint.value)
  }

  predicate After(t: Table, cursor: Option<Key>, d: Id)
    requires d in t
  {
    cursor.Some? ==> Below(KeyOf(t, d), cursor.value)
  }

  predicate Left(t: Table, f: Filter, cursor: Option<Key>, d: Id) {
    Selected(t, f, d) && After(t, cursor, d)
  }

  /** What the log still holds for this reader. */
  function Unread(t: Table, f: Filter, cursor: Option<Key>): set<Id> {
    set d | d in t && Left(t, f, cursor, d)
  }

  predicate IsNewest(t: Table, ids: set<Id>, d: Id) {
    d in ids && d in t && forall x :: x in ids && x != d ==> x in t && Below(KeyOf(t, x), KeyOf(t, d))
  }

  lemma NewestExists(t: Table, ids: set<Id>)
    requires ids != {} && forall d :: d in ids ==> d in t
    ensures exists d :: IsNewest(t, ids, d)
  {
    if forall d :: d !in ids {
      assert false;
    }
    var d :| d in ids;
    if ids - {d} == {} {
      assert forall x :: x in ids ==> x == d || x in ids - {d};
      assert IsNewest(t, ids, d);
    } else {
      NewestExists(t, ids - {d});
      var e :| IsNewest(t, ids - {d}, e);
      assert forall x :: x in ids ==> x == d || x in ids - {d};
      assert IsNewest(t, ids, if Below(KeyOf(t, e), KeyOf(t, d)) then d else e);
    }
  }

  /** ORDER BY created_at DESC, id DESC. */
  function NewestFirst(t: Table, ids: set<Id>): seq<Id>
    requires forall d :: d in ids ==> d in t
  {
    if ids == {} then []
    else
      NewestExists(t, ids);
      var d :| IsNewest(t, ids, d);
      [d] + NewestFirst(t, ids - {d})
  }

  predicate Falling(t: Table, list: seq<Id>) {
    && (forall i :: 0 <= i < |list| ==> list[i] in t)
    && (forall i, j :: 0 <= i < j < |list| ==> Below(KeyOf(t, list[j]), KeyOf(t, list[i])))
  }

  lemma {:induction false} NewestFirstIsSorted(t: Table, ids: set<Id>)
    requires forall d :: d in ids ==> d in t
    ensures Falling(t, NewestFirst(t, ids))
    ensures forall d :: d in NewestFirst(t, ids) <==> d in ids
    ensures |NewestFirst(t, ids)| == |ids|
  {
    if ids != {} {
      NewestExists(t, ids);
      var d :| IsNewest(t, ids, d) && NewestFirst(t, ids) == [d] + NewestFirst(t, ids - {d});
      NewestFirstIsSorted(t, ids - {d});
    }
  }

  /** The keyset query with LIMIT `limit`. */
  function Query(t: Table, f: Filter, cursor: Option<Key>, limit: nat): seq<Id> {
    var all := NewestFirst(t, Unread(t, f, cursor));
    if |all| <= limit then all else all[..limit]
  }

  function PageSize(limit: nat): nat {
    if limit <= MAX_LIMIT then limit else MAX_LIMIT
  }

  /** One page: a row more than fits is asked for, to see whether there is a next page. */
  function ListDeliveryLogs(t: Table, f: Filter, cursor: Option<Key>, limit: nat): Page {
    var size := PageSize(limit);
    var rows := Query(t, f, cursor, size + 1);
    var items := if |rows| <= size then rows else rows[..size];
    QueryIsSorted(t, f, cursor, size + 1);
    assert items != [] ==> items[|items| - 1] in rows;
    Page(items, if |rows| > size && items != [] then Some(KeyOf(t, items[|items| - 1])) else None)
  }

  lemma QueryIsSorted(t: Table, f: Filter, cursor: Option<Key>, limit: nat)
    ensures var rows := Query(t, f, cursor, limit);
            && Falling(t, rows) && forall d :: d in rows ==> d in Unread(t, f, cursor)
  {
    NewestFirstIsSorted(t, Unread(t, f, cursor));
    var all := NewestFirst(t, Unread(t, f, cursor));
    assert forall d :: d in all ==> d in Unread(t, f, cursor);
    assert forall i :: 0 <= i < |Query(t, f, cursor, limit)| ==> Query(t, f, cursor, limit)[i] == all[i];
  }

  // ----- on a table at rest -----

  /** There is only one way to sort rows newest first. */
  lemma {:induction false} OneOrder(t: Table, a: seq<Id>, b: seq<Id>)
    requires Falling(t, a) && Falling(t, b) && forall d :: d in a <==> d in b
    ensures a == b
  {
    SameEmptiness(a, b);
    if a != [] {
      HeadIsNewest(t, a, b[0]);
      HeadIsNewest(t, b, a[0]);
      assert a[0] == b[0];
      TailMembers(t, a);
      TailMembers(t, b);
      OneOrder(t, a[1..], b[1..]);
      assert a == [a[0]] + a[1..] && b == [b[0]] + b[1..];
    }
  }

  lemma SameEmptiness(a: seq<Id>, b: seq<Id>)
    requires forall d :: d in a <==> d in b
    ensures |a| == 0 <==> |b| == 0
  {
    if |a| > 0 {
      var x := a[0];
      assert x in a;
    }
    if |b| > 0 {
      var x := b[0];
      assert x in b;
    }
  }

  lemma HeadIsNewest(t: Table, a: seq<Id>, d: Id)
    requires Falling(t, a) && d in a
    ensures a[0] in t && d in t && (d == a[0] || Below(KeyOf(t, d), KeyOf(t, a[0])))
  {
    var i :| 0 <= i < |a| && a[i] == d;
  }

  lemma TailMembers(t: Table, a: seq<Id>)
    requires Falling(t, a) && a != []
    ensures Falling(t, a[1..]) && forall d :: d in a[1..] <==> d in a && d != a[0]
  {
    assert a == [a[0]] + a[1..];
    assert forall i :: 0 <= i < |a[1..]| ==> a[1..][i] == a[i + 1] && a[i + 1] != a[0];
  }

  /** A page is the first rows of the sorted log; it has a successor if and only if rows are left. */
  lemma PageIsPrefix(t: Table, f: Filter, cursor: Option<Key>, limit: nat)
    requires limit >= 1
    ensures var p := ListDeliveryLogs(t, f, cursor, limit); var n := |p.items|;
            var all := NewestFirst(t, Unread(t, f, cursor));
            && p.items <= all && n == (if |all| <= PageSize(limit) then |all| else PageSize(limit))
            && (p.next.Some? <==> n < |all|)
            && (p.next.Some? ==> n > 0 && p.items[n - 1] in t && p.next == Some(KeyOf(t, p.items[n - 1])))
  {
    QueryIsSorted(t, f, cursor, PageSize(limit) + 1);
  }

  /** In a falling list, the first n are exactly those not below the n-th. */
  lemma SplitAt(t: Table, all: seq<Id>, n: nat)
    requires Falling(t, all) && 0 < n <= |all|
    ensures forall d :: d in all ==> (d in all[..n] <==> !Below(KeyOf(t, d), KeyOf(t, all[n - 1])))
    ensures n < |all| ==> all[n] !in all[..n]
  {
    assert forall k :: 0 <= k < n ==> all[..n][k] == all[k];
  }

  /** What a page holds, when it has a successor, and how the cursor parts it from the rest. */
  ghost predicate GoodPage(t: Table, f: Filter, cursor: Option<Key>, limit: nat, p: Page) {
    && Falling(t, p.items) && |p.items| <= PageSize(limit)
    && (forall d :: d in p.items ==> Left(t, f, cursor, d))
    && (p.next.None? ==> forall d :: Left(t, f, cursor, d) ==> d in p.items)
    && (p.next.Some? ==>
          && |p.items| == PageSize(limit) > 0 && p.next.value == KeyOf(t, p.items[|p.items| - 1])
          && (exists d :: Left(t, f, p.next, d))
          && forall d :: Left(t, f, cursor, d) ==> (d in p.items <==> !Below(KeyOf(t, d), p.next.value)))
  }

  lemma PageFacts(t: Table, f: Filter, cursor: Option<Key>, limit: nat)
    requires limit >= 1
    ensures GoodPage(t, f, cursor, limit, ListDeliveryLogs(t, f, cursor, limit))
  {
    NewestFirstIsSorted(t, Unread(t, f, cursor));
    PageIsPrefix(t, f, cursor, limit);
    PrefixIsGood(t, f, cursor, limit, NewestFirst(t, Unread(t, f, cursor)), ListDeliveryLogs(t, f, cursor, limit));
  }

  lemma PrefixIsGood(t: Table, f: Filter, cursor: Option<Key>, limit: nat, all: seq<Id>, p: Page)
    requires limit >= 1 && Falling(t, all) && forall d :: d in all <==> Left(t, f, cursor, d)
    requires p.items <= all && |p.items| == (if |all| <= PageSize(limit) then |all| else PageSize(limit))
    requires p.next.Some? <==> |p.items| < |all|
    requires p.next.Some? ==>
        p.items != [] && p.items[|p.items| - 1] in t && p.next.value == KeyOf(t, p.items[|p.items| - 1])
    ensures GoodPage(t, f, cursor, limit, p)
  {
    var n := |p.items|;
    assert forall i :: 0 <= i < n ==> p.items[i] == all[i] && all[i] in all;
    if p.next.Some? {
      SplitAt(t, all, n);
      assert all[n] in all;
      assert Left(t, f, p.next, all[n]);
    } else {
      assert p.items == all;
    }
  }

  /** A page holds at most what was asked for and at most 100 rows, and is full if there is a next one. */
  lemma PageLimit(t: Table, f: Filter, cursor: Option<Key>, limit: nat)
    requires limit >= 1
    ensures var p := ListDeliveryLogs(t, f, cursor, limit);
            && |p.items| <= limit && |p.items| <= 100
            && (p.next.Some? ==> |p.items| == limit || (limit > 100 && |p.items| == 100))
  {
    PageFacts(t, f, cursor, limit);
  }

  lemma NextShrinks(t: Table, f: Filter, cursor: Option<Key>, limit: nat, p: Page)
    requires limit >= 1 && GoodPage(t, f, cursor, limit, p) && p.next.Some?
    ensures forall d :: Left(t, f, p.next, d) <==> Left(t, f, cursor, d) && d !in p.items
    ensures Unread(t, f, p.next) < Unread(t, f, cursor)
  {
    var last := p.items[|p.items| - 1];
    assert last in p.items && last in Unread(t, f, cursor);
  }

  /** All pages from a cursor on, one after the other. */
  function Walk(t: Table, f: Filter, cursor: Option<Key>, limit: nat): seq<Id>
    requires limit >= 1
    decreases Unread(t, f, cursor)
  {
    var p := ListDeliveryLogs(t, f, cursor, limit);
    if p.next.None? then p.items
    else
      PageFacts(t, f, cursor, limit);
      NextShrinks(t, f, cursor, limit, p);
      p.items + Walk(t, f, p.next, limit)
  }

  lemma {:induction false} WalkSorted(t: Table, f: Filter, cursor: Option<Key>, limit: nat)
    requires limit >= 1
    ensures Falling(t, Walk(t, f, cursor, limit))
    ensures forall d :: d in Walk(t, f, cursor, limit) <==> Left(t, f, cursor, d)
    decreases Unread(t, f, cursor)
  {
    var p := ListDeliveryLogs(t, f, cursor, limit);
    PageFacts(t, f, cursor, limit);
    if p.next.Some? {
      NextShrinks(t, f, cursor, limit, p);
      WalkSorted(t, f, p.next, limit);
      JoinFalling(t, p.items, Walk(t, f, p.next, limit), p.next.value);
    }
  }

  lemma JoinFalling(t: Table, a: seq<Id>, b: seq<Id>, k: Key)
    requires Falling(t, a) && Falling(t, b)
    requires forall d :: d in a ==> !Below(KeyOf(t, d), k)
    requires forall d :: d in b ==> d in t && Below(KeyOf(t, d), k)
    ensures Falling(t, a + b)
  {
    forall i, j | 0 <= i < j < |a + b| ensures Below(KeyOf(t, (a + b)[j]), KeyOf(t, (a + b)[i])) {
      if i < |a| <= j {
        assert (a + b)[i] in a && (a + b)[j] in b;
      }
    }
  }

  /**
   Paging refines the simple list: from the first page until there is no next one, for any page
   limit, the pages one after the other are the selected rows sorted newest first.
   */
  lemma PagingIsSorting(t: Table, f: Filter, limit: nat)
    requires limit >= 1
    ensures Walk(t, f, None, limit) == NewestFirst(t, set d | d in t && Selected(t, f, d))
  {
    var all := set d | d in t && Selected(t, f, d);
    WalkSorted(t, f, None, limit);
    NewestFirstIsSorted(t, all);
    OneOrder(t, Walk(t, f, None, limit), NewestFirst(t, all));
  }

  // ----- while other transactions write -----

  /** Rows are added and change their status; nothing is deleted, moved in time or handed over. */
  ghost predicate Evolves(t: Table, t': Table) {
    forall d :: d in t ==>
      d in t' && t'[d].created == t[d].created && t'[d].tenant == t[d].tenant && t'[d].endpoint == t[d].endpoint
  }

  function CursorOf(pages: seq<Page>, i: nat): Option<Key>
    requires i <= |pages|
  {
    if i == 0 then None else pages[i - 1].next
  }

  ghost predicate Evolving(tables: seq<Table>) {
    forall i, j :: 0 <= i <= j < |tables| ==> Evolves(tables[i], tables[j])
  }

  /** Page i is read from table i, from where the previous page ended. */
  ghost predicate Follows(tables: seq<Table>, pages: seq<Page>, f: Filter, limit: nat, i: nat)
    requires |tables| == |pages| && i < |pages|
  {
    (i > 0 ==> pages[i - 1].next.Some?) && pages[i] == ListDeliveryLogs(tables[i], f, CursorOf(pages, i), limit)
  }

  ghost predicate ReadFrom(tables: seq<Table>, pages: seq<Page>, f: Filter, limit: nat) {
    && |tables| == |pages| && pages != [] && limit >= 1
    && forall i :: 0 <= i < |pages| ==> Follows(tables, pages, f, limit, i)
  }

  ghost predicate Pages(tables: seq<Table>, pages: seq<Page>, f: Filter, limit: nat) {
    Evolving(tables) && ReadFrom(tables, pages, f, limit)
  }

  /** The key of row `d`, which no writer ever changes. */
  function Place(tables: seq<Table>, d: Id): Key {
    if |tables| > 0 && d in tables[|tables| - 1] then KeyOf(tables[|tables| - 1], d)
      else Key(DateTime(0, 0, 0, 0, 0, 0, 0), d)
  }

  predicate Under(k: Key, cursor: Option<Key>) {
    cursor.Some? ==> Below(k, cursor.value)
  }

  /** The pages as bands of keys: each item lies between its page's cursor and the previous one. */
  ghost predicate Bands(tables: seq<Table>, pages: seq<Page>, f: Filter) {
    && |tables| == |pages| && pages != []
    && (forall i :: 0 <= i < |pages| - 1 ==> pages[i].next.Some?)
    && (forall i, d :: 0 <= i < |pages| && d in pages[i].items ==>
          Under(Place(tables, d), CursorOf(pages, i))
            && (pages[i].next.Some? ==> !Under(Place(tables, d), pages[i].next)))
    && (forall i :: 0 <= i < |pages| && pages[i].next.Some? ==> Under(pages[i].next.value, CursorOf(pages, i)))
  }

  /** Every row selected at page i and under its cursor is on the page, or under the next cursor. */
  ghost predicate Passes(tables: seq<Table>, pages: seq<Page>, f: Filter, i: nat, d: Id)
    requires |tables| == |pages| && i < |pages|
  {
    Selected(tables[i], f, d) && Under(Place(tables, d), CursorOf(pages, i)) ==>
      d in pages[i].items || (pages[i].next.Some? && Under(Place(tables, d), pages[i].next))
  }

  lemma PageIsGood(tables: seq<Table>, pages: seq<Page>, f: Filter, limit: nat, i: nat)
    requires Pages(tables, pages, f, limit) && i < |pages|
    ensures i > 0 ==> pages[i - 1].next.Some?
    ensures GoodPage(tables[i], f, CursorOf(pages, i), limit, pages[i])
  {
    assert Follows(tables, pages, f, limit, i);
    PageFacts(tables[i], f, CursorOf(pages, i), limit);
  }

  lemma PlaceIsKey(tables: seq<Table>, i: nat, d: Id)
    requires Evolving(tables)
    requires i < |tables| && d in tables[i]
    ensures Place(tables, d) == KeyOf(tables[i], d)
  {
    assert Evolves(tables[i], tables[|tables| - 1]);
  }

  lemma ItemInBand(tables: seq<Table>, pages: seq<Page>, f: Filter, limit: nat, i: nat, d: Id)
    requires Pages(tables, pages, f, limit) && i < |pages| && d in pages[i].items
    ensures Under(Place(tables, d), CursorOf(pages, i))
        && (pages[i].next.Some? ==> !Under(Place(tables, d), pages[i].next))
  {
    PageIsGood(tables, pages, f, limit, i);
    assert Left(tables[i], f, CursorOf(pages, i), d);
    PlaceIsKey(tables, i, d);
  }

  lemma CursorInBand(tables: seq<Table>, pages: seq<Page>, f: Filter, limit: nat, i: nat)
    requires Pages(tables, pages, f, limit) && i < |pages| && pages[i].next.Some?
    ensures Under(pages[i].next.value, CursorOf(pages, i))
  {
    PageIsGood(tables, pages, f, limit, i);
    var last := pages[i].items[|pages[i].items| - 1];
    assert last in pages[i].items;
    ItemInBand(tables, pages, f, limit, i, last);
    PlaceIsKey(tables, i, last);
  }

  lemma PagesAreBands(tables: seq<Table>, pages: seq<Page>, f: Filter, limit: nat)
    requires Pages(tables, pages, f, limit)
    ensures Bands(tables, pages, f)
  {
    forall i, d | 0 <= i < |pages| && d in pages[i].items
      ensures Under(Place(tables, d), CursorOf(pages, i))
          && (pages[i].next.Some? ==> !Under(Place(tables, d), pages[i].next))
    {
      ItemInBand(tables, pages, f, limit, i, d);
    }
    forall i | 0 <= i < |pages| && pages[i].next.Some? ensures Under(pages[i].next.value, CursorOf(pages, i)) {
      CursorInBand(tables, pages, f, limit, i);
    }
    forall i | 0 <= i < |pages| - 1 ensures pages[i].next.Some? {
      PageIsGood(tables, pages, f, limit, i + 1);
    }
  }

  lemma PagePasses(tables: seq<Table>, pages: seq<Page>, f: Filter, limit: nat, i: nat, d: Id)
    requires Pages(tables, pages, f, limit) && i < |pages|
    ensures Passes(tables, pages, f, i, d)
  {
    PageIsGood(tables, pages, f, limit, i);
    if Selected(tables[i], f, d) {
      PlaceIsKey(tables, i, d);
      assert Under(Place(tables, d), CursorOf(pages, i)) ==> Left(tables[i], f, CursorOf(pages, i), d);
    }
  }

  lemma BelowTransitive(a: Key, b: Key, c: Key)
    requires Below(a, b) && Below(b, c)
    ensures Below(a, c)
  {
  }

  lemma NextCursor(tables: seq<Table>, pages: seq<Page>, f: Filter, j: nat)
    requires Bands(tables, pages, f) && j + 1 < |pages|
    ensures pages[j].next.Some? && (pages[j + 1].next.Some? ==> Below(pages[j + 1].next.value, pages[j].next.value))
    ensures forall d :: d in pages[j + 1].items ==> Below(Place(tables, d), pages[j].next.value)
  {
    assert CursorOf(pages, j + 1) == pages[j].next;
  }

  /** The cursors come one below the other. */
  lemma {:induction false} CursorsFall(tables: seq<Table>, pages: seq<Page>, f: Filter, i: nat, j: nat)
    requires Bands(tables, pages, f) && i < j < |pages| && pages[j].next.Some?
    ensures pages[i].next.Some? && Below(pages[j].next.value, pages[i].next.value)
  {
    NextCursor(tables, pages, f, j - 1);
    if i + 1 < j {
      CursorsFall(tables, pages, f, i, j - 1);
      BelowTransitive(pages[j].next.value, pages[j - 1].next.value, pages[i].next.value);
    }
  }

  /** What comes on a later page is below the cursor of every earlier one. */
  lemma LaterIsBelow(tables: seq<Table>, pages: seq<Page>, f: Filter, i: nat, j: nat, d: Id)
    requires Bands(tables, pages, f) && i < j < |pages| && d in pages[j].items
    ensures pages[i].next.Some? && Below(Place(tables, d), pages[i].next.value)
  {
    NextCursor(tables, pages, f, j - 1);
    if i + 1 < j {
      CursorsFall(tables, pages, f, i, j - 1);
      BelowTransitive(Place(tables, d), pages[j - 1].next.value, pages[i].next.value);
    }
  }

  /** No row comes twice, within a page or on two. */
  lemma NoRowTwice(tables: seq<Table>, pages: seq<Page>, f: Filter, limit: nat, i: nat, m: nat, j: nat, n: nat)
    requires Pages(tables, pages, f, limit) && i < |pages| && m < |pages[i].items| && j < |pages|
    requires n < |pages[j].items|
    requires pages[i].items[m] == pages[j].items[n]
    ensures i == j && m == n
  {
    PagesAreBands(tables, pages, f, limit);
    if i < j {
      OnceOnly(tables, pages, f, i, j, pages[i].items[m]);
    } else if j < i {
      OnceOnly(tables, pages, f, j, i, pages[i].items[m]);
    } else {
      PageIsGood(tables, pages, f, limit, i);
      NoRepeats(tables[i], pages[i].items, m, n);
    }
  }

  lemma NoRepeats(t: Table, list: seq<Id>, m: nat, n: nat)
    requires Falling(t, list) && m < |list| && n < |list| && list[m] == list[n]
    ensures m == n
  {
  }

  lemma OnceOnly(tables: seq<Table>, pages: seq<Page>, f: Filter, i: nat, j: nat, d: Id)
    requires Bands(tables, pages, f) && i < j < |pages|
    ensures !(d in pages[i].items && d in pages[j].items)
  {
    if d in pages[j].items {
      LaterIsBelow(tables, pages, f, i, j, d);
    }
  }

  /** A row selected throughout is on a page already read, or under the cursor. */
  lemma {:induction false} ReadOrUnder(tables: seq<Table>, pages: seq<Page>, f: Filter, d: Id, n: nat)
    requires |tables| == |pages| && n <= |pages|
    requires forall i :: 0 <= i < |pages| ==> Passes(tables, pages, f, i, d) && Selected(tables[i], f, d)
    ensures (exists i :: 0 <= i < n && d in pages[i].items)
            || (Under(Place(tables, d), CursorOf(pages, n)) && (n > 0 ==> pages[n - 1].next.Some?))
  {
    if n > 0 {
      ReadOrUnder(tables, pages, f, d, n - 1);
      assert Passes(tables, pages, f, n - 1, d);
    }
  }

  /**
   Under concurrent writers a finished walk returns every row that is selected throughout, exactly
   once; without a status filter, that is every matching row that existed at the first page.
   */
  lemma EveryRowOnce(tables: seq<Table>, pages: seq<Page>, f: Filter, limit: nat, d: Id)
    requires Pages(tables, pages, f, limit) && pages[|pages| - 1].next.None?
    requires Selected(tables[0], f, d)
    requires f.status.None? || forall i :: 0 <= i < |tables| ==> d in tables[i] && tables[i][d].status == f.status.value
    ensures exists i, m :: OnPage(pages, i, m, d) && forall j, n :: OnPage(pages, j, n, d) ==> j == i && n == m
  {
    var i, m := Somewhere(tables, pages, f, limit, d);
    forall j, n | OnPage(pages, j, n, d) ensures j == i && n == m {
      NoRowTwice(tables, pages, f, limit, i, m, j, n);
    }
  }

  lemma StaysSelected(tables: seq<Table>, f: Filter, d: Id, i: nat)
    requires i < |tables| && Evolves(tables[0], tables[i]) && Selected(tables[0], f, d)
    requires f.status.None? || (d in tables[i] && tables[i][d].status == f.status.value)
    ensures Selected(tables[i], f, d)
  {
  }

  lemma Somewhere(tables: seq<Table>, pages: seq<Page>, f: Filter, limit: nat, d: Id) returns (i: nat, m: nat)
    requires Pages(tables, pages, f, limit) && pages[|pages| - 1].next.None?
    requires Selected(tables[0], f, d)
    requires f.status.None? || forall k :: 0 <= k < |tables| ==> d in tables[k] && tables[k][d].status == f.status.value
    ensures OnPage(pages, i, m, d)
  {
    forall k | 0 <= k < |pages| ensures Passes(tables, pages, f, k, d) && Selected(tables[k], f, d) {
      StaysSelected(tables, f, d, k);
      PagePasses(tables, pages, f, limit, k, d);
    }
    ReadOrUnder(tables, pages, f, d, |pages|);
    i :| 0 <= i < |pages| && d in pages[i].items;
    m :| 0 <= m < |pages[i].items| && pages[i].items[m] == d;
  }

  predicate OnPage(pages: seq<Page>, i: int, m: int, d: Id) {
    0 <= i < |pages| && 0 <= m < |pages[i].items| && pages[i].items[m] == d
  }
}
