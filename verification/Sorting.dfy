/** Listing a finite set in the order of a number attached to its members. */
module Sorting {
  import opened Types
  import opened Rules
  import opened Protocol

  predicate IsLeast(ids: set<Id>, rank: map<Id, int>, d: Id) {
    d in ids && d in rank &&
    forall x :: x in ids && x != d ==> x in rank && (rank[d] < rank[x] || (rank[d] == rank[x] && d < x))
  }

  lemma LeastExists(ids: set<Id>, rank: map<Id, int>)
    requires ids != {} && forall d :: d in ids ==> d in rank
    ensures exists d :: IsLeast(ids, rank, d)
  {
    if forall d :: d !in ids {
      assert false;
    }
    var d :| d in ids;
    assert forall x :: x in ids ==> x == d || x in ids - {d};
    if ids - {d} == {} {
      assert IsLeast(ids, rank, d);
    } else {
      LeastExists(ids - {d}, rank);
      var e :| IsLeast(ids - {d}, rank, e);
      assert IsLeast(ids, rank, if rank[e] < rank[d] || (rank[e] == rank[d] && e < d) then e else d);
    }
  }

  function Ascending(ids: set<Id>, rank: map<Id, int>): seq<Id>
    requires forall d :: d in ids ==> d in rank
  {
    if ids == {} then []
    else
      LeastExists(ids, rank);
      var d :| IsLeast(ids, rank, d);
      [d] + Ascending(ids - {d}, rank)
  }

  predicate Rising(list: seq<Id>, rank: map<Id, int>) {
    && (forall i :: 0 <= i < |list| ==> list[i] in rank)
    && (forall i, j :: 0 <= i < j < |list| ==> rank[list[i]] <= rank[list[j]])
  }

  lemma {:induction false} AscendingSorts(ids: set<Id>, rank: map<Id, int>)
    requires forall d :: d in ids ==> d in rank
    ensures var list := Ascending(ids, rank);
            Distinct(list) && Rising(list, rank) && forall d :: d in list <==> d in ids
  {
    if ids != {} {
      LeastExists(ids, rank);
      var d :| IsLeast(ids, rank, d) && Ascending(ids, rank) == [d] + Ascending(ids - {d}, rank);
      AscendingSorts(ids - {d}, rank);
    }
  }

  // ----- the queries' answers -----

  function DueTimes(rows: map<Id, Delivery>, now: Time): map<Id, int> {
    map d | d in rows && Stuck(rows[d], now) :: rows[d].nextRetry.value
  }

  function DueFirst(rows: map<Id, Delivery>, now: Time): seq<Id> {
    var due := DueTimes(rows, now);
    Ascending(due.Keys, due)
  }

  function First(list: seq<Id>, limit: nat): seq<Id> {
    if |list| <= limit then list else list[..limit]
  }

  predicate OldestFirst(rows: map<Id, Delivery>, now: Time, list: seq<Id>) {
    && (forall i :: 0 <= i < |list| ==> list[i] in rows && Stuck(rows[list[i]], now))
    && (forall i, j :: 0 <= i < j < |list| ==> rows[list[i]].nextRetry.value <= rows[list[j]].nextRetry.value)
  }

  lemma DueFirstSorts(rows: map<Id, Delivery>, now: Time)
    ensures var all := DueFirst(rows, now);
            Distinct(all) && OldestFirst(rows, now, all) && forall d :: d in all <==> d in rows && Stuck(rows[d], now)
  {
    var due := DueTimes(rows, now); var all := DueFirst(rows, now);
    AscendingSorts(due.Keys, due);
    forall i | 0 <= i < |all| ensures all[i] in due {
    }
  }

  lemma FirstIsScan(rows: map<Id, Delivery>, now: Time, limit: nat)
    ensures IsScan(rows, now, limit, First(DueFirst(rows, now), limit))
  {
    DueFirstSorts(rows, now);
    FirstScans(rows, now, limit, DueFirst(rows, now));
  }

  lemma FirstScans(rows: map<Id, Delivery>, now: Time, limit: nat, all: seq<Id>)
    requires Distinct(all) && OldestFirst(rows, now, all) && forall d :: d in all <==> d in rows && Stuck(rows[d], now)
    ensures IsScan(rows, now, limit, First(all, limit))
  {
    var picked := First(all, limit);
    assert picked <= all;
    forall i | 0 <= i < |picked| ensures picked[i] == all[i] && all[i] in picked {
      assert picked[i] in picked;
    }
    forall x | x in rows && Stuck(rows[x], now) && x !in picked
      ensures |picked| == limit && forall i :: 0 <= i < |picked| ==>
          rows[picked[i]].nextRetry.value <= rows[x].nextRetry.value
    {
      assert x in all;
      var k :| 0 <= k < |all| && all[k] == x;
    }
  }

  function MatchingEndpoints(endpoints: map<Id, Endpoint>, tenant: Id, kind: string): seq<Id> {
    var any: map<Id, int> := map e | e in endpoints && Matches(endpoints[e], tenant, kind) :: 0;
    Ascending(any.Keys, any)
  }

  lemma MatchingAreMatched(endpoints: map<Id, Endpoint>, tenant: Id, kind: string)
    ensures var list := MatchingEndpoints(endpoints, tenant, kind);
            Distinct(list) && forall e :: e in list <==>
              && e in endpoints && endpoints[e].tenant == tenant && endpoints[e].active
              && kind in endpoints[e].kinds
  {
    var any: map<Id, int> := map e | e in endpoints && Matches(endpoints[e], tenant, kind) :: 0;
    AscendingSorts(any.Keys, any);
  }
}
