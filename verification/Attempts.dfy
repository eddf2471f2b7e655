/** What every run guarantees about the attempts made for one delivery. */
module Attempts {
  import opened Types
  import opened Rules
  import opened Lifecycle
  import opened Protocol
  import opened Invariant

  /** The bridge from the step system to single histories: every row's history is a legal life that
      ends in the committed row, held by whoever locks the row. */
  lemma HistoryIsLegal(c: Config, s: State, d: Id)
    requires Reachable(c, s) && d in s.rows
    ensures d in s.hist && Legal(c.delays, Origin(s.rows[d]), s.epoch, s.hist[d])
    ensures var l := Read(Origin(s.rows[d]), s.epoch, s.hist[d]);
            && l.row == s.rows[d] && l.clock <= s.now
            && l.holder == (if d in s.locks then Some(s.locks[d]) else None)
            && (l.sent <==> exists m :: Holds(s, m, d) && HasPosted(s.msgs[m].phase))
  {
    ReachableBase(c, s);
    assert Lives(c, s, d);
    if d in s.locks {
      assert LockOk(s, d) && Holds(s, s.locks[d], d);
    }
    forall m | Holds(s, m, d) ensures d in s.locks && s.locks[d] == m {
      assert MessageOk(c, s, m);
    }
  }

  lemma LegalLife(c: Config, s: State, d: Id)
    requires Reachable(c, s) && d in s.rows
    ensures d in s.hist && Legal(c.delays, Origin(s.rows[d]), s.epoch, s.hist[d])
  {
    HistoryIsLegal(c, s, d);
  }

  predicate Holds(s: State, m: Id, d: Id) {
    m in s.msgs && s.msgs[m].body.Deliver? && s.msgs[m].body.delivery == d && Holding(s.msgs[m].phase)
  }

  /** A POST for the row went out in a transaction that is still open. */
  ghost predicate PostOpen(s: State, d: Id) {
    exists m :: Holds(s, m, d) && HasPosted(s.msgs[m].phase)
  }

  /** At most one execution works on a row at any time. */
  lemma OneHolder(c: Config, s: State, d: Id, m1: Id, m2: Id)
    requires Reachable(c, s) && Holds(s, m1, d) && Holds(s, m2, d)
    ensures m1 == m2
  {
    ReachableBase(c, s);
    assert MessageOk(c, s, m1) && MessageOk(c, s, m2);
  }

  /**
   POST accounting: the POSTs made for a row are its committed attempts, plus those whose
   transaction was rolled back, plus the one in an open transaction.
   */
  lemma PostAccounting(c: Config, s: State, d: Id)
    requires Reachable(c, s) && d in s.rows
    ensures d in s.hist
    ensures Posts(s.hist[d]) == s.rows[d].attempts + LostPosts(s.hist[d]) + (if PostOpen(s, d) then 1 else 0)
    ensures Posts(s.hist[d]) <= |c.delays| + 1 + LostPosts(s.hist[d])
  {
    HistoryIsLegal(c, s, d);
    PostsAccounted(c.delays, Origin(s.rows[d]), s.epoch, s.hist[d]);
    ShapeKept(c.delays, Origin(s.rows[d]), s.epoch, s.hist[d]);
  }

  /** Row shapes, and with them: recovery selects exactly the due pending rows already attempted. */
  lemma RowShapes(c: Config, s: State, d: Id)
    requires Reachable(c, s) && d in s.rows
    ensures Shape(c.delays, s.rows[d])
    ensures var r := s.rows[d];
            && (r.status == Success <==> r.code.Some? && 200 <= r.code.value <= 299)
            && (r.status == Success ==> 1 <= r.attempts <= |c.delays| + 1 && r.nextRetry.None?)
            && (r.status == Exhausted ==> r.attempts == |c.delays| + 1 && r.nextRetry.None?)
            && (r.status == Pending || r.status == Failed ==>
                  r.attempts <= |c.delays| && (r.nextRetry.None? <==> r.attempts == 0))
    ensures var r := s.rows[d];
            && (Stuck(r, s.now) <==> r.status == Pending && r.attempts > 0 && r.nextRetry.value <= s.now)
            && (Claimable(r, r.tenant, s.now) <==>
                 r.status == Pending && (r.attempts == 0 || r.nextRetry.value <= s.now))
  {
    HistoryIsLegal(c, s, d);
    ShapeKept(c.delays, Origin(s.rows[d]), s.epoch, s.hist[d]);
  }

  /**
   Attempts on one row are serialised, numbered 1, 2, 3, ... as committed, and nothing follows a
   terminal commit; a committed attempt is never posted again.
   */
  lemma AttemptsSerialised(c: Config, s: State, d: Id, i: nat, j: nat)
    requires Reachable(c, s) && d in s.rows && d in s.hist && i < j < |s.hist[d]|
    ensures var h := s.hist[d];
            && (h[i].Took? && h[j].Took? ==> exists k :: i < k < j && Ends(h[k], h[i].who))
            && (h[i].Wrote? ==> h[i].row.status == Pending)
            && (h[i].Wrote? && h[j].Posted? ==> h[i].row.attempts < h[j].attempt)
  {
    LegalLife(c, s, d);
    var r0 := Origin(s.rows[d]); var h := s.hist[d];
    if h[i].Took? && h[j].Took? {
      Serialised(c.delays, r0, s.epoch, h, i, j);
    }
    if h[i].Wrote? {
      if h[i].row.status != Pending {
        NothingAfterTerminal(c.delays, r0, s.epoch, h, i);
      }
      if h[j].Posted? {
        NoRepeatAfterCommit(c.delays, r0, s.epoch, h, i, j);
      }
    }
  }

  /**
   What an answer makes of its row, read off any history: the commit that ends the attempt writes the
   answer's code, `success` exactly for 200 to 299, and else a retry or `exhausted`, by the attempt count.
   */
  lemma AnswerRecorded(c: Config, s: State, d: Id, i: nat, j: nat)
    requires Reachable(c, s) && d in s.rows && d in s.hist && i < j < |s.hist[d]|
    requires s.hist[d][i].Heard? && s.hist[d][j].Wrote?
    requires forall k :: i < k < j ==> !s.hist[d][k].Wrote? && !s.hist[d][k].Undid?
    ensures var heard, r := s.hist[d][i], s.hist[d][j].row;
            && s.hist[d][j].who == heard.who && r.attempts >= 1
            && r.code == (if heard.answer.Response? then Some(heard.answer.code) else None)
            && (r.status == Success <==> heard.answer.Response? && 200 <= heard.answer.code <= 299)
            && (r.status == Pending <==> r.status != Success && r.attempts <= |c.delays|)
            && (r.status == Exhausted <==> r.status != Success && r.attempts == |c.delays| + 1)
            && r.nextRetry ==
                 (if r.status == Pending then Some(heard.at + c.delays[r.attempts - 1] * 1_000_000) else None)
  {
    LegalLife(c, s, d);
    AnswerBounds(c.delays, Origin(s.rows[d]), s.epoch, s.hist[d], i, j);
  }

  lemma AttemptsNumbered(c: Config, s: State, d: Id, j: nat)
    requires Reachable(c, s) && d in s.rows && d in s.hist && j < |Commits(s.hist[d])|
    ensures var row := Commits(s.hist[d])[j];
            if row.status == Failed then row.attempts == j && j == |Commits(s.hist[d])| - 1
            else row.attempts == j + 1
  {
    LegalLife(c, s, d);
    AttemptsCount(c.delays, Origin(s.rows[d]), s.epoch, s.hist[d], j);
  }

  /** The recorded times of the failures committed before position `j` of the row's history. */
  function FailuresBefore(s: State, d: Id, j: nat): seq<Time>
    requires d in s.rows && d in s.hist && j <= |s.hist[d]|
  {
    Read(Origin(s.rows[d]), s.epoch, s.hist[d][..j]).fails
  }

  /**
   Backoff: a claim after k >= 1 committed failures comes at least `delays[k-1]` after the last of
   them and at least the first k delays after the first, whatever messages arrive.
   */
  lemma BackoffSpacing(c: Config, s: State, d: Id, j: nat)
    requires Reachable(c, s) && d in s.rows && d in s.hist && j < |s.hist[d]| && s.hist[d][j].Took?
    ensures var fails := FailuresBefore(s, d, j); var k := |fails|;
            k > 0 ==>
              && k <= |c.delays|
              && (forall n :: 0 <= n < k ==> HeardRefusal(s.hist[d][..j], fails[n]))
              && s.hist[d][j].at >= fails[k - 1] + c.delays[k - 1] * SECOND
              && s.hist[d][j].at >= fails[0] + Sum(c.delays[..k]) * SECOND
  {
    LegalLife(c, s, d);
    var r0 := Origin(s.rows[d]);
    Prefix(c.delays, r0, s.epoch, s.hist[d], j);
    ShapeKept(c.delays, r0, s.epoch, s.hist[d][..j]);
    FailsWereHeard(c.delays, r0, s.epoch, s.hist[d][..j]);
    Backoff(c.delays, r0, s.epoch, s.hist[d], j);
  }
}
