/** The life of one delivery row: what may happen to it, and what that guarantees. */
module Lifecycle {
  import opened Types
  import opened Rules

  /** `who` is the message whose execution did it, `at` the time. */
  datatype Obs =
    | Took(who: Id, at: Time)
    | Posted(who: Id, at: Time, attempt: nat, request: Webhook)
    | Heard(who: Id, at: Time, answer: Answer)
    | Wrote(who: Id, at: Time, row: Delivery)
    | Undid(who: Id, at: Time, posted: bool)

  datatype Reply = Reply(answer: Answer, at: Time)

  /** Where a row stands: the committed row, who holds it, and how far the open attempt got. */
  datatype Ledger = Ledger(
    row: Delivery, holder: Option<Id>, sent: bool, reply: Option<Reply>, clock: Time,
    fails: seq<Time>)  // recorded times of the committed failures that led to a retry

  function Start(r0: Delivery, t0: Time): Ledger {
    Ledger(r0, None, false, None, t0, [])
  }

  function Advance(l: Ledger, o: Obs): Ledger {
    match o
    case Took(who, at) => l.(holder := Some(who), sent := false, reply := None, clock := at)
    case Posted(_, at, _, _) => l.(sent := true, clock := at)
    case Heard(_, at, a) => l.(reply := Some(Reply(a, at)), clock := at)
    case Wrote(_, at, row) =>
      l.(row := row, holder := None, sent := false, reply := None, clock := at,
         fails := if row.status == Pending && l.reply.Some? then l.fails + [l.reply.value.at] else l.fails)
    case Undid(_, at, _) => l.(holder := None, sent := false, reply := None, clock := at)
  }

  function Read(r0: Delivery, t0: Time, h: seq<Obs>): Ledger {
    if h == [] then Start(r0, t0) else Advance(Read(r0, t0, h[..|h| - 1]), h[|h| - 1])
  }

  predicate LegalNext(delays: seq<nat>, l: Ledger, o: Obs) {
    && l.clock <= o.at
    && match o
       case Took(_, at) => l.holder.None? && Claimable(l.row, l.row.tenant, at)
       case Posted(who, _, k, _) => l.holder == Some(who) && !l.sent && k == l.row.attempts + 1
       case Heard(who, _, _) => l.holder == Some(who) && l.sent && l.reply.None?
       case Wrote(who, _, row) =>
         && l.holder == Some(who)
         && (if l.sent then
               l.reply.Some? && row == Classify(delays, Begin(l.row), l.reply.value.answer, l.reply.value.at)
             else row == GiveUp(l.row))
       case Undid(who, _, posted) => l.holder == Some(who) && posted == l.sent
  }

  predicate Legal(delays: seq<nat>, r0: Delivery, t0: Time, h: seq<Obs>) {
    h == [] ||
    (Legal(delays, r0, t0, h[..|h| - 1]) && LegalNext(delays, Read(r0, t0, h[..|h| - 1]), h[|h| - 1]))
  }

  predicate Fresh(r: Delivery) {
    r.status == Pending && r.attempts == 0 && r.nextRetry.None? && r.code.None?
  }

  lemma Extend(delays: seq<nat>, r0: Delivery, t0: Time, h: seq<Obs>, o: Obs)
    ensures Read(r0, t0, h + [o]) == Advance(Read(r0, t0, h), o)
    ensures Legal(delays, r0, t0, h + [o]) <==>
            Legal(delays, r0, t0, h) && LegalNext(delays, Read(r0, t0, h), o)
  {
    assert (h + [o])[..|h + [o]| - 1] == h;
  }

  // ----- counting -----

  function Posts(h: seq<Obs>): nat {
    if h == [] then 0 else Posts(h[..|h| - 1]) + if h[|h| - 1].Posted? then 1 else 0
  }

  /** POSTs whose transaction was rolled back: the crashes between a POST and its commit. */
  function LostPosts(h: seq<Obs>): nat {
    if h == [] then 0
    else LostPosts(h[..|h| - 1]) + if h[|h| - 1].Undid? && h[|h| - 1].posted then 1 else 0
  }

  function Wins(h: seq<Obs>): nat {
    if h == [] then 0
    else Wins(h[..|h| - 1]) + if h[|h| - 1].Heard? && Accepted(h[|h| - 1].answer) then 1 else 0
  }

  predicate CrashFree(h: seq<Obs>) {
    forall i :: 0 <= i < |h| ==> !h[i].Undid?
  }

  lemma {:induction false} NothingLost(h: seq<Obs>)
    requires CrashFree(h)
    ensures LostPosts(h) == 0
  {
    if h != [] {
      NothingLost(h[..|h| - 1]);
    }
  }

  /** Rows only ever take the shapes of `Shape`; open attempts are consistent with their row. */
  lemma {:induction false} ShapeKept(delays: seq<nat>, r0: Delivery, t0: Time, h: seq<Obs>)
    requires Fresh(r0) && Legal(delays, r0, t0, h)
    ensures var l := Read(r0, t0, h);
            && Shape(delays, l.row)
            && (l.sent || l.reply.Some? ==> l.holder.Some?)
            && (l.reply.Some? ==> l.sent && l.reply.value.at <= l.clock)
            && (l.holder.Some? ==> l.row.status == Pending)
            && (l.row.status != Pending || |l.fails| == l.row.attempts)
  {
    if h != [] {
      ShapeKept(delays, r0, t0, h[..|h| - 1]);
    }
  }

  /** POSTs made = committed attempts + POSTs rolled back + the one still open. */
  lemma {:induction false} PostsAccounted(delays: seq<nat>, r0: Delivery, t0: Time, h: seq<Obs>)
    requires Fresh(r0) && Legal(delays, r0, t0, h)
    ensures var l := Read(r0, t0, h);
            Posts(h) == l.row.attempts + LostPosts(h) + if l.sent then 1 else 0
  {
    if h != [] {
      PostsAccounted(delays, r0, t0, h[..|h| - 1]);
      ShapeKept(delays, r0, t0, h[..|h| - 1]);
    }
  }

  /** Without a crash at most one POST is ever answered 2xx, and then it ends in `success`. */
  lemma {:induction false} WinsOnce(delays: seq<nat>, r0: Delivery, t0: Time, h: seq<Obs>)
    requires Fresh(r0) && Legal(delays, r0, t0, h) && CrashFree(h)
    ensures var l := Read(r0, t0, h);
            Wins(h) == if l.row.status == Success || (l.reply.Some? && Accepted(l.reply.value.answer)) then 1 else 0
  {
    if h != [] {
      WinsOnce(delays, r0, t0, h[..|h| - 1]);
      ShapeKept(delays, r0, t0, h[..|h| - 1]);
    }
  }

  /** With crashes: each accepted POST but the last one was rolled back. */
  lemma {:induction false} WinsBounded(delays: seq<nat>, r0: Delivery, t0: Time, h: seq<Obs>)
    requires Fresh(r0) && Legal(delays, r0, t0, h)
    ensures var l := Read(r0, t0, h); var won := l.reply.Some? && Accepted(l.reply.value.answer);
            Wins(h) <= LostPosts(h) + if l.row.status == Success || won then 1 else 0
  {
    if h != [] {
      WinsBounded(delays, r0, t0, h[..|h| - 1]);
      ShapeKept(delays, r0, t0, h[..|h| - 1]);
    }
  }

  predicate Ends(o: Obs, who: Id) {
    (o.Wrote? || o.Undid?) && o.who == who
  }

  /** Every claim is ended by its own holder, or its holder still has the row. */
  lemma {:induction false} ClaimEnds(delays: seq<nat>, r0: Delivery, t0: Time, h: seq<Obs>, i: nat)
    requires Legal(delays, r0, t0, h) && i < |h| && h[i].Took?
    ensures Read(r0, t0, h).holder == Some(h[i].who) || exists k :: i < k < |h| && Ends(h[k], h[i].who)
  {
    var p := h[..|h| - 1];
    if i < |p| {
      ClaimEnds(delays, r0, t0, p, i);
      if k :| i < k < |p| && Ends(p[k], p[i].who) {
        assert Ends(h[k], h[i].who);
      } else if h[|p|].Wrote? || h[|p|].Undid? {
        assert Ends(h[|p|], h[i].who);
      }
    }
  }

  /** A prefix of a legal history is legal. */
  lemma {:induction false} Prefix(delays: seq<nat>, r0: Delivery, t0: Time, h: seq<Obs>, n: nat)
    requires Legal(delays, r0, t0, h) && n <= |h|
    ensures Legal(delays, r0, t0, h[..n])
    ensures n < |h| ==> LegalNext(delays, Read(r0, t0, h[..n]), h[n])
  {
    if n < |h| {
      var p := h[..|h| - 1];
      if n < |p| {
        assert p[..n] == h[..n];
        Prefix(delays, r0, t0, p, n);
      }
    } else {
      assert h[..n] == h;
    }
  }

  /** Claim-to-commit intervals never overlap: between two claims the first holder has let go. */
  lemma {:induction false} Serialised(delays: seq<nat>, r0: Delivery, t0: Time, h: seq<Obs>, i: nat, j: nat)
    requires Legal(delays, r0, t0, h) && i < j < |h| && h[i].Took? && h[j].Took?
    ensures exists k :: i < k < j && Ends(h[k], h[i].who)
  {
    var p := h[..j];
    Prefix(delays, r0, t0, h, j);
    ClaimEnds(delays, r0, t0, p, i);
    var k :| i < k < |p| && Ends(p[k], p[i].who);
    assert Ends(h[k], h[i].who);
  }

  /** From any point on, the committed row only moves forward, and nothing happens once it is terminal. */
  lemma {:induction false} Forward(delays: seq<nat>, r0: Delivery, t0: Time, h: seq<Obs>, n: nat)
    requires Fresh(r0) && Legal(delays, r0, t0, h) && n <= |h|
    ensures Read(r0, t0, h[..n]).row.attempts <= Read(r0, t0, h).row.attempts
    ensures Read(r0, t0, h[..n]).row.status != Pending ==> n == |h|
    ensures Read(r0, t0, h[..n]).clock <= Read(r0, t0, h).clock
    ensures Read(r0, t0, h[..n]).fails <= Read(r0, t0, h).fails
  {
    if n < |h| {
      var p := h[..|h| - 1];
      assert p[..n] == h[..n];
      Forward(delays, r0, t0, p, n);
      ShapeKept(delays, r0, t0, p);
      assert n == |p| ==> p[..n] == p;
    } else {
      assert h[..n] == h;
    }
  }

  /** No POST, indeed nothing at all, follows a committed terminal status. */
  lemma {:induction false} NothingAfterTerminal(delays: seq<nat>, r0: Delivery, t0: Time, h: seq<Obs>, i: nat)
    requires Fresh(r0) && Legal(delays, r0, t0, h) && i < |h| && h[i].Wrote? && h[i].row.status != Pending
    ensures i == |h| - 1
  {
    assert h[..i + 1][..i] == h[..i];
    Forward(delays, r0, t0, h, i + 1);
  }

  /** Once attempt k is committed, every later POST is a later attempt. */
  lemma NoRepeatAfterCommit(delays: seq<nat>, r0: Delivery, t0: Time, h: seq<Obs>, i: nat, j: nat)
    requires Fresh(r0) && Legal(delays, r0, t0, h) && i < j < |h| && h[i].Wrote? && h[j].Posted?
    ensures h[i].row.attempts < h[j].attempt
  {
    Prefix(delays, r0, t0, h, j);
    assert h[..j][..i + 1] == h[..i + 1] && h[..i + 1][..i] == h[..i];
    Forward(delays, r0, t0, h[..j], i + 1);
  }

  /** From an answer to the end of its attempt nothing but the clock moves. */
  lemma {:induction false} AnswerStands(delays: seq<nat>, r0: Delivery, t0: Time, h: seq<Obs>, i: nat, j: nat)
    requires Legal(delays, r0, t0, h) && i < j <= |h| && h[i].Heard?
    requires forall k :: i < k < j ==> !h[k].Wrote? && !h[k].Undid?
    ensures var l, before := Read(r0, t0, h[..j]), Read(r0, t0, h[..i]);
            && l.row == before.row && l.holder == Some(h[i].who) && l.sent
            && l.reply == Some(Reply(h[i].answer, h[i].at))
  {
    Prefix(delays, r0, t0, h, j - 1);
    assert h[..j][..j - 1] == h[..j - 1];
    if i < j - 1 {
      AnswerStands(delays, r0, t0, h, i, j - 1);
    }
  }

  /** The commit that ends an answered attempt: what it writes, for every answer. */
  lemma AnswerDecides(delays: seq<nat>, r0: Delivery, t0: Time, h: seq<Obs>, i: nat, j: nat)
    requires Legal(delays, r0, t0, h) && i < j < |h| && h[i].Heard? && h[j].Wrote?
    requires forall k :: i < k < j ==> !h[k].Wrote? && !h[k].Undid?
    ensures var before, r := Read(r0, t0, h[..i]).row, h[j].row; var answer := h[i].answer;
            && h[j].who == h[i].who && r.attempts == before.attempts + 1
            && r.event == before.event && r.endpoint == before.endpoint && r.tenant == before.tenant
            && r.created == before.created
            && r.code == (if answer.Response? then Some(answer.code) else None)
            && (r.status == Success <==> answer.Response? && 200 <= answer.code <= 299)
            && (r.status == Pending <==> r.status != Success && before.attempts < |delays|)
            && (r.status == Exhausted <==> r.status != Success && before.attempts >= |delays|)
            && r.nextRetry ==
                 (if r.status == Pending then Some(h[i].at + delays[before.attempts] * 1_000_000) else None)
  {
    Prefix(delays, r0, t0, h, j);
    AnswerStands(delays, r0, t0, h, i, j);
  }

  /** The same for a row that started fresh, by the number of the attempt. */
  lemma AnswerBounds(delays: seq<nat>, r0: Delivery, t0: Time, h: seq<Obs>, i: nat, j: nat)
    requires Fresh(r0) && Legal(delays, r0, t0, h) && i < j < |h| && h[i].Heard? && h[j].Wrote?
    requires forall k :: i < k < j ==> !h[k].Wrote? && !h[k].Undid?
    ensures var heard, r := h[i], h[j].row;
            && h[j].who == heard.who && r.attempts >= 1
            && r.code == (if heard.answer.Response? then Some(heard.answer.code) else None)
            && (r.status == Success <==> heard.answer.Response? && 200 <= heard.answer.code <= 299)
            && (r.status == Pending <==> r.status != Success && r.attempts <= |delays|)
            && (r.status == Exhausted <==> r.status != Success && r.attempts == |delays| + 1)
            && r.nextRetry ==
                 (if r.status == Pending then Some(heard.at + delays[r.attempts - 1] * 1_000_000) else None)
  {
    AnswerDecides(delays, r0, t0, h, i, j);
    Prefix(delays, r0, t0, h, i);
    ShapeKept(delays, r0, t0, h[..i]);
  }

  /** Until its execution posts, a claimed row is only held. */
  lemma {:induction false} ClaimStands(delays: seq<nat>, r0: Delivery, t0: Time, h: seq<Obs>, i: nat, j: nat)
    requires Legal(delays, r0, t0, h) && i < j <= |h| && h[i].Took?
    requires forall k :: i < k < j ==> !h[k].Wrote? && !h[k].Undid? && !h[k].Posted?
    ensures var l, before := Read(r0, t0, h[..j]), Read(r0, t0, h[..i]);
            l.row == before.row && l.holder == Some(h[i].who) && !l.sent
  {
    Prefix(delays, r0, t0, h, j - 1);
    assert h[..j][..j - 1] == h[..j - 1];
    if i < j - 1 {
      ClaimStands(delays, r0, t0, h, i, j - 1);
    }
  }

  /** The commit that ends a claim without a POST: the row is failed and otherwise as it was. */
  lemma GivenUp(delays: seq<nat>, r0: Delivery, t0: Time, h: seq<Obs>, i: nat, j: nat)
    requires Legal(delays, r0, t0, h) && i < j < |h| && h[i].Took? && h[j].Wrote?
    requires forall k :: i < k < j ==> !h[k].Wrote? && !h[k].Undid? && !h[k].Posted?
    ensures var r := Read(r0, t0, h[..i]).row;
            && h[j].who == h[i].who
            && h[j].row == Delivery(r.event, r.endpoint, r.tenant, r.created, Failed, r.attempts, r.nextRetry, r.code)
  {
    Prefix(delays, r0, t0, h, j);
    ClaimStands(delays, r0, t0, h, i, j);
  }

  function Commits(h: seq<Obs>): seq<Delivery> {
    if h == [] then []
    else Commits(h[..|h| - 1]) + if h[|h| - 1].Wrote? then [h[|h| - 1].row] else []
  }

  /**
   The committed attempt numbers are 1, 2, 3, ... in commit order. Only a row given up because its
   endpoint is gone is committed without a new attempt, and that is its last commit.
   */
  lemma {:induction false} AttemptsCount(delays: seq<nat>, r0: Delivery, t0: Time, h: seq<Obs>, j: nat)
    requires Fresh(r0) && Legal(delays, r0, t0, h) && j < |Commits(h)|
    ensures var row := Commits(h)[j];
            if row.status == Failed then row.attempts == j && j == |Commits(h)| - 1
            else row.attempts == j + 1
  {
    var p := h[..|h| - 1];
    ShapeKept(delays, r0, t0, p);
    CommitsSoFar(delays, r0, t0, p);
    if j < |Commits(p)| {
      AttemptsCount(delays, r0, t0, p, j);
    }
  }

  lemma {:induction false} CommitsSoFar(delays: seq<nat>, r0: Delivery, t0: Time, h: seq<Obs>)
    requires Fresh(r0) && Legal(delays, r0, t0, h)
    ensures var l := Read(r0, t0, h);
            && |Commits(h)| == l.row.attempts + (if l.row.status == Failed then 1 else 0)
            && (Commits(h) != [] ==> Commits(h)[|Commits(h)| - 1] == l.row)
  {
    if h != [] {
      CommitsSoFar(delays, r0, t0, h[..|h| - 1]);
      ShapeKept(delays, r0, t0, h[..|h| - 1]);
    }
  }

  // ----- backoff -----

  function Sum(xs: seq<nat>): nat {
    if xs == [] then 0 else Sum(xs[..|xs| - 1]) + xs[|xs| - 1]
  }

  /** After k failures the row is due no earlier than the last failure plus its delay, and than the
      first failure plus the first k delays. */
  lemma {:induction false} DueAfterDelays(delays: seq<nat>, r0: Delivery, t0: Time, h: seq<Obs>)
    requires Fresh(r0) && Legal(delays, r0, t0, h)
    ensures var l := Read(r0, t0, h); var k := l.row.attempts;
            l.row.status == Pending && k > 0 ==>
              && k <= |delays| && |l.fails| == k && l.row.nextRetry.Some?
              && l.row.nextRetry.value == l.fails[k - 1] + delays[k - 1] * SECOND
              && l.row.nextRetry.value >= l.fails[0] + Sum(delays[..k]) * SECOND
              && (l.holder.Some? ==> l.clock >= l.row.nextRetry.value)
  {
    if h != [] {
      var p := h[..|h| - 1];
      ShapeKept(delays, r0, t0, h);
      ShapeKept(delays, r0, t0, p);
      DueAfterDelays(delays, r0, t0, p);
      ReplyAfterDue(delays, r0, t0, p);
      var k := Read(r0, t0, h).row.attempts;
      if 0 < k <= |delays| {
        assert delays[..k][..k - 1] == delays[..k - 1];
      }
    }
  }

  /** The failure times are times at which a refusal was actually heard. */
  lemma {:induction false} FailsWereHeard(delays: seq<nat>, r0: Delivery, t0: Time, h: seq<Obs>)
    requires Fresh(r0) && Legal(delays, r0, t0, h)
    ensures var l := Read(r0, t0, h);
            && (forall n :: 0 <= n < |l.fails| ==> HeardRefusal(h, l.fails[n]))
            && (l.reply.Some? && !Accepted(l.reply.value.answer) ==> HeardRefusal(h, l.reply.value.at))
  {
    if h != [] {
      var p := h[..|h| - 1];
      FailsWereHeard(delays, r0, t0, p);
      ShapeKept(delays, r0, t0, p);
      forall at | HeardRefusal(p, at) ensures HeardRefusal(h, at) {
        var i :| 0 <= i < |p| && p[i].Heard? && p[i].at == at && !Accepted(p[i].answer);
        assert h[i] == p[i];
      }
      assert h[|p|].Heard? && !Accepted(h[|p|].answer) ==> HeardRefusal(h, h[|p|].at);
    }
  }

  predicate HeardRefusal(h: seq<Obs>, at: Time) {
    exists i :: 0 <= i < |h| && h[i].Heard? && h[i].at == at && !Accepted(h[i].answer)
  }

  /** An answer is never recorded before its row was due. */
  lemma {:induction false} ReplyAfterDue(delays: seq<nat>, r0: Delivery, t0: Time, h: seq<Obs>)
    requires Fresh(r0) && Legal(delays, r0, t0, h)
    ensures var l := Read(r0, t0, h);
            && (l.holder.Some? && l.row.nextRetry.Some? ==> l.row.nextRetry.value <= l.clock)
            && (l.reply.Some? && l.row.nextRetry.Some? ==> l.row.nextRetry.value <= l.reply.value.at)
  {
    if h != [] {
      ReplyAfterDue(delays, r0, t0, h[..|h| - 1]);
      ShapeKept(delays, r0, t0, h[..|h| - 1]);
    }
  }

  /** Backoff spacing for any claim in a history. */
  lemma Backoff(delays: seq<nat>, r0: Delivery, t0: Time, h: seq<Obs>, j: nat)
    requires Fresh(r0) && Legal(delays, r0, t0, h) && j < |h| && h[j].Took?
    ensures var l := Read(r0, t0, h[..j]); var k := l.row.attempts;
            k > 0 ==>
              && k <= |delays| && |l.fails| == k
              && h[j].at >= l.fails[k - 1] + delays[k - 1] * SECOND
              && h[j].at >= l.fails[0] + Sum(delays[..k]) * SECOND
  {
    Prefix(delays, r0, t0, h, j);
    DueAfterDelays(delays, r0, t0, h[..j]);
  }
}
