/** The delivery service against the flaky test receiver that answers its POSTs in order. */
module ClosedLoop {
  import opened Types
  import opened Rules
  import opened Lifecycle
  import opened Protocol
  import opened Invariant
  import opened Attempts
  import opened Coverage
  import opened AtMostOnce
  import opened Ownership
  import opened Recovery
  import opened Rest
  import Receiver

  /** Seconds a worker waits for a response. */
  const POST_TIMEOUT := 10.0

  function HeardAs(out: Receiver.Outcome): Answer {
    if out.after < POST_TIMEOUT then Response(out.code) else NoResponse
  }

  /** Every answer heard is the receiver's response to the latest POST, which it serves in order. */
  predicate Loop(c: Receiver.Settings, h: seq<Obs>) {
    h == [] ||
    (var p := h[..|h| - 1];
     Loop(c, p) &&
     (h[|h| - 1].Heard? ==> Posts(p) > 0 && h[|h| - 1].answer == HeardAs(Receiver.Reply(c, Posts(p) - 1))))
  }

  function Failures(n: int): nat {
    if n < 0 then 0 else n
  }

  /** Told to fail `n` times and otherwise to accept, in time. */
  predicate FailsThenAccepts(c: Receiver.Settings, n: int) {
    Receiver.Flaky(c, n) && Ok2xx(c.status) && c.delay < POST_TIMEOUT
  }

  lemma AcceptedFrom(c: Receiver.Settings, n: int, k: nat)
    requires FailsThenAccepts(c, n)
    ensures Accepted(HeardAs(Receiver.Reply(c, k))) <==> k >= Failures(n)
    ensures HeardAs(Receiver.Reply(c, k)) == Response(if k < Failures(n) then 500 else c.status)
  {
    Receiver.FailsFirst(c, n, k);
  }

  /** The code stored with a row by the time it has had all its answers from the receiver. */
  function CodeOf(r: Delivery, c: Receiver.Settings): Option<int> {
    if r.attempts == 0 then None else if r.status == Success then Some(c.status) else Some(500)
  }

  /** A refused attempt used up one of the failures; an accepted one came after all of them. */
  lemma {:induction false} LoopSoFar(delays: seq<nat>, r0: Delivery, t0: Time, h: seq<Obs>, c: Receiver.Settings,
                                     n: int)
    requires Fresh(r0) && Legal(delays, r0, t0, h) && Loop(c, h) && FailsThenAccepts(c, n)
    ensures var l := Read(r0, t0, h); var k := Failures(n);
            && (l.row.status == Pending || l.row.status == Exhausted ==> l.row.attempts <= k)
            && (l.row.status == Exhausted ==> Posts(h) <= k)
            && (l.row.status == Success ==> l.row.attempts <= k + 1 <= Posts(h))
            && (l.reply.Some? ==> (Accepted(l.reply.value.answer) <==> Posts(h) > k))
            && (l.reply.Some? ==> l.reply.value.answer == Response(if Posts(h) > k then c.status else 500))
            && l.row.code == CodeOf(l.row, c)
  {
    if h != [] {
      var p := h[..|h| - 1];
      LoopSoFar(delays, r0, t0, p, c, n);
      ShapeKept(delays, r0, t0, p);
      PostsAccounted(delays, r0, t0, p);
      if h[|p|].Heard? {
        AcceptedFrom(c, n, Posts(p) - 1);
      }
    }
  }

  /**
   Closed loop, crashes allowed: a delivery to a receiver told to fail `n` times is never exhausted
   when n <= len(delays); if it succeeds, then after its first n POSTs and by its attempt n+1; and
   without a crash it succeeds on exactly attempt n+1, or, when n > len(delays), is exhausted.
   */
  lemma EndsAsConfigured(c: Config, s: State, d: Id, settings: Receiver.Settings, n: int)
    requires Reachable(c, s) && d in s.rows && d in s.hist
    requires Loop(settings, s.hist[d]) && FailsThenAccepts(settings, n)
    ensures var r := s.rows[d]; var k := Failures(n);
            && r.code ==
                 (if r.attempts == 0 then None else if r.status == Success then Some(settings.status) else Some(500))
            && (r.status == Success ==> r.attempts <= k + 1 <= Posts(s.hist[d]))
            && (r.status == Exhausted ==> |c.delays| < k)
            && (CrashFree(s.hist[d]) ==>
                  && (r.status == Success ==> k <= |c.delays| && r.attempts == k + 1)
                  && (r.status == Exhausted ==> k > |c.delays| && r.attempts == |c.delays| + 1))
  {
    HistoryIsLegal(c, s, d);
    RowShapes(c, s, d);
    PostAccounting(c, s, d);
    LoopSoFar(c.delays, Origin(s.rows[d]), s.epoch, s.hist[d], settings, n);
    PostsAccounted(c.delays, Origin(s.rows[d]), s.epoch, s.hist[d]);
    ShapeKept(c.delays, Origin(s.rows[d]), s.epoch, s.hist[d]);
    if CrashFree(s.hist[d]) {
      NothingLost(s.hist[d]);
    }
  }

  /**
   Closed loop to the end: where a crash-free run with prompt commits has come to rest, a delivery
   to an endpoint not deleted has succeeded on attempt n+1 if n <= len(delays), else is exhausted.
   */
  lemma SettlesAsConfigured(c: Config, lag: Time, t: Time, states: seq<State>, steps: seq<Step>,
                            d: Id, settings: Receiver.Settings, n: int)
    requires PromptRun(c, lag, states, steps) && CrashFreeRun(c, states, steps) && states[0] == Init(t)
    requires LagBelowDelays(c, lag)
    requires forall m, to :: !CanAct(c, states[|steps|], m, to)
    requires var s := states[|steps|];
             && d in s.rows && d in s.hist && s.rows[d].endpoint in s.endpoints
                  && s.endpoints[s.rows[d].endpoint].active
             && Loop(settings, s.hist[d]) && FailsThenAccepts(settings, n)
    ensures var r := states[|steps|].rows[d]; var k := Failures(n);
            if k <= |c.delays| then r.status == Success && r.attempts == k + 1
            else r.status == Exhausted && r.attempts == |c.delays| + 1
  {
    Settled(c, lag, t, states, steps, d);
    EndsAsConfigured(c, states[|steps|], d, settings, n);
  }

  lemma Settled(c: Config, lag: Time, t: Time, states: seq<State>, steps: seq<Step>, d: Id)
    requires PromptRun(c, lag, states, steps) && CrashFreeRun(c, states, steps) && states[0] == Init(t)
    requires LagBelowDelays(c, lag)
    requires forall m, to :: !CanAct(c, states[|steps|], m, to)
    requires d in states[|steps|].rows && d in states[|steps|].hist
    ensures var s := states[|steps|];
            Reachable(c, s) && CrashFree(s.hist[d]) && s.rows[d].status != Pending && RowOwned(s, s.rows[d])
  {
    assert Owned(c, states[0]);
    AlwaysOwned(c, states, steps, 0, |steps|);
    AlwaysCrashFree(c, states, steps, |steps|, d);
    ReachablePrefix(c, states, steps, t, |steps|);
    assert steps[|steps|..] == [];
    ComesToRest(c, lag, t, states, steps, |steps|);
  }

  /** A receiver that hangs, or sleeps as long as the worker waits, is never delivered to. */
  predicate TooSlow(c: Receiver.Settings) {
    c.hang || c.delay >= POST_TIMEOUT
  }

  lemma {:induction false} SlowStaysSlow(c: Receiver.Settings, k: nat)
    requires TooSlow(c)
    ensures TooSlow(Receiver.Served(c, k))
  {
    if k > 0 {
      SlowStaysSlow(c, k - 1);
    }
  }

  lemma {:induction false} SlowSoFar(delays: seq<nat>, r0: Delivery, t0: Time, h: seq<Obs>, c: Receiver.Settings)
    requires Fresh(r0) && Legal(delays, r0, t0, h) && Loop(c, h) && TooSlow(c)
    ensures var l := Read(r0, t0, h);
            l.row.status != Success && l.row.code.None? && (l.reply.Some? ==> l.reply.value.answer.NoResponse?)
  {
    if h != [] {
      var p := h[..|h| - 1];
      SlowSoFar(delays, r0, t0, p, c);
      ShapeKept(delays, r0, t0, p);
      if h[|p|].Heard? {
        SlowStaysSlow(c, Posts(p) - 1);
      }
    }
  }

  lemma NeverToASlowReceiver(c: Config, s: State, d: Id, settings: Receiver.Settings)
    requires Reachable(c, s) && d in s.rows && d in s.hist && Loop(settings, s.hist[d])
    requires settings.hang || settings.delay >= 10.0
    ensures s.rows[d].status != Success && s.rows[d].code.None?
  {
    HistoryIsLegal(c, s, d);
    SlowSoFar(c.delays, Origin(s.rows[d]), s.epoch, s.hist[d], settings);
  }
}
