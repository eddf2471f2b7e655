/** The flaky test receiver. Between reading its settings and building its response a request does not yield,
    so interleaved requests are handled one after the other. */
module Receiver {
  import opened Types

  datatype Settings = Settings(status: int, delay: real, failNext: int, failCount: int, hang: bool)

  /** A response and the seconds the receiver sleeps before it is sent. */
  datatype Outcome = Sent(code: int, after: real)

  datatype Update = Update(status: Option<int>, delay: Option<real>, failNext: Option<int>, hang: Option<bool>)

  const DEFAULTS := Settings(200, 0.0, 0, 0, false)
  const MAX_LOG := 500
  const HANG_SECONDS := 60.0

  /** What one request does to the settings, and its response. */
  function Handle(c: Settings): (Settings, Outcome) {
    if c.hang then
      (c, Sent(200, HANG_SECONDS))
    else if c.failNext <= 0 then
      (c, Sent(c.status, c.delay))
    else if c.failCount + 1 <= c.failNext then
      (c.(failCount := c.failCount + 1), Sent(500, c.delay))
    else
      (c.(failNext := 0, failCount := 0), Sent(c.status, c.delay))
  }

  /** The settings after `m` requests. */
  function Served(c: Settings, m: nat): Settings {
    if m == 0 then c else Handle(Served(c, m - 1)).0
  }

  /** The response to request number `k`, counted from 0. */
  function Reply(c: Settings, k: nat): Outcome {
    Handle(Served(c, k)).1
  }

  /** Freshly configured to fail `n` times: no hang, and nothing counted yet. */
  predicate Flaky(c: Settings, n: int) {
    c.failNext == n && c.failCount == 0 && !c.hang
  }

  /** The first n of any number of requests get 500, all later ones the configured status. */
  lemma {:induction false} FailsFirst(c: Settings, n: int, k: nat)
    requires Flaky(c, n)
    ensures Reply(c, k) == Sent(if k < n then 500 else c.status, c.delay)
    ensures Served(c, k) == if k <= n then c.(failCount := k) else if n > 0 then c.(failNext := 0) else c
  {
    if k > 0 {
      FailsFirst(c, n, k - 1);
    }
  }

  /** After the failing streak the receiver has forgotten it: it behaves as if told never to fail. */
  lemma RecoversForGood(c: Settings, n: int, m: nat, k: nat)
    requires Flaky(c, n) && m > n
    ensures Reply(Served(c, m), k) == Sent(c.status, c.delay)
  {
    FailsFirst(c, n, m);
    FailsFirst(Served(c, m), Served(c, m).failNext, k);
  }

  lemma {:induction false} HangsForever(c: Settings, k: nat)
    requires c.hang
    ensures Served(c, k) == c && Reply(c, k) == Sent(200, 60.0)
  {
    if k > 0 {
      HangsForever(c, k - 1);
    }
  }

  function Logged<T>(log: seq<T>, entry: T): seq<T> {
    var longer := [entry] + log;
    if |longer| <= MAX_LOG then longer else longer[..MAX_LOG]
  }

  class WebhookReceiver {
    var status: int
    var delay: real
    var failNext: int
    var failCount: int
    var hang: bool
    var log: seq<(Webhook, int)>  // newest first

    function Current(): Settings
      reads this
    {
      Settings(status, delay, failNext, failCount, hang)
    }

    constructor ()
      ensures Current() == DEFAULTS == Settings(200, 0.0, 0, 0, false) && log == []
    {
      status, delay, failNext, failCount, hang := 200, 0.0, 0, 0, false;
      log := [];
    }

    method AppendLeft(entry: (Webhook, int))
      modifies this`log
      ensures log == Logged(old(log), entry)
      ensures log == if |old(log)| < 500 then [entry] + old(log) else [entry] + old(log)[..499]
    {
      log := [entry] + log;
      if |log| > MAX_LOG {
        log := log[..MAX_LOG];
      }
    }

    method ReceiveWebhook(post: Webhook) returns (out: Outcome)
      modifies this
      ensures (Current(), out) == Handle(old(Current()))
      ensures log == Logged(old(log), (post, out.code))
      ensures log == [(post, out.code)] + if |old(log)| < 500 then old(log) else old(log)[..499]
      ensures old(hang) ==> out == Sent(200, 60.0)
      ensures !old(hang) && old(failNext) > 0 && old(failCount) < old(failNext) ==>
                out == Sent(500, delay) && failCount == old(failCount) + 1 && failNext == old(failNext)
      ensures !old(hang) && (old(failNext) <= 0 || old(failCount) >= old(failNext)) ==> out == Sent(status, delay)
      ensures !old(hang) && old(failCount) >= old(failNext) > 0 ==> failNext == 0 && failCount == 0
      ensures old(hang) || old(failNext) <= 0 ==> failNext == old(failNext) && failCount == old(failCount)
      ensures status == old(status) && delay == old(delay) && hang == old(hang)
    {
      var code := status;
      if hang {
        AppendLeft((post, 200));
        return Sent(200, HANG_SECONDS);
      }
      if failNext > 0 {
        failCount := failCount + 1;
        if failCount <= failNext {
          code := 500;
          AppendLeft((post, code));
          return Sent(code, delay);
        } else {
          failNext := 0;
          failCount := 0;
        }
      }
      AppendLeft((post, code));
      return Sent(code, delay);
    }

    /** New settings; setting a failure count, even the same one, starts a new streak. */
    method UpdateConfig(update: Update) returns (now: Settings)
      modifies this
      ensures now == Current() && log == old(log)
      ensures status == update.status.UnwrapOr(old(status)) && delay == update.delay.UnwrapOr(old(delay))
      ensures hang == update.hang.UnwrapOr(old(hang)) && failNext == update.failNext.UnwrapOr(old(failNext))
      ensures failCount == if update.failNext.Some? then 0 else old(failCount)
      ensures now == Settings(status, delay, failNext, failCount, hang)
      ensures update.failNext.Some? && !hang ==> Flaky(now, update.failNext.value)
    {
      if update.status.Some? {
        status := update.status.value;
      }
      if update.delay.Some? {
        delay := update.delay.value;
      }
      if update.failNext.Some? {
        failNext := update.failNext.value;
        failCount := 0;
      }
      if update.hang.Some? {
        hang := update.hang.value;
      }
      now := Current();
    }

    method ResetConfig() returns (now: Settings)
      modifies this
      ensures now == Current() == DEFAULTS && log == old(log)
      ensures status == 200 && delay == 0.0 && failNext == 0 && failCount == 0 && !hang
    {
      status, delay, failNext, hang, failCount := 200, 0.0, 0, false, 0;
      now := Current();
    }
  }
}
