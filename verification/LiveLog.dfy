/** Reading the delivery log while the service runs: the table the pages are read from is the live one. */
module LiveLog {
  import opened Types
  import opened Protocol
  import opened Invariant
  import opened Recovery
  import P = Paging

  /** The same delivery, later: only what an attempt writes may differ, and nothing once it is terminal. */
  predicate SameDelivery(r: Delivery, r': Delivery) {
    && r'.created == r.created && r'.tenant == r.tenant && r'.endpoint == r.endpoint && r'.event == r.event
    && (r.status != Pending ==> r' == r)
  }

  ghost predicate Ages(rows: map<Id, Delivery>, rows': map<Id, Delivery>) {
    forall d :: d in rows ==> d in rows' && SameDelivery(rows[d], rows'[d])
  }

  lemma StepAges(c: Config, s: State, step: Step, s': State)
    requires Base(c, s) && Next(c, s, step, s')
    ensures Ages(s.rows, s'.rows)
  {
    forall d | d in s.rows ensures d in s'.rows && SameDelivery(s.rows[d], s'.rows[d]) {
      RowsByStep(c, s, step, s', d);
    }
  }

  lemma {:induction false} RunAges(c: Config, states: seq<State>, steps: seq<Step>, i: nat, j: nat)
    requires Run(c, states, steps) && i <= j <= |steps| && Base(c, states[0])
    ensures Ages(states[i].rows, states[j].rows)
  {
    if i < j {
      RunAges(c, states, steps, i, j - 1);
      BaseAlways(c, states, steps, j - 1);
      StepAges(c, states[j - 1], steps[j - 1], states[j]);
    }
  }

  function Snapshots(states: seq<State>, times: seq<nat>): seq<P.Table>
    requires forall i :: 0 <= i < |times| ==> times[i] < |states|
  {
    seq(|times|, i requires 0 <= i < |times| => states[times[i]].rows)
  }

  /** A reader's pages, each read from the table some time after the previous one. */
  ghost predicate Reading(c: Config, states: seq<State>, steps: seq<Step>, times: seq<nat>,
                          pages: seq<P.Page>, f: P.Filter, limit: nat) {
    && Run(c, states, steps)
    && (forall i :: 0 <= i < |times| ==> times[i] < |states|)
    && (forall i, j :: 0 <= i <= j < |times| ==> times[i] <= times[j])
    && P.ReadFrom(Snapshots(states, times), pages, f, limit)
  }

  lemma SnapshotsEvolve(c: Config, states: seq<State>, steps: seq<Step>, times: seq<nat>, t: Time)
    requires Run(c, states, steps) && states[0] == Init(t)
    requires forall i :: 0 <= i < |times| ==> times[i] < |states|
    requires forall i, j :: 0 <= i <= j < |times| ==> times[i] <= times[j]
    ensures P.Evolving(Snapshots(states, times))
  {
    var tables: seq<P.Table> := Snapshots(states, times);
    forall i, j | 0 <= i <= j < |tables| ensures P.Evolves(tables[i], tables[j]) {
      RunAges(c, states, steps, times[i], times[j]);
    }
  }

  /**
   Whatever the workers, requests and recovery do meanwhile, a finished reading without a status
   filter returns every matching delivery that existed at its first page exactly once; with one for
   a terminal status, every delivery that had it at the first page; with one for `pending`, every
   delivery still pending when the last page is read.
   */
  lemma LiveReading(c: Config, states: seq<State>, steps: seq<Step>, times: seq<nat>, t: Time,
                    pages: seq<P.Page>, f: P.Filter, limit: nat, d: Id)
    requires Reading(c, states, steps, times, pages, f, limit) && states[0] == Init(t)
    requires pages[|pages| - 1].next.None? && P.Selected(states[times[0]].rows, f, d)
    requires f.status == Some(Pending) ==> P.Selected(states[times[|times| - 1]].rows, f, d)
    ensures exists i, m :: P.OnPage(pages, i, m, d) && forall j, n :: P.OnPage(pages, j, n, d) ==> j == i && n == m
  {
    var tables: seq<P.Table> := Snapshots(states, times);
    SnapshotsEvolve(c, states, steps, times, t);
    forall i | 0 <= i < |tables| ensures d in tables[i] && (f.status.Some? ==> tables[i][d].status == f.status.value) {
      StatusStays(c, states, steps, times, t, f, d, i);
    }
    P.EveryRowOnce(tables, pages, f, limit, d);
  }

  lemma StatusStays(c: Config, states: seq<State>, steps: seq<Step>, times: seq<nat>, t: Time, f: P.Filter, d: Id,
                    i: nat)
    requires Run(c, states, steps) && states[0] == Init(t) && i < |times|
    requires forall k :: 0 <= k < |times| ==> times[k] < |states|
    requires forall j, k :: 0 <= j <= k < |times| ==> times[j] <= times[k]
    requires P.Selected(states[times[0]].rows, f, d)
    requires f.status == Some(Pending) ==> P.Selected(states[times[|times| - 1]].rows, f, d)
    ensures d in states[times[i]].rows && (f.status.Some? ==> states[times[i]].rows[d].status == f.status.value)
  {
    var first, here, last := times[0], times[i], times[|times| - 1];
    RunAges(c, states, steps, first, here);
    RunAges(c, states, steps, here, last);
    assert d in states[first].rows && SameDelivery(states[first].rows[d], states[here].rows[d]);
    assert d in states[here].rows && SameDelivery(states[here].rows[d], states[last].rows[d]);
  }
}
