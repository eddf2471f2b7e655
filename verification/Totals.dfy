/** Sums over finite maps. */
module Totals {
  import opened Types
  import opened Protocol

  ghost function Total(m: map<Id, nat>): nat
    decreases |m|
  {
    if m == map[] then 0
    else
      NonEmpty(m);
      var k :| k in m;
      assert |Remove(m, k).Keys| < |m.Keys|;
      m[k] + Total(Remove(m, k))
  }

  lemma NonEmpty(m: map<Id, nat>)
    requires m != map[]
    ensures exists k :: k in m
  {
    if forall k :: k !in m {
      assert false;
    }
  }

  lemma {:induction false} TotalRemove(m: map<Id, nat>, k: Id)
    requires k in m
    ensures Total(m) == m[k] + Total(Remove(m, k))
    decreases |m|
  {
    var x :| x in m && Total(m) == m[x] + Total(Remove(m, x));
    if x != k {
      assert |Remove(m, x).Keys| < |m.Keys| && |Remove(m, k).Keys| < |m.Keys|;
      TotalRemove(Remove(m, x), k);
      TotalRemove(Remove(m, k), x);
      assert Remove(Remove(m, x), k) == Remove(Remove(m, k), x);
    }
  }

  lemma TotalUpdate(m: map<Id, nat>, k: Id, v: nat)
    ensures Total(m[k := v]) == Total(m) - (if k in m then m[k] else 0) + v
  {
    TotalRemove(m[k := v], k);
    if k in m {
      TotalRemove(m, k);
      assert Remove(m[k := v], k) == Remove(m, k);
    } else {
      assert Remove(m[k := v], k) == m;
    }
  }

  /** The total depends only on what each key is worth. */
  lemma {:induction false} TotalSame(m: map<Id, nat>, m': map<Id, nat>)
    requires forall k :: k in m <==> k in m'
    requires forall k :: k in m ==> m[k] == m'[k]
    ensures Total(m) == Total(m')
    decreases |m|
  {
    if m != map[] || m' != map[] {
      if m != map[] { NonEmpty(m); } else { NonEmpty(m'); }
      var k :| k in m;
      TotalRemove(m, k);
      TotalRemove(m', k);
      assert |Remove(m, k).Keys| < |m.Keys|;
      TotalSame(Remove(m, k), Remove(m', k));
    }
  }

  /** `m'` has the keys `xs` on top of those of `m`, each worth `v`. */
  ghost predicate Adds(m: map<Id, nat>, m': map<Id, nat>, xs: seq<Id>, v: nat) {
    && (forall k :: k in xs ==> k !in m)
    && (forall k :: k in m' <==> k in m || k in xs)
    && (forall k :: k in m ==> m'[k] == m[k])
    && (forall k :: k in xs ==> m'[k] == v)
  }

  lemma {:induction false} TotalAdd(m: map<Id, nat>, m': map<Id, nat>, xs: seq<Id>, v: nat)
    requires Distinct(xs) && Adds(m, m', xs, v)
    ensures Total(m') == Total(m) + |xs| * v
    decreases |xs|
  {
    if xs == [] {
      TotalSame(m, m');
    } else {
      AddOne(m, m', xs, v);
      TotalAdd(m, Remove(m', xs[0]), xs[1..], v);
      OneMore(|xs| - 1, v);
    }
  }

  lemma OneMore(n: nat, v: nat)
    ensures (n + 1) * v == n * v + v
  {
  }

  lemma AddOne(m: map<Id, nat>, m': map<Id, nat>, xs: seq<Id>, v: nat)
    requires Distinct(xs) && xs != [] && Adds(m, m', xs, v)
    ensures xs[0] in m' && Total(m') == Total(Remove(m', xs[0])) + v
    ensures Distinct(xs[1..]) && Adds(m, Remove(m', xs[0]), xs[1..], v)
  {
    TotalRemove(m', xs[0]);
    assert xs == [xs[0]] + xs[1..];
    assert xs[0] !in xs[1..];
  }

  /** If no key gains more than `v`, the total gains at most `v` for each of the `n` keys. */
  lemma {:induction false} TotalBound(m: map<Id, nat>, m': map<Id, nat>, v: nat, n: nat)
    requires (forall k :: k in m <==> k in m') && (forall k :: k in m ==> m'[k] <= m[k] + v) && |m| == n
    ensures Total(m') <= Total(m) + n * v
    decreases n
  {
    if n == 0 {
      TotalSame(m, m');
    } else {
      NonEmpty(m);
      var k :| k in m;
      TotalRemove(m, k);
      TotalRemove(m', k);
      assert |Remove(m, k).Keys| == |m.Keys| - 1;
      TotalBound(Remove(m, k), Remove(m', k), v, n - 1);
      OneMore(n - 1, v);
    }
  }
}
