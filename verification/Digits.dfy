/** Fixed-width numerals, decimal and hexadecimal. */
module Digits {
  import opened Types

  datatype Base = Decimal | Hex {
    /** `n` without its last digit. */
    function Front(n: nat): nat {
      if Decimal? then n / 10 else n / 16
    }

    function Last(n: nat): (d: nat)
      ensures d < 16
    {
      if Decimal? then n % 10 else n % 16
    }

    /** `n` followed by the digit `d`. */
    function Join(n: nat, d: nat): nat {
      if Decimal? then 10 * n + d else 16 * n + d
    }

    predicate Has(d: nat) {
      if Decimal? then d < 10 else d < 16
    }
  }

  /** How many numbers have `w` digits. */
  function Pow(b: Base, w: nat): nat {
    if w == 0 then 1 else b.Join(Pow(b, w - 1), 0)
  }

  function Symbol(v: nat): char
    requires v < 16
  {
    if v < 10 then ('0' as int + v) as char else ('a' as int + (v - 10)) as char
  }

  /** Both cases of a hexadecimal digit are read. */
  function DigitOf(c: char): Option<nat> {
    if '0' <= c <= '9' then Some(c as int - '0' as int)
    else if 'a' <= c <= 'f' then Some(c as int - 'a' as int + 10)
    else if 'A' <= c <= 'F' then Some(c as int - 'A' as int + 10)
    else None
  }

  /** `n` padded with zeros to `w` digits. */
  function Show(b: Base, n: nat, w: nat): (s: string)
    ensures |s| == w
  {
    if w == 0 then "" else Show(b, b.Front(n), w - 1) + [Symbol(b.Last(n))]
  }

  function Read(b: Base, s: string): Option<nat> {
    if s == "" then Some(0)
    else
      var n :- Read(b, s[..|s| - 1]);
      var d :- DigitOf(s[|s| - 1]);
      if b.Has(d) then Some(b.Join(n, d)) else None
  }

  /** Text of one byte per character. */
  predicate Plain(s: string) {
    forall i :: 0 <= i < |s| ==> s[i] < 128 as char
  }

  lemma ReadLast(b: Base, s: string, n: nat, v: nat)
    requires Read(b, s) == Some(n) && v < 16 && b.Has(v)
    ensures Read(b, s + [Symbol(v)]) == Some(b.Join(n, v))
  {
    assert (s + [Symbol(v)])[..|s|] == s;
  }

  lemma Parts(b: Base, n: nat)
    ensures b.Has(b.Last(n)) && b.Join(b.Front(n), b.Last(n)) == n
  {
  }

  lemma FrontFits(b: Base, n: nat, w: nat)
    requires w > 0 && n < Pow(b, w)
    ensures b.Front(n) < Pow(b, w - 1)
  {
  }

  /** Every number that fits is read back. */
  lemma {:induction false} ReadShow(b: Base, n: nat, w: nat)
    requires n < Pow(b, w)
    ensures Read(b, Show(b, n, w)) == Some(n)
  {
    if w > 0 {
      FrontFits(b, n, w);
      ReadShow(b, b.Front(n), w - 1);
      Parts(b, n);
      ReadLast(b, Show(b, b.Front(n), w - 1), b.Front(n), b.Last(n));
    }
  }

  /** The digit characters. */
  lemma DigitsAre(v: nat)
    requires v < 16
    ensures Symbol(v) == "0123456789abcdef"[v]
  {
  }

  function Power(base: nat, k: nat): (p: nat)
    requires base > 0
    ensures p > 0
  {
    if k == 0 then 1 else base * Power(base, k - 1)
  }

  function Radix(b: Base): (r: nat)
    ensures r > 1
  {
    if b.Decimal? then 10 else 16
  }

  lemma DivideTwice(n: nat, a: nat, b: nat)
    requires a > 0 && b > 0
    ensures a * b > 0 && n / a / b == n / (a * b)
  {
    var q := n / a / b; var r1, r2 := n % a, n / a % b;
    assert n == a * (n / a) + r1 && n / a == b * q + r2;
    assert n == (a * b) * q + (a * r2 + r1) by {
      Regroup(a, b, q, r2, r1);
    }
    BelowProduct(a, b, r1, r2);
    QuotientIs(n, a * b, q, a * r2 + r1);
  }

  lemma Regroup(a: nat, b: nat, q: nat, r2: nat, r1: nat)
    ensures a * (b * q + r2) + r1 == (a * b) * q + (a * r2 + r1)
  {
  }

  lemma BelowProduct(a: nat, b: nat, r1: nat, r2: nat)
    requires r1 < a && r2 < b
    ensures a * r2 + r1 < a * b
  {
    assert a * r2 + a <= a * b by {
      assert a * (r2 + 1) <= a * b;
    }
  }

  lemma QuotientIs(n: nat, d: nat, q: nat, r: nat)
    requires d > 0 && n == d * q + r && r < d
    ensures n / d == q
  {
    var k := n / d;
    assert n == d * k + n % d;
    if k < q {
      Times(d, k + 1, q);
    } else if q < k {
      Times(d, q + 1, k);
    }
  }

  lemma Times(d: nat, x: nat, y: nat)
    requires x <= y
    ensures d * x <= d * y
  {
  }

  /** A numeral, digit by digit: the i-th of `w` stands for its power of ten or of sixteen. */
  lemma {:induction false} ShowDigit(b: Base, n: nat, w: nat, i: nat)
    requires i < w
    ensures var radix := if b.Decimal? then 10 else 16;
            Show(b, n, w)[i] == "0123456789abcdef"[n / Power(radix, w - 1 - i) % radix]
  {
    if i == w - 1 {
      DigitsAre(b.Last(n));
    } else {
      ShowDigit(b, b.Front(n), w - 1, i);
      DivideTwice(n, Radix(b), Power(Radix(b), w - 2 - i));
    }
  }

  lemma {:induction false} ShowIsPlain(b: Base, n: nat, w: nat)
    ensures Plain(Show(b, n, w))
  {
    if w > 0 {
      ShowIsPlain(b, b.Front(n), w - 1);
    }
  }

  lemma {:induction false} ReadBound(b: Base, s: string)
    requires Read(b, s).Some?
    ensures Read(b, s).value < Pow(b, |s|)
  {
    if s != "" {
      ReadBound(b, s[..|s| - 1]);
    }
  }
}
