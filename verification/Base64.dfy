/** The URL-safe base64 encoding with padding, section 5 of RFC 4648. */
module Base64 {
  import opened Types

  type Byte = x: int | 0 <= x < 256

  function Symbol(v: int): (c: char)
    requires 0 <= v < 64
    ensures c != '=' && ValueOf(c) == Some(v)
  {
    if v < 26 then ('A' as int + v) as char
    else if v < 52 then ('a' as int + (v - 26)) as char
    else if v < 62 then ('0' as int + (v - 52)) as char
    else if v == 62 then '-' else '_'
  }

  /** The decoder maps the URL-safe symbols to the standard ones, so it reads both alphabets. */
  function ValueOf(c: char): (r: Option<int>)
    ensures r.Some? ==> 0 <= r.value < 64
  {
    if 'A' <= c <= 'Z' then Some(c as int - 'A' as int)
    else if 'a' <= c <= 'z' then Some(c as int - 'a' as int + 26)
    else if '0' <= c <= '9' then Some(c as int - '0' as int + 52)
    else if c == '-' || c == '+' then Some(62)
    else if c == '_' || c == '/' then Some(63)
    else None
  }

  /** The URL-safe alphabet: capitals, small letters, digits, hyphen and underscore, each run in order. */
  lemma AlphabetIs()
    ensures Symbol(0) == 'A' && Symbol(25) == 'Z' && Symbol(26) == 'a' && Symbol(51) == 'z'
    ensures Symbol(52) == '0' && Symbol(61) == '9' && Symbol(62) == '-' && Symbol(63) == '_'
    ensures forall v :: 1 <= v < 62 && v != 26 && v != 52 ==> Symbol(v) as int == Symbol(v - 1) as int + 1
  {
  }

  type Sextet = x: int | 0 <= x < 64

  /** Three bytes as four symbols. */
  function Group(x: Byte, y: Byte, z: Byte): string {
    [Symbol(x / 4), Symbol(x % 4 * 16 + y / 16), Symbol(y % 16 * 4 + z / 64), Symbol(z % 64)]
  }

  lemma SameNumber(x: Byte, y: Byte, z: Byte)
    ensures x * 65_536 + y * 256 + z ==
              x / 4 * 262_144 + (x % 4 * 16 + y / 16) * 4_096 + (y % 16 * 4 + z / 64) * 64 + z % 64
  {
    assert x == 4 * (x / 4) + x % 4 && y == 16 * (y / 16) + y % 16 && z == 64 * (z / 64) + z % 64;
  }

  /** The text is these four digits to the base 64, the most significant one first, and they make up `n`. */
  predicate Spells(text: string, n: int, a: Sextet, b: Sextet, c: Sextet, d: Sextet) {
    text == [Symbol(a), Symbol(b), Symbol(c), Symbol(d)] && n == a * 262_144 + b * 4_096 + c * 64 + d
  }

  /** A group spells its three bytes, taken as one number of 24 bits. */
  lemma GroupSpells(x: Byte, y: Byte, z: Byte) returns (a: Sextet, b: Sextet, c: Sextet, d: Sextet)
    ensures Spells(Group(x, y, z), x * 65_536 + y * 256 + z, a, b, c, d)
  {
    Regroup(x, y, z);
    SameNumber(x, y, z);
    a, b, c, d := x / 4, x % 4 * 16 + y / 16, y % 16 * 4 + z / 64, z % 64;
    DigitsSpell(x, y, z, a, b, c, d);
  }

  lemma DigitsSpell(x: Byte, y: Byte, z: Byte, a: Sextet, b: Sextet, c: Sextet, d: Sextet)
    requires a == x / 4 && b == x % 4 * 16 + y / 16 && c == y % 16 * 4 + z / 64 && d == z % 64
    requires x * 65_536 + y * 256 + z == a * 262_144 + b * 4_096 + c * 64 + d
    ensures Spells(Group(x, y, z), x * 65_536 + y * 256 + z, a, b, c, d)
  {
  }

  function Encode(bytes: seq<Byte>): string {
    if |bytes| == 0 then ""
    else if |bytes| == 1 then Group(bytes[0], 0, 0)[..2] + "=="
    else if |bytes| == 2 then Group(bytes[0], bytes[1], 0)[..3] + "="
    else Group(bytes[0], bytes[1], bytes[2]) + Encode(bytes[3..])
  }

  /** Complete groups of four; padding only in the last one; unused bits are dropped. */
  function Decode(text: string): Option<seq<Byte>> {
    if |text| == 0 then Some([])
    else if |text| < 4 then None
    else
      var a :- ValueOf(text[0]);
      var b :- ValueOf(text[1]);
      if text[2] == '=' then
        if text[3] == '=' && |text| == 4 then Some([a * 4 + b / 16]) else None
      else
        var c :- ValueOf(text[2]);
        if text[3] == '=' then
          if |text| == 4 then Some([a * 4 + b / 16, b % 16 * 16 + c / 4]) else None
        else
          var d :- ValueOf(text[3]);
          var rest :- Decode(text[4..]);
          Some([a * 4 + b / 16, b % 16 * 16 + c / 4, c % 4 * 64 + d] + rest)
  }

  /** The four symbols of a group hold its three bytes. */
  lemma Regroup(x: Byte, y: Byte, z: Byte)
    ensures var a, b, c, d := x / 4, x % 4 * 16 + y / 16, y % 16 * 4 + z / 64, z % 64;
            && 0 <= a < 64 && 0 <= b < 64 && 0 <= c < 64 && 0 <= d < 64
            && a * 4 + b / 16 == x && b % 16 * 16 + c / 4 == y && c % 4 * 64 + d == z
  {
  }

  lemma ReadGroup(a: Sextet, b: Sextet, c: Sextet, d: Sextet, rest: seq<Byte>, text: string)
    requires Decode(text) == Some(rest)
    ensures Decode([Symbol(a), Symbol(b), Symbol(c), Symbol(d)] + text)
            == Some([a * 4 + b / 16, b % 16 * 16 + c / 4, c % 4 * 64 + d] + rest)
  {
    var group := [Symbol(a), Symbol(b), Symbol(c), Symbol(d)];
    assert (group + text)[4..] == text;
  }

  lemma ReadTwo(a: Sextet, b: Sextet, c: Sextet)
    ensures Decode([Symbol(a), Symbol(b), Symbol(c), '=']) == Some([a * 4 + b / 16, b % 16 * 16 + c / 4])
  {
  }

  lemma ReadOne(a: Sextet, b: Sextet)
    ensures Decode([Symbol(a), Symbol(b), '=', '=']) == Some([a * 4 + b / 16])
  {
  }

  lemma GroupReads(x: Byte, y: Byte, z: Byte, rest: seq<Byte>, text: string)
    requires Decode(text) == Some(rest)
    ensures Decode(Group(x, y, z) + text) == Some([x, y, z] + rest)
  {
    Regroup(x, y, z);
    ReadGroup(x / 4, x % 4 * 16 + y / 16, y % 16 * 4 + z / 64, z % 64, rest, text);
  }

  lemma TwoRead(x: Byte, y: Byte)
    ensures Decode(Group(x, y, 0)[..3] + "=") == Some([x, y])
  {
    Regroup(x, y, 0);
    ReadTwo(x / 4, x % 4 * 16 + y / 16, y % 16 * 4);
    assert Group(x, y, 0)[..3] + "=" == [Symbol(x / 4), Symbol(x % 4 * 16 + y / 16), Symbol(y % 16 * 4), '='];
  }

  lemma OneReads(x: Byte)
    ensures Decode(Group(x, 0, 0)[..2] + "==") == Some([x])
  {
    Regroup(x, 0, 0);
    ReadOne(x / 4, x % 4 * 16);
    assert Group(x, 0, 0)[..2] + "==" == [Symbol(x / 4), Symbol(x % 4 * 16), '=', '='];
  }

  /** Every sequence of bytes is read back. */
  lemma {:induction false} DecodeEncode(bytes: seq<Byte>)
    ensures Decode(Encode(bytes)) == Some(bytes)
  {
    if |bytes| == 0 {
    } else if |bytes| == 1 {
      OneReads(bytes[0]);
      assert bytes == [bytes[0]];
    } else if |bytes| == 2 {
      TwoRead(bytes[0], bytes[1]);
      assert bytes == [bytes[0], bytes[1]];
    } else {
      DecodeEncode(bytes[3..]);
      GroupReads(bytes[0], bytes[1], bytes[2], bytes[3..], Encode(bytes[3..]));
      assert bytes == [bytes[0], bytes[1], bytes[2]] + bytes[3..];
    }
  }

  predicate UrlSafe(c: char) {
    'A' <= c <= 'Z' || 'a' <= c <= 'z' || '0' <= c <= '9' || c == '-' || c == '_'
  }

  lemma GroupIsUrlSafe(x: Byte, y: Byte, z: Byte)
    ensures forall c :: c in Group(x, y, z) ==> UrlSafe(c)
  {
    Regroup(x, y, z);
  }

  /** `text` is made of whole groups, of which the last one ends in `pads` padding characters. */
  predicate Grouped(text: string, pads: nat) {
    && |text| % 4 == 0 && pads <= |text|
    && forall i :: 0 <= i < |text| ==> if i < |text| - pads then UrlSafe(text[i]) else text[i] == '='
  }

  lemma GroupFirst(group: string, text: string, pads: nat)
    requires |group| == 4 && (forall c :: c in group ==> UrlSafe(c)) && Grouped(text, pads)
    ensures Grouped(group + text, pads)
  {
  }

  lemma GroupLast(group: string)
    requires |group| == 4 && forall c :: c in group ==> UrlSafe(c)
    ensures Grouped(group[..2] + "==", 2) && Grouped(group[..3] + "=", 1)
  {
    assert forall i :: 0 <= i < 4 ==> group[i] in group;
  }

  function Pads(n: nat): nat {
    if n % 3 == 0 then 0 else 3 - n % 3
  }

  lemma OneLayout(x: Byte)
    ensures Grouped(Group(x, 0, 0)[..2] + "==", 2)
  {
    GroupIsUrlSafe(x, 0, 0);
    GroupLast(Group(x, 0, 0));
  }

  lemma TwoLayout(x: Byte, y: Byte)
    ensures Grouped(Group(x, y, 0)[..3] + "=", 1)
  {
    GroupIsUrlSafe(x, y, 0);
    GroupLast(Group(x, y, 0));
  }

  lemma FullLayout(x: Byte, y: Byte, z: Byte, text: string, pads: nat)
    requires Grouped(text, pads)
    ensures Grouped(Group(x, y, z) + text, pads)
  {
    GroupIsUrlSafe(x, y, z);
    GroupFirst(Group(x, y, z), text, pads);
  }

  lemma PadsRepeat(n: nat)
    requires n >= 3
    ensures Pads(n) == Pads(n - 3)
  {
  }

  lemma LastLayout(bytes: seq<Byte>, text: string)
    requires |bytes| < 3 && text == Encode(bytes)
    ensures Grouped(text, Pads(|bytes|))
  {
    if |bytes| == 1 {
      OneLayout(bytes[0]);
    } else if |bytes| == 2 {
      TwoLayout(bytes[0], bytes[1]);
    }
  }

  lemma {:induction false} TextLayout(bytes: seq<Byte>, text: string)
    requires text == Encode(bytes)
    ensures Grouped(text, Pads(|bytes|))
    decreases |bytes|
  {
    if |bytes| < 3 {
      LastLayout(bytes, text);
    } else {
      var rest := Encode(bytes[3..]);
      TextLayout(bytes[3..], rest);
      PadsRepeat(|bytes|);
      FullLayout(bytes[0], bytes[1], bytes[2], rest, Pads(|bytes|));
      assert text == Group(bytes[0], bytes[1], bytes[2]) + rest;
    }
  }

  /** The layout: groups of four symbols of the URL-safe alphabet, the last one padded. */
  lemma EncodeLayout(bytes: seq<Byte>)
    ensures Grouped(Encode(bytes), Pads(|bytes|))
  {
    TextLayout(bytes, Encode(bytes));
  }
}
