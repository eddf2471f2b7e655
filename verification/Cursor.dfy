/** The opaque cursor of the delivery log: the position as a small JSON object, in URL-safe base64. Texts are
    written as the prefix of what follows them, and read from the front. */
module Cursor {
  import opened Types
  import opened Digits
  import opened P = Paging
  import Base64

  predicate Leap(year: nat) {
    year % 4 == 0 && (year % 100 != 0 || year % 400 == 0)
  }

  function DaysIn(year: nat, month: nat): nat {
    if month == 2 then (if Leap(year) then 29 else 28)
    else if month == 4 || month == 6 || month == 9 || month == 11 then 30
    else 31
  }

  /** What `datetime` can hold. */
  predicate ValidTime(t: DateTime) {
    && 1 <= t.year <= 9999 && 1 <= t.month <= 12 && 1 <= t.day <= DaysIn(t.year, t.month)
    && t.hour < 24 && t.minute < 60 && t.second < 60 && t.micro < 1_000_000
  }

  /** The calendar: the days of the twelve months, and the first and last times there are. */
  lemma CalendarIs(year: nat)
    ensures DaysIn(year, 2) == if year % 4 == 0 && (year % 100 != 0 || year % 400 == 0) then 29 else 28
    ensures DaysIn(year, 1) == DaysIn(year, 3) == DaysIn(year, 5) == DaysIn(year, 7) == DaysIn(year, 8) == 31
    ensures DaysIn(year, 10) == DaysIn(year, 12) == 31
    ensures DaysIn(year, 4) == DaysIn(year, 6) == DaysIn(year, 9) == DaysIn(year, 11) == 30
    ensures ValidTime(DateTime(1, 1, 1, 0, 0, 0, 0)) && ValidTime(DateTime(9999, 12, 31, 23, 59, 59, 999_999))
  {
  }

  /** Ids are 128-bit numbers. */
  predicate ValidKey(k: Key) {
    ValidTime(k.at) && 0 <= k.id < Pow(Hex, 32)
  }

  // ----- pieces of text -----

  function Skip(p: string, s: string): Option<string> {
    if p <= s then Some(s[|p|..]) else None
  }

  function Chunk(n: nat, s: string): Option<(string, string)> {
    if n <= |s| then Some((s[..n], s[n..])) else None
  }

  function Number(w: nat, s: string): Option<(nat, string)> {
    var (digits, rest) :- Chunk(w, s);
    var n :- Read(Decimal, digits);
    Some((n, rest))
  }

  lemma SkipReads(p: string, rest: string)
    ensures Skip(p, p + rest) == Some(rest)
  {
    assert (p + rest)[|p|..] == rest;
  }

  lemma ChunkReads(p: string, rest: string)
    ensures Chunk(|p|, p + rest) == Some((p, rest))
  {
    assert (p + rest)[..|p|] == p && (p + rest)[|p|..] == rest;
  }

  lemma NumberReads(n: nat, w: nat, rest: string)
    requires n < Pow(Decimal, w)
    ensures Number(w, Show(Decimal, n, w) + rest) == Some((n, rest))
  {
    ChunkReads(Show(Decimal, n, w), rest);
    ReadShow(Decimal, n, w);
  }

  lemma Powers()
    ensures Pow(Decimal, 2) == 100 && Pow(Decimal, 4) == 10_000 && Pow(Decimal, 6) == 1_000_000
  {
    assert Pow(Decimal, 1) == 10;
    assert Pow(Decimal, 3) == 1_000;
    assert Pow(Decimal, 5) == 100_000;
  }

  // ----- ISO 8601 -----

  function DateThen(t: DateTime, rest: string): string {
    Show(Decimal, t.year, 4) + ("-" + (Show(Decimal, t.month, 2) + ("-" + (Show(Decimal, t.day, 2) + rest))))
  }

  function FractionThen(micro: nat, rest: string): string {
    if micro == 0 then rest else "." + (Show(Decimal, micro, 6) + rest)
  }

  function ClockThen(t: DateTime, rest: string): string {
    Show(Decimal, t.hour, 2)
      + (":" + (Show(Decimal, t.minute, 2) + (":" + (Show(Decimal, t.second, 2) + FractionThen(t.micro, rest)))))
  }

  /** `isoformat`: the fraction is left out when it is zero. */
  function IsoThen(t: DateTime, rest: string): string {
    DateThen(t, "T" + ClockThen(t, rest))
  }

  function ReadDate(s: string): Option<(nat, nat, nat, string)> {
    var (year, s1) :- Number(4, s);
    var s2 :- Skip("-", s1);
    var (month, s3) :- Number(2, s2);
    var s4 :- Skip("-", s3);
    var (day, s5) :- Number(2, s4);
    Some((year, month, day, s5))
  }

  function ReadFraction(s: string): Option<(nat, string)> {
    if "." <= s then Number(6, s[1..]) else Some((0, s))
  }

  function ReadClock(s: string): Option<(nat, nat, nat, nat, string)> {
    var (hour, s1) :- Number(2, s);
    var s2 :- Skip(":", s1);
    var (minute, s3) :- Number(2, s2);
    var s4 :- Skip(":", s3);
    var (second, s5) :- Number(2, s4);
    var (micro, s6) :- ReadFraction(s5);
    Some((hour, minute, second, micro, s6))
  }

  function ReadIso(s: string): Option<(DateTime, string)> {
    var (year, month, day, s1) :- ReadDate(s);
    var s2 :- Skip("T", s1);
    var (hour, minute, second, micro, s3) :- ReadClock(s2);
    var t := DateTime(year, month, day, hour, minute, second, micro);
    if ValidTime(t) then Some((t, s3)) else None
  }

  lemma DateReads(t: DateTime, rest: string)
    requires ValidTime(t)
    ensures ReadDate(DateThen(t, rest)) == Some((t.year, t.month, t.day, rest))
  {
    Powers();
    var d := Show(Decimal, t.day, 2) + rest;
    var m := Show(Decimal, t.month, 2) + ("-" + d);
    NumberReads(t.year, 4, "-" + m);
    SkipReads("-", m);
    NumberReads(t.month, 2, "-" + d);
    SkipReads("-", d);
    NumberReads(t.day, 2, rest);
  }

  lemma FractionReads(micro: nat, rest: string)
    requires micro < 1_000_000 && !("." <= rest)
    ensures ReadFraction(FractionThen(micro, rest)) == Some((micro, rest))
  {
    Powers();
    if micro > 0 {
      var s := FractionThen(micro, rest);
      SkipReads(".", Show(Decimal, micro, 6) + rest);
      NumberReads(micro, 6, rest);
    }
  }

  lemma ClockReads(t: DateTime, rest: string)
    requires ValidTime(t) && !("." <= rest)
    ensures ReadClock(ClockThen(t, rest)) == Some((t.hour, t.minute, t.second, t.micro, rest))
  {
    Powers();
    var f := FractionThen(t.micro, rest);
    var s := Show(Decimal, t.second, 2) + f;
    var m := Show(Decimal, t.minute, 2) + (":" + s);
    NumberReads(t.hour, 2, ":" + m);
    SkipReads(":", m);
    NumberReads(t.minute, 2, ":" + s);
    SkipReads(":", s);
    NumberReads(t.second, 2, f);
    FractionReads(t.micro, rest);
  }

  lemma IsoReads(t: DateTime, rest: string)
    requires ValidTime(t) && !("." <= rest)
    ensures ReadIso(IsoThen(t, rest)) == Some((t, rest))
  {
    DateReads(t, "T" + ClockThen(t, rest));
    SkipReads("T", ClockThen(t, rest));
    ClockReads(t, rest);
  }

  /** The layout: every part and separator at its place, a six-digit fraction if and only if it is not zero. */
  lemma IsoLayout(t: DateTime)
    ensures var s := IsoThen(t, "");
            && |s| == (if t.micro == 0 then 19 else 26)
            && s[4] == '-' && s[7] == '-' && s[10] == 'T' && s[13] == ':' && s[16] == ':'
                 && (t.micro != 0 ==> s[19] == '.')
            && s[..4] == Show(Decimal, t.year, 4) && s[5..7] == Show(Decimal, t.month, 2)
            && s[8..10] == Show(Decimal, t.day, 2) && s[11..13] == Show(Decimal, t.hour, 2)
            && s[14..16] == Show(Decimal, t.minute, 2) && s[17..19] == Show(Decimal, t.second, 2)
            && (t.micro != 0 ==> s[20..26] == Show(Decimal, t.micro, 6))
  {
    var s := IsoThen(t, ""); var clock := ClockThen(t, "");
    ClockLayout(t);
    DateLayout(t, "T" + clock);
    ClockInside(s, clock);
  }

  /** Where the parts of a clock stand in the text it ends. */
  lemma ClockInside(s: string, clock: string)
    requires 10 <= |s| && s[10..] == "T" + clock && (|clock| == 8 || |clock| == 15)
    ensures |s| == 11 + |clock| && s[10] == 'T' && s[13] == clock[2] && s[16] == clock[5]
    ensures s[11..13] == clock[..2] && s[14..16] == clock[3..5] && s[17..19] == clock[6..8]
    ensures |clock| == 15 ==> s[19] == clock[8] && s[20..26] == clock[9..15]
  {
    assert s == s[..10] + "T" + clock;
  }

  lemma DateLayout(t: DateTime, rest: string)
    ensures var s := DateThen(t, rest);
            && |s| == 10 + |rest| && s[10..] == rest && s[4] == '-' && s[7] == '-'
            && s[..4] == Show(Decimal, t.year, 4) && s[5..7] == Show(Decimal, t.month, 2)
                 && s[8..10] == Show(Decimal, t.day, 2)
  {
  }

  lemma ClockLayout(t: DateTime)
    ensures var s := ClockThen(t, "");
            && |s| == (if t.micro == 0 then 8 else 15)
            && s[2] == ':' && s[5] == ':' && (t.micro != 0 ==> s[8] == '.')
            && s[..2] == Show(Decimal, t.hour, 2) && s[3..5] == Show(Decimal, t.minute, 2)
            && s[6..8] == Show(Decimal, t.second, 2) && (t.micro != 0 ==> s[9..15] == Show(Decimal, t.micro, 6))
  {
  }

  // ----- UUIDs, section 4 of RFC 9562 -----

  function UuidThen(id: nat, rest: string): string {
    var h := Show(Hex, id, 32);
    h[..8] + ("-" + (h[8..12] + ("-" + (h[12..16] + ("-" + (h[16..20] + ("-" + (h[20..] + rest))))))))
  }

  function ReadUuid(s: string): Option<(nat, string)> {
    var (a, s1) :- Chunk(8, s);
    var s2 :- Skip("-", s1);
    var (b, s3) :- Chunk(4, s2);
    var s4 :- Skip("-", s3);
    var (c, s5) :- Chunk(4, s4);
    var s6 :- Skip("-", s5);
    var (d, s7) :- Chunk(4, s6);
    var s8 :- Skip("-", s7);
    var (e, s9) :- Chunk(12, s8);
    var id :- Read(Hex, a + b + c + d + e);
    Some((id, s9))
  }

  lemma Rejoined(h: string)
    requires |h| == 32
    ensures h[..8] + h[8..12] + h[12..16] + h[16..20] + h[20..] == h
  {
  }

  /** The layout: 32 hexadecimal digits in groups of 8, 4, 4, 4 and 12. */
  lemma UuidLayout(id: nat, rest: string)
    ensures var s := UuidThen(id, rest);
            && |s| == 36 + |rest| && s[8] == '-' && s[13] == '-' && s[18] == '-' && s[23] == '-'
            && s[..8] + s[9..13] + s[14..18] + s[19..23] + s[24..36] == Show(Hex, id, 32)
  {
    var h := Show(Hex, id, 32); var s := UuidThen(id, rest);
    assert s[..8] == h[..8] && s[9..13] == h[8..12] && s[14..18] == h[12..16] && s[19..23] == h[16..20]
      && s[24..36] == h[20..];
    Rejoined(h);
  }

  lemma UuidReads(id: nat, rest: string)
    requires id < Pow(Hex, 32)
    ensures ReadUuid(UuidThen(id, rest)) == Some((id, rest))
  {
    var h := Show(Hex, id, 32);
    var s8 := h[20..] + rest;
    var s6 := h[16..20] + ("-" + s8);
    var s4 := h[12..16] + ("-" + s6);
    var s2 := h[8..12] + ("-" + s4);
    ChunkReads(h[..8], "-" + s2);
    SkipReads("-", s2);
    ChunkReads(h[8..12], "-" + s4);
    SkipReads("-", s4);
    ChunkReads(h[12..16], "-" + s6);
    SkipReads("-", s6);
    ChunkReads(h[16..20], "-" + s8);
    SkipReads("-", s8);
    ChunkReads(h[20..], rest);
    Rejoined(h);
    ReadShow(Hex, id, 32);
  }

  // ----- the cursor -----

  const OPEN := "{\"created_at\": \""
  const BETWEEN := "\", \"id\": \""
  const CLOSE := "\"}"

  function Json(k: Key): string
    requires ValidKey(k)
  {
    OPEN + IsoThen(k.at, BETWEEN + UuidThen(k.id, CLOSE))
  }

  lemma IsoSplits(t: DateTime, rest: string)
    ensures IsoThen(t, rest) == IsoThen(t, "") + rest
  {
  }

  lemma UuidSplits(id: nat, rest: string)
    ensures UuidThen(id, rest) == UuidThen(id, "") + rest
  {
  }

  /** The text of a cursor: a JSON object with the creation time and the id, in this order and spelling. */
  lemma JsonLayout(k: Key)
    requires ValidKey(k)
    ensures Json(k) ==
              "{\"created_at\": \"" + IsoThen(k.at, "") + "\", \"id\": \"" + UuidThen(k.id, "") + "\"}"
  {
    UuidSplits(k.id, CLOSE);
    IsoSplits(k.at, BETWEEN + UuidThen(k.id, CLOSE));
  }

  function ReadJson(s: string): (r: Option<Key>)
    ensures r.Some? ==> ValidKey(r.value)
  {
    var s1 :- Skip(OPEN, s);
    var (at, s2) :- ReadIso(s1);
    var s3 :- Skip(BETWEEN, s2);
    var (id, s4) :- ReadUuid(s3);
    UuidBound(s3);
    if s4 == CLOSE then Some(Key(at, id)) else None
  }

  lemma UuidBound(s: string)
    requires ReadUuid(s).Some?
    ensures ReadUuid(s).value.0 < Pow(Hex, 32)
  {
    var digits := s[..8] + s[9..13] + s[14..18] + s[19..23] + s[24..36];
    assert Read(Hex, digits) == Some(ReadUuid(s).value.0) by {
      ReadUuidDigits(s);
    }
    ReadBound(Hex, digits);
  }

  lemma ReadUuidDigits(s: string)
    requires ReadUuid(s).Some?
    ensures |s| >= 36 && Read(Hex, s[..8] + s[9..13] + s[14..18] + s[19..23] + s[24..36]) == Some(ReadUuid(s).value.0)
  {
    var s2 := s[9..];
    var s4 := s2[5..];
    var s6 := s4[5..];
    var s8 := s6[5..];
    assert s[8..][1..] == s2 && s2[4..][1..] == s4 && s4[4..][1..] == s6 && s6[4..][1..] == s8;
    assert s2[..4] == s[9..13] && s4[..4] == s[14..18] && s6[..4] == s[19..23] && s8[..12] == s[24..36];
  }

  lemma JsonReads(k: Key)
    requires ValidKey(k)
    ensures ReadJson(Json(k)) == Some(k)
  {
    var tail := BETWEEN + UuidThen(k.id, CLOSE);
    SkipReads(OPEN, IsoThen(k.at, tail));
    NoFraction(BETWEEN, UuidThen(k.id, CLOSE));
    IsoReads(k.at, tail);
    SkipReads(BETWEEN, UuidThen(k.id, CLOSE));
    UuidReads(k.id, CLOSE);
  }

  lemma NoFraction(p: string, rest: string)
    requires p != "" && p[0] != '.'
    ensures !("." <= p + rest)
  {
    assert (p + rest)[0] == p[0];
  }

  lemma Joined(a: string, b: string)
    requires Plain(a) && Plain(b)
    ensures Plain(a + b)
  {
  }

  lemma UuidIsPlain(id: nat, rest: string)
    requires Plain(rest)
    ensures Plain(UuidThen(id, rest))
  {
    ShowIsPlain(Hex, id, 32);
  }

  lemma NumberIsPlain(n: nat, w: nat, rest: string)
    requires Plain(rest)
    ensures Plain(Show(Decimal, n, w) + rest)
  {
    ShowIsPlain(Decimal, n, w);
  }

  lemma DateIsPlain(t: DateTime, rest: string)
    requires Plain(rest)
    ensures Plain(DateThen(t, rest))
  {
    NumberIsPlain(t.day, 2, rest);
    NumberIsPlain(t.month, 2, "-" + (Show(Decimal, t.day, 2) + rest));
    NumberIsPlain(t.year, 4, "-" + (Show(Decimal, t.month, 2) + ("-" + (Show(Decimal, t.day, 2) + rest))));
  }

  lemma ClockIsPlain(t: DateTime, rest: string)
    requires Plain(rest)
    ensures Plain(ClockThen(t, rest))
  {
    var fraction := FractionThen(t.micro, rest);
    NumberIsPlain(t.micro, 6, rest);
    NumberIsPlain(t.second, 2, fraction);
    NumberIsPlain(t.minute, 2, ":" + (Show(Decimal, t.second, 2) + fraction));
    NumberIsPlain(t.hour, 2, ":" + (Show(Decimal, t.minute, 2) + (":" + (Show(Decimal, t.second, 2) + fraction))));
  }

  lemma IsoIsPlain(t: DateTime, rest: string)
    requires Plain(rest)
    ensures Plain(IsoThen(t, rest))
  {
    ClockIsPlain(t, rest);
    Joined("T", ClockThen(t, rest));
    DateIsPlain(t, "T" + ClockThen(t, rest));
  }

  lemma MarksArePlain()
    ensures Plain(OPEN) && Plain(BETWEEN) && Plain(CLOSE)
  {
  }

  lemma JsonIsPlain(k: Key)
    requires ValidKey(k)
    ensures Plain(Json(k))
  {
    MarksArePlain();
    var uuid := UuidThen(k.id, CLOSE);
    UuidIsPlain(k.id, CLOSE);
    Joined(BETWEEN, uuid);
    IsoIsPlain(k.at, BETWEEN + uuid);
    Joined(OPEN, IsoThen(k.at, BETWEEN + uuid));
  }

  function Bytes(s: string): seq<Base64.Byte>
    requires Plain(s)
  {
    seq(|s|, i requires 0 <= i < |s| => s[i] as int)
  }

  function Chars(bytes: seq<Base64.Byte>): string {
    seq(|bytes|, i requires 0 <= i < |bytes| => bytes[i] as char)
  }

  function EncodeDeliveryCursor(k: Key): string
    requires ValidKey(k)
  {
    JsonIsPlain(k);
    Base64.Encode(Bytes(Json(k)))
  }

  function ReadCursor(text: string): (r: Option<Key>)
    ensures r.Some? ==> ValidKey(r.value)
  {
    var bytes :- Base64.Decode(text);
    ReadJson(Chars(bytes))
  }

  /** No cursor is the start of the log; a text that is not a cursor is the client's error. */
  function DecodeDeliveryCursor(cursor: Option<string>): (r: Result<Option<Key>>)
    ensures cursor.None? <==> r == Ok(None)
    ensures r.Ok? && r.value.Some? ==> ValidKey(r.value.value)
    ensures r.Err? ==> r.error == InvalidCursor
  {
    if cursor.None? then Ok(None)
    else
      var k := ReadCursor(cursor.value);
      if k.Some? then Ok(k) else Err(InvalidCursor)
  }

  /** What is behind an encoded cursor: the bytes of that text, one for each character. */
  lemma CursorHoldsText(k: Key)
    requires ValidKey(k)
    ensures var text := "{\"created_at\": \"" + IsoThen(k.at, "") + "\", \"id\": \"" + UuidThen(k.id, "") + "\"}";
            var bytes := Base64.Decode(EncodeDeliveryCursor(k));
            && bytes.Some? && |bytes.value| == |text|
            && forall i :: 0 <= i < |text| ==> bytes.value[i] == text[i] as int
  {
    JsonLayout(k);
    JsonIsPlain(k);
    Base64.DecodeEncode(Bytes(Json(k)));
  }

  /** Decoding an encoded cursor returns exactly the row's position. */
  lemma CursorRoundTrip(k: Key)
    requires ValidKey(k)
    ensures DecodeDeliveryCursor(Some(EncodeDeliveryCursor(k))) == Ok(Some(k))
  {
    JsonIsPlain(k);
    Base64.DecodeEncode(Bytes(Json(k)));
    assert Chars(Bytes(Json(k))) == Json(k);
    JsonReads(k);
  }

  /** Different positions have different cursors. */
  lemma CursorsDiffer(a: Key, b: Key)
    requires ValidKey(a) && ValidKey(b) && EncodeDeliveryCursor(a) == EncodeDeliveryCursor(b)
    ensures a == b
  {
    CursorRoundTrip(a);
    CursorRoundTrip(b);
  }
}
