/**
 The opaque page cursor: lower-case hex of "<timestamp>|<id>". The text forms of the timestamp and
 of the id belong to libraries and are taken as inverse pairs whose text contains no '|'.
 */
module Cursor {
  import opened Common

  // ---- Hex ----

  function HexDigit(n: int): char
    requires 0 <= n < 16
  {
    if n < 10 then ('0' as int + n) as char else ('a' as int + n - 10) as char
  }

  /** `hex::decode` takes either case. */
  function HexValue(c: char): Option<int> {
    if '0' <= c <= '9' then Some(c as int - '0' as int)
    else if 'a' <= c <= 'f' then Some(c as int - 'a' as int + 10)
    else if 'A' <= c <= 'F' then Some(c as int - 'A' as int + 10)
    else None
  }

  function EncodeHex(b: Text): (s: string)
    ensures |s| == 2 * |b|
    ensures forall c :: c in s ==> '0' <= c <= '9' || 'a' <= c <= 'f'
  {
    if b == [] then "" else [HexDigit(b[0] / 16), HexDigit(b[0] % 16)] + EncodeHex(b[1..])
  }

  function DecodeHex(s: string): Option<Text> {
    if s == "" then Some([])
    else if |s| == 1 then None
    else
      match (HexValue(s[0]), HexValue(s[1]), DecodeHex(s[2..]))
      case (Some(h), Some(l), Some(rest)) =>
        if 0 <= h < 16 && 0 <= l < 16 then Some([16 * h + l] + rest) else None
      case _ => None
  }

  lemma HexDigitRoundTrip(n: int)
    requires 0 <= n < 16
    ensures HexValue(HexDigit(n)) == Some(n)
  {
  }

  lemma PairRoundTrip(x: byte, s: string, rest: Text)
    requires DecodeHex(s) == Some(rest)
    ensures DecodeHex([HexDigit(x / 16), HexDigit(x % 16)] + s) == Some([x] + rest)
  {
    var t := [HexDigit(x / 16), HexDigit(x % 16)] + s;
    HexDigitRoundTrip(x / 16);
    HexDigitRoundTrip(x % 16);
    assert t[2..] == s;
  }

  lemma {:induction false} HexRoundTrip(b: Text)
    ensures DecodeHex(EncodeHex(b)) == Some(b)
  {
    if b != [] {
      HexRoundTrip(b[1..]);
      PairRoundTrip(b[0], EncodeHex(b[1..]), b[1..]);
      assert [b[0]] + b[1..] == b;
    }
  }

  // ---- Splitting at the first bar ----

  const BAR := 0x7C

  function SplitOnce(s: Text): Option<(Text, Text)> {
    if s == [] then None
    else if s[0] == BAR then Some(([], s[1..]))
    else match SplitOnce(s[1..])
         case None => None
         case Some((l, r)) => Some(([s[0]] + l, r))
  }

  lemma {:induction false} SplitAtBar(l: Text, r: Text)
    requires BAR !in l
    ensures SplitOnce(l + [BAR] + r) == Some((l, r))
  {
    var s := l + [BAR] + r;
    if l == [] {
      assert s[1..] == r;
    } else {
      assert l[0] in l;
      SplitAtBar(l[1..], r);
      assert s[1..] == l[1..] + [BAR] + r;
      assert [l[0]] + l[1..] == l;
    }
  }

  // ---- Cursors ----

  datatype Codec = Codec(
    showTime: Time -> Text,
    parseTime: Text -> Option<Time>,
    showId: Id -> Text,
    parseId: Text -> Option<Id>)

  ghost predicate Lawful(c: Codec) {
    && (forall t: Time :: c.parseTime(c.showTime(t)) == Some(t) && BAR !in c.showTime(t))
    && (forall id: Id :: c.parseId(c.showId(id)) == Some(id))
  }

  function EncodeCursor(c: Codec, createdAt: Time, id: Id): string {
    EncodeHex(c.showTime(createdAt) + [BAR] + c.showId(id))
  }

  function DecodeCursor(c: Codec, cursor: string): Option<(Time, Id)> {
    match DecodeHex(cursor)
    case None => None
    case Some(raw) =>
      match SplitOnce(raw)
      case None => None
      case Some((ts, id)) =>
        match (c.parseTime(ts), c.parseId(id))
        case (Some(t), Some(i)) => Some((t, i))
        case _ => None
  }

  lemma CursorRoundTrip(c: Codec, createdAt: Time, id: Id)
    requires Lawful(c)
    ensures DecodeCursor(c, EncodeCursor(c, createdAt, id)) == Some((createdAt, id))
  {
    HexRoundTrip(c.showTime(createdAt) + [BAR] + c.showId(id));
    SplitAtBar(c.showTime(createdAt), c.showId(id));
  }
}
