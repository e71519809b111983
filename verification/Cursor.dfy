/** Continuation cursors: a JSON payload in unpadded base64url (sections 3.2 and 5 of RFC 4648).
    JSON writing and reading are a codec whose round trip is assumed; a digest is taken to be
    injective, so it is its preimage. */
module Cursor {
  import opened Prelude

  type Byte = b: int | 0 <= b < 256
  type Sextet = v: int | 0 <= v < 64

  // ---------------------------------------------------------------- base64url

  function CharOf(v: Sextet): char {
    if v < 26 then 'A' + (v as char)
    else if v < 52 then 'a' + ((v - 26) as char)
    else if v < 62 then '0' + ((v - 52) as char)
    else if v == 62 then '-' else '_'
  }

  /** The decoder also reads the characters of the standard alphabet. */
  function ValueOf(c: char): Option<Sextet> {
    if 'A' <= c <= 'Z' then Some((c - 'A') as int)
    else if 'a' <= c <= 'z' then Some((c - 'a') as int + 26)
    else if '0' <= c <= '9' then Some((c - '0') as int + 52)
    else if c == '-' || c == '+' then Some(62)
    else if c == '_' || c == '/' then Some(63)
    else None
  }

  lemma CharsInvert(v: Sextet)
    ensures ValueOf(CharOf(v)) == Some(v) && CharOf(v) != '='
  {
  }

  function Sextets(a: Byte, b: Byte, c: Byte): (Sextet, Sextet, Sextet, Sextet) {
    (a / 4, (a % 4) * 16 + b / 16, (b % 16) * 4 + c / 64, c % 64)
  }

  function Octets(v0: Sextet, v1: Sextet, v2: Sextet, v3: Sextet): (Byte, Byte, Byte) {
    (v0 * 4 + v1 / 16, (v1 % 16) * 16 + v2 / 4, (v2 % 4) * 64 + v3)
  }

  lemma OctetsInvert(a: Byte, b: Byte, c: Byte)
    ensures var v := Sextets(a, b, c); Octets(v.0, v.1, v.2, v.3) == (a, b, c)
  {
    var v := Sextets(a, b, c);
    Joins(a % 4, b / 16, 16);
    Joins(b % 16, c / 64, 4);
    assert v.0 * 4 + a % 4 == a && v.3 == c % 64;
  }

  /** Two digits written side by side can be taken apart again. */
  lemma Joins(hi: nat, lo: nat, radix: nat)
    requires lo < radix && (radix == 16 || radix == 4)
    ensures (hi * radix + lo) / radix == hi && (hi * radix + lo) % radix == lo
  {
  }

  function Encode(bs: seq<Byte>): string {
    if bs == [] then ""
    else if |bs| == 1 then
      var v := Sextets(bs[0], 0, 0);
      [CharOf(v.0), CharOf(v.1)]
    else if |bs| == 2 then
      var v := Sextets(bs[0], bs[1], 0);
      [CharOf(v.0), CharOf(v.1), CharOf(v.2)]
    else
      var v := Sextets(bs[0], bs[1], bs[2]);
      [CharOf(v.0), CharOf(v.1), CharOf(v.2), CharOf(v.3)] + Encode(bs[3..])
  }

  /** Strict decoding of padded text: whole groups, padding only at the very end. */
  function DecodePadded(s: string): Option<seq<Byte>> {
    if s == "" then Some([])
    else if |s| < 4 then None
    else
      var v0, v1, v2, v3 := ValueOf(s[0]), ValueOf(s[1]), ValueOf(s[2]), ValueOf(s[3]);
      if v0.None? || v1.None? then None
      else if |s| == 4 && s[2] == '=' && s[3] == '=' then Some([Octets(v0.value, v1.value, 0, 0).0])
      else if v2.None? then None
      else if |s| == 4 && s[3] == '=' then
        var o := Octets(v0.value, v1.value, v2.value, 0);
        Some([o.0, o.1])
      else if v3.None? then None
      else
        var o := Octets(v0.value, v1.value, v2.value, v3.value);
        var rest := DecodePadded(s[4..]);
        if rest.None? then None else Some([o.0, o.1, o.2] + rest.value)
  }

  function Padding(n: nat): string {
    if n % 4 == 0 then "" else if n % 4 == 3 then "=" else if n % 4 == 2 then "==" else "==="
  }

  lemma {:induction false} EncodedLength(bs: seq<Byte>)
    ensures |Encode(bs)| == (4 * |bs| + 2) / 3
  {
    if |bs| > 2 {
      EncodedLength(bs[3..]);
    }
  }

  lemma OneLeft(a: Byte)
    ensures DecodePadded(Encode([a]) + "==") == Some([a]) && |Encode([a])| == 2
  {
    var v := Sextets(a, 0, 0);
    CharsInvert(v.0);
    CharsInvert(v.1);
    var s := Encode([a]) + "==";
    assert s == [CharOf(v.0), CharOf(v.1), '=', '='];
    OctetsInvert(a, 0, 0);
  }

  lemma TwoLeft(a: Byte, b: Byte)
    ensures DecodePadded(Encode([a, b]) + "=") == Some([a, b]) && |Encode([a, b])| == 3
  {
    var v := Sextets(a, b, 0);
    CharsInvert(v.0);
    CharsInvert(v.1);
    CharsInvert(v.2);
    var s := Encode([a, b]) + "=";
    assert s == [CharOf(v.0), CharOf(v.1), CharOf(v.2), '='];
    OctetsInvert(a, b, 0);
  }

  /** A full group decodes to its three bytes, followed by the rest. */
  lemma FullGroup(a: Byte, b: Byte, c: Byte, tail: string)
    requires DecodePadded(tail).Some?
    ensures var v := Sextets(a, b, c);
            DecodePadded([CharOf(v.0), CharOf(v.1), CharOf(v.2), CharOf(v.3)] + tail)
              == Some([a, b, c] + DecodePadded(tail).value)
  {
    var v := Sextets(a, b, c);
    var s := [CharOf(v.0), CharOf(v.1), CharOf(v.2), CharOf(v.3)] + tail;
    CharsInvert(v.0);
    CharsInvert(v.1);
    CharsInvert(v.2);
    CharsInvert(v.3);
    OctetsInvert(a, b, c);
    hide CharOf, ValueOf, Octets, Sextets;
    assert s[4..] == tail;
    assert s[0] == CharOf(v.0) && s[1] == CharOf(v.1) && s[2] == CharOf(v.2) && s[3] == CharOf(v.3);
  }

  /** Decoding what was encoded and stripped of its padding gives back every byte. */
  lemma {:induction false} PaddedRoundTrip(bs: seq<Byte>)
    ensures DecodePadded(Encode(bs) + Padding(|Encode(bs)|)) == Some(bs)
  {
    hide DecodePadded, CharOf, Sextets, Padding;
    if bs == [] {
      assert DecodePadded("") == Some([]) by {
        EmptyDecodes();
      }
      PaddingOf();
    } else if |bs| == 1 {
      assert bs == [bs[0]];
      OneLeft(bs[0]);
      PaddingOf();
    } else if |bs| == 2 {
      assert bs == [bs[0], bs[1]];
      TwoLeft(bs[0], bs[1]);
      PaddingOf();
    } else {
      var rest := Encode(bs[3..]);
      PaddedRoundTrip(bs[3..]);
      FullGroup(bs[0], bs[1], bs[2], rest + Padding(|rest|));
      LongEncode(bs);
      assert [bs[0], bs[1], bs[2]] + bs[3..] == bs;
    }
  }

  lemma SamePadding(n: nat)
    ensures Padding(n + 4) == Padding(n)
  {
  }

  lemma LongEncode(bs: seq<Byte>)
    requires |bs| > 2
    ensures var v := Sextets(bs[0], bs[1], bs[2]);
            var rest := Encode(bs[3..]);
            Encode(bs) + Padding(|Encode(bs)|)
              == [CharOf(v.0), CharOf(v.1), CharOf(v.2), CharOf(v.3)] + (rest + Padding(|rest|))
  {
    hide CharOf, Padding, Sextets;
    var v, rest := Sextets(bs[0], bs[1], bs[2]), Encode(bs[3..]);
    var group := [CharOf(v.0), CharOf(v.1), CharOf(v.2), CharOf(v.3)];
    assert Encode(bs) == group + rest;
    hide Encode;
    SamePadding(|rest|);
    Associate(group, rest, Padding(|rest|));
  }

  lemma Associate(a: string, b: string, c: string)
    ensures (a + b) + c == a + (b + c)
  {
  }

  lemma PaddingOf()
    ensures Padding(0) == "" && Padding(2) == "==" && Padding(3) == "="
  {
  }

  lemma EmptyDecodes()
    ensures DecodePadded("") == Some([])
  {
  }

  // ---------------------------------------------------------------- cursors

  /** One element of a position; `OtherValue` is a boolean, list or object. */
  datatype Atom = Text(text: string) | Number(number: int) | OtherValue

  /** The digest of a query's parameters in canonical form. */
  datatype QueryHash = HashOf(parameters: string)

  datatype Payload = Payload(version: int, resource: string, hash: QueryHash, order: string, last: seq<Atom>)

  /** Writing and reading JSON; `loads` is None for anything but an object with exactly these keys. */
  datatype Codec = Codec(dumps: Payload -> seq<Byte>, loads: seq<Byte> -> Option<Payload>)

  ghost predicate RoundTrips(c: Codec) {
    forall p :: c.loads(c.dumps(p)) == Some(p)
  }

  /** Bytes of one character in a JSON string: everything but printable ASCII is escaped, beyond the
      basic plane as two escapes. */
  function CharSize(c: char): nat {
    if c == '"' || c == '\\' || c == '\n' || c == '\r' || c == '\t' || c == 8 as char || c == 12 as char then 2
    else if ' ' <= c <= '~' then 1
    else if c <= '\U{FFFF}' then 6
    else 12
  }

  function TextSize(t: string): nat {
    if t == "" then 0 else CharSize(t[0]) + TextSize(t[1..])
  }

  function NumberSize(n: int): (s: nat)
    ensures s >= 1
    decreases if n < 0 then 1 - n else n
  {
    if n < 0 then 1 + NumberSize(0 - n) else if n < 10 then 1 else 1 + NumberSize(n / 10)
  }

  function AtomSize(a: Atom): nat {
    match a
    case Text(t) => 2 + TextSize(t)
    case Number(n) => NumberSize(n)
    case OtherValue => 0
  }

  /** The elements of a position with the commas between them. */
  function ListSize(last: seq<Atom>): nat {
    if last == [] then 0
    else if |last| == 1 then AtomSize(last[0])
    else AtomSize(last[0]) + 1 + ListSize(last[1..])
  }

  /** Braces, keys, punctuation, the version and the 64 hexadecimal digits of the hash. */
  const FRAME := 121

  /** Bytes of a cursor's payload in compact JSON. */
  function PayloadSize(q: Query, last: seq<Atom>): nat {
    FRAME + TextSize(q.resource) + TextSize(q.order) + ListSize(last)
  }

  datatype Query = Query(resource: string, parameters: string, order: string)

  const TOKEN_LIMIT := 2048

  function EncodeCursor(c: Codec, q: Query, last: seq<Atom>): string {
    Encode(c.dumps(Payload(1, q.resource, HashOf(q.parameters), q.order, last)))
  }

  function DecodeCursor(c: Codec, q: Query, token: string, lastSize: nat): Option<seq<Atom>> {
    if token == "" || |token| > TOKEN_LIMIT then None
    else
      var raw := DecodePadded(token + Padding(|token|));
      if raw.None? then None
      else
        var p := c.loads(raw.value);
        if p.None? then None
        else if p.value.version != 1 || p.value.resource != q.resource || p.value.hash != HashOf(q.parameters)
                || p.value.order != q.order || |p.value.last| != lastSize then None
        else if exists i :: 0 <= i < |p.value.last| && p.value.last[i].OtherValue? then None
        else Some(p.value.last)
  }

  predicate Plain(last: seq<Atom>) {
    forall i :: 0 <= i < |last| ==> !last[i].OtherValue?
  }

  /** A cursor decodes to the position it was made for exactly when it is not empty and not longer
      than the limit; in bytes, when its payload has at most 1536. */
  lemma CursorRoundTrip(c: Codec, q: Query, last: seq<Atom>)
    requires RoundTrips(c) && Plain(last)
    ensures var token := EncodeCursor(c, q, last);
            var raw := c.dumps(Payload(1, q.resource, HashOf(q.parameters), q.order, last));
            && (DecodeCursor(c, q, token, |last|) == Some(last) <==> 1 <= |token| <= TOKEN_LIMIT)
            && (DecodeCursor(c, q, token, |last|).None? <==> !(1 <= |token| <= TOKEN_LIMIT))
            && (1 <= |token| <= TOKEN_LIMIT <==> 1 <= |raw| <= 1536)
  {
    var p := Payload(1, q.resource, HashOf(q.parameters), q.order, last);
    PaddedRoundTrip(c.dumps(p));
    EncodedLength(c.dumps(p));
    assert c.loads(c.dumps(p)) == Some(p);
  }

  /** The JSON of one query's cursors: it can be read back, and has the size of its compact form. */
  ghost predicate Json(c: Codec, q: Query) {
    && RoundTrips(c)
    && forall last :: Plain(last) ==>
         |c.dumps(Payload(1, q.resource, HashOf(q.parameters), q.order, last))| == PayloadSize(q, last)
  }

  const PAYLOAD_LIMIT := 1536

  /** A cursor is never empty, and it decodes exactly when its position is small enough. */
  lemma CursorDecodes(c: Codec, q: Query, last: seq<Atom>)
    requires Json(c, q) && Plain(last)
    ensures EncodeCursor(c, q, last) != ""
    ensures DecodeCursor(c, q, EncodeCursor(c, q, last), |last|)
         == if PayloadSize(q, last) <= PAYLOAD_LIMIT then Some(last) else None
  {
    CursorRoundTrip(c, q, last);
    EncodedLength(c.dumps(Payload(1, q.resource, HashOf(q.parameters), q.order, last)));
  }

  lemma {:induction false} TextSizeBounds(t: string, least: nat, most: nat)
    requires forall i :: 0 <= i < |t| ==> least <= CharSize(t[i]) <= most
    ensures least * |t| <= TextSize(t) <= most * |t|
  {
    if t != "" {
      hide CharSize;
      TextSizeBounds(t[1..], least, most);
      OneMore(least, |t[1..]|);
      OneMore(most, |t[1..]|);
    }
  }

  lemma OneMore(a: nat, n: nat)
    ensures a * (n + 1) == a + a * n
  {
  }

  lemma {:induction false} DigitsOf(n: nat, digits: nat)
    requires digits >= 1 && n < Pow10(digits)
    ensures NumberSize(n) <= digits
    decreases digits
  {
    if n >= 10 {
      assert digits > 1 by {
        assert Pow10(1) == 10;
      }
      DigitsOf(n / 10, digits - 1);
    }
  }

  /** A 64-bit number takes at most twenty characters. */
  lemma WideNumber(n: int)
    requires -0x8000_0000_0000_0000 <= n < 0x8000_0000_0000_0000
    ensures NumberSize(n) <= 20
  {
    Pow10Adds(5, 5);
    Pow10Adds(10, 5);
    Pow10Adds(15, 4);
    assert Pow10(5) == 100000 && Pow10(4) == 10000;
    DigitsOf(if n < 0 then 0 - n else n, 19);
  }

  /** A cursor never continues another query: other resource, parameters, order or position size. */
  lemma ForeignCursorRejected(c: Codec, q: Query, q': Query, last: seq<Atom>, lastSize: nat)
    requires RoundTrips(c)
    requires q != q' || lastSize != |last|
    ensures DecodeCursor(c, q', EncodeCursor(c, q, last), lastSize).None?
  {
    var p := Payload(1, q.resource, HashOf(q.parameters), q.order, last);
    PaddedRoundTrip(c.dumps(p));
    assert c.loads(c.dumps(p)) == Some(p);
  }
}
