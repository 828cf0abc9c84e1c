/**
 * `java.net.URLEncoder.encode(s, UTF_8)`: the application/x-www-form-urlencoded form of a
 * string. Letters, digits and `-_.*` pass through, a space becomes `+`, and every other
 * character becomes `%XX` for each byte of its UTF-8 encoding, hex digits in upper case.
 * Strings are sequences of Unicode scalar values here, so no lone surrogate arises.
 */
module JavaUrl {
  import opened Wrappers

  /** The characters the encoder leaves as they are (the space aside). */
  predicate Unreserved(c: char) {
    'a' <= c <= 'z' || 'A' <= c <= 'Z' || '0' <= c <= '9' || c == '-' || c == '_' || c == '.' || c == '*'
  }

  /** The characters an encoded string is made of: none of them ends or splits a query
      parameter (`&`, `=`, `#` and `?` are all encoded). */
  predicate QuerySafe(c: char) {
    Unreserved(c) || c == '+' || c == '%'
  }

  predicate IsByte(b: int) { 0 <= b < 256 }

  predicate AllBytes(bs: seq<int>) {
    forall i :: 0 <= i < |bs| ==> IsByte(bs[i])
  }

  /** The UTF-8 encoding of one scalar value (section 3 of RFC 3629). */
  function Utf8(c: char): (r: seq<int>)
    ensures 1 <= |r| <= 4 && AllBytes(r)
    ensures c as int < 0x80 ==> r == [c as int]
  {
    var n := c as int;
    if n < 0x80 then [n]
    else if n < 0x800 then [0xC0 + n / 64, 0x80 + n % 64]
    else if n < 0x10000 then [0xE0 + n / 4096, 0x80 + (n / 64) % 64, 0x80 + n % 64]
    else [0xF0 + n / 262144, 0x80 + (n / 4096) % 64, 0x80 + (n / 64) % 64, 0x80 + n % 64]
  }

  /** The UTF-8 encoding of a string. */
  function Utf8String(s: string): (r: seq<int>)
    ensures AllBytes(r)
  {
    if s == [] then [] else Utf8(s[0]) + Utf8String(s[1..])
  }

  function HexDigit(d: int): (c: char)
    requires 0 <= d < 16
    ensures Unreserved(c)
  {
    if d < 10 then ('0' as int + d) as char else ('A' as int + d - 10) as char
  }

  /** `%XX` of one byte. */
  function PercentByte(b: int): string
    requires IsByte(b)
  {
    ['%', HexDigit(b / 16), HexDigit(b % 16)]
  }

  function PercentBytes(bs: seq<int>): (r: string)
    requires AllBytes(bs)
    ensures |r| == 3 * |bs|
    ensures forall i :: 0 <= i < |r| ==> QuerySafe(r[i])
  {
    if bs == [] then [] else PercentByte(bs[0]) + PercentBytes(bs[1..])
  }

  function EncodeChar(c: char): (r: string)
    ensures forall i :: 0 <= i < |r| ==> QuerySafe(r[i])
  {
    if Unreserved(c) then [c]
    else if c == ' ' then "+"
    else PercentBytes(Utf8(c))
  }

  /** `URLEncoder.encode(s, StandardCharsets.UTF_8)`. */
  function Encode(s: string): (r: string)
    ensures forall i :: 0 <= i < |r| ==> QuerySafe(r[i])
    ensures |r| >= |s|
  {
    if s == [] then [] else EncodeChar(s[0]) + Encode(s[1..])
  }

  /** A string of unreserved characters only is sent as it is. */
  lemma {:induction false} EncodeUnreserved(s: string)
    requires forall i :: 0 <= i < |s| ==> Unreserved(s[i])
    ensures Encode(s) == s
  {
    if s != [] {
      EncodeUnreserved(s[1..]);
    }
  }

  function HexValue(c: char): Option<int> {
    if '0' <= c <= '9' then Some(c as int - '0' as int)
    else if 'A' <= c <= 'F' then Some(c as int - 'A' as int + 10)
    else if 'a' <= c <= 'f' then Some(c as int - 'a' as int + 10)
    else None
  }

  function Prepend(bs: seq<int>, r: Option<seq<int>>): Option<seq<int>> {
    if r.Some? then Some(bs + r.value) else None
  }

  lemma PrependPrepend(b: int, bs: seq<int>, r: Option<seq<int>>)
    ensures Prepend([b], Prepend(bs, r)) == Prepend([b] + bs, r)
  {
    if r.Some? {
      assert [b] + (bs + r.value) == ([b] + bs) + r.value;
    }
  }

  /** The reference decoding of a form-encoded string into the octets it stands for:
      `+` is a space, `%XX` the byte XX, any other ASCII character its own code. */
  function Decode(t: string): (r: Option<seq<int>>)
    decreases |t|
  {
    if t == [] then Some([])
    else if t[0] == '+' then Prepend([0x20], Decode(t[1..]))
    else if t[0] == '%' then
      if |t| < 3 || HexValue(t[1]).None? || HexValue(t[2]).None? then None
      else Prepend([HexValue(t[1]).value * 16 + HexValue(t[2]).value], Decode(t[3..]))
    else if t[0] as int < 0x80 then Prepend([t[0] as int], Decode(t[1..]))
    else None
  }

  lemma HexRoundTrip(d: int)
    requires 0 <= d < 16
    ensures HexValue(HexDigit(d)) == Some(d)
  {
  }

  lemma DecodePercentByte(b: int, rest: string)
    requires IsByte(b)
    ensures Decode(PercentByte(b) + rest) == Prepend([b], Decode(rest))
  {
    var t := PercentByte(b) + rest;
    HexRoundTrip(b / 16);
    HexRoundTrip(b % 16);
    assert t[1..][2..] == rest;
    assert t[3..] == rest;
  }

  lemma {:induction false} DecodePercentBytes(bs: seq<int>, rest: string)
    requires AllBytes(bs)
    ensures Decode(PercentBytes(bs) + rest) == Prepend(bs, Decode(rest))
  {
    if bs != [] {
      var tail := PercentBytes(bs[1..]) + rest;
      assert PercentBytes(bs) + rest == PercentByte(bs[0]) + tail;
      DecodePercentByte(bs[0], tail);
      DecodePercentBytes(bs[1..], rest);
      PrependPrepend(bs[0], bs[1..], Decode(rest));
      assert [bs[0]] + bs[1..] == bs;
    } else {
      assert PercentBytes(bs) + rest == rest;
      if Decode(rest).Some? {
        assert bs + Decode(rest).value == Decode(rest).value;
      }
    }
  }

  lemma DecodeEncodeChar(c: char, rest: string)
    ensures Decode(EncodeChar(c) + rest) == Prepend(Utf8(c), Decode(rest))
  {
    if Unreserved(c) || c == ' ' {
      assert (EncodeChar(c) + rest)[1..] == rest;
    } else {
      DecodePercentBytes(Utf8(c), rest);
    }
  }

  /** Decoding the encoded form gives back exactly the UTF-8 bytes of the input, so two
      strings sent as the same query value have the same UTF-8 bytes. */
  lemma {:induction false} DecodeEncode(s: string)
    ensures Decode(Encode(s)) == Some(Utf8String(s))
  {
    if s != [] {
      DecodeEncodeChar(s[0], Encode(s[1..]));
      DecodeEncode(s[1..]);
    }
  }
}
