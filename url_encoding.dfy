/**
 * PHP's `rawurlencode`: percent-encoding of a path segment as section 2.1 of
 * RFC 3986 describes it. Every character outside the unreserved set of section
 * 2.3 is replaced by `%XX` for each byte of its UTF-8 encoding (section 3 of
 * RFC 3629), with upper-case hexadecimal digits.
 */
module UrlEncoding {
  import opened Wrappers

  type Byte = b: int | 0 <= b < 256

  /** The unreserved characters of section 2.3 of RFC 3986. */
  predicate IsUnreserved(c: char) {
    || 'A' <= c <= 'Z' || 'a' <= c <= 'z' || '0' <= c <= '9'
    || c == '-' || c == '_' || c == '.' || c == '~'
  }

  /** The UTF-8 encoding of one character. */
  function Utf8(c: char): (bytes: seq<Byte>)
    ensures 1 <= |bytes| <= 4
    ensures c as int < 128 ==> bytes == [c as int]
  {
    var cp := c as int;
    if cp < 0x80 then [cp]
    else if cp < 0x800 then [0xC0 + cp / 0x40, 0x80 + cp % 0x40]
    else if cp < 0x1_0000 then [0xE0 + cp / 0x1000, 0x80 + (cp / 0x40) % 0x40, 0x80 + cp % 0x40]
    else [0xF0 + cp / 0x4_0000, 0x80 + (cp / 0x1000) % 0x40, 0x80 + (cp / 0x40) % 0x40, 0x80 + cp % 0x40]
  }

  /** The UTF-8 bytes of a whole string. */
  function Utf8String(s: string): seq<Byte> {
    if s == [] then [] else Utf8(s[0]) + Utf8String(s[1..])
  }

  function HexDigit(d: nat): (c: char)
    requires d < 16
    ensures IsUnreserved(c)
  {
    if d < 10 then ('0' as int + d) as char else ('A' as int + d - 10) as char
  }

  predicate IsHexDigit(c: char) {
    '0' <= c <= '9' || 'A' <= c <= 'F' || 'a' <= c <= 'f'
  }

  function HexValue(c: char): (d: nat)
    requires IsHexDigit(c)
    ensures d < 16
  {
    if '0' <= c <= '9' then c as int - '0' as int
    else if 'A' <= c <= 'F' then c as int - 'A' as int + 10
    else c as int - 'a' as int + 10
  }

  /** `%XX` for a list of bytes. */
  function PercentBytes(bytes: seq<Byte>): (r: string)
    ensures |r| == 3 * |bytes|
    ensures forall i :: 0 <= i < |r| ==> IsUnreserved(r[i]) || r[i] == '%'
  {
    if bytes == [] then []
    else PercentByte(bytes[0]) + PercentBytes(bytes[1..])
  }

  function EncodeChar(c: char): (r: string)
    ensures r != []
    ensures forall i :: 0 <= i < |r| ==> IsUnreserved(r[i]) || r[i] == '%'
  {
    if IsUnreserved(c) then [c] else PercentBytes(Utf8(c))
  }

  /** `rawurlencode($s)`: every character is kept when unreserved and percent-encoded byte by byte otherwise. */
  function RawUrlEncode(s: string): string {
    if s == [] then [] else EncodeChar(s[0]) + RawUrlEncode(s[1..])
  }

  /**
   * The encoding holds only unreserved characters and `%`, so it can never
   * contain `/`, `?`, `#` or `&`: it stays one path segment or one query value.
   */
  lemma {:induction false} RawUrlEncodeAlphabet(s: string)
    ensures forall i :: 0 <= i < |RawUrlEncode(s)| ==> IsUnreserved(RawUrlEncode(s)[i]) || RawUrlEncode(s)[i] == '%'
  {
    if s != [] {
      RawUrlEncodeAlphabet(s[1..]);
      var head := EncodeChar(s[0]);
      var tail := RawUrlEncode(s[1..]);
      assert forall i :: 0 <= i < |tail| ==> (head + tail)[|head| + i] == tail[i];
    }
  }

  /** A string made only of unreserved characters comes out unchanged. */
  lemma {:induction false} RawUrlEncodeUnreserved(s: string)
    requires forall i :: 0 <= i < |s| ==> IsUnreserved(s[i])
    ensures RawUrlEncode(s) == s
  {
    if s != [] {
      assert forall i :: 0 <= i < |s[1..]| ==> s[1..][i] == s[i + 1];
      RawUrlEncodeUnreserved(s[1..]);
      assert s == [s[0]] + s[1..];
    }
  }

  /** Decoding of a percent-encoded segment into bytes; `None` when malformed. */
  function PercentDecode(t: string): Option<seq<Byte>> {
    if t == [] then Some([])
    else if t[0] == '%' then
      if |t| >= 3 && IsHexDigit(t[1]) && IsHexDigit(t[2]) then
        Prepend([HexValue(t[1]) * 16 + HexValue(t[2])], PercentDecode(t[3..]))
      else None
    else if IsUnreserved(t[0]) then Prepend([t[0] as int], PercentDecode(t[1..]))
    else None
  }

  function Prepend(bytes: seq<Byte>, rest: Option<seq<Byte>>): Option<seq<Byte>> {
    if rest.Some? then Some(bytes + rest.value) else None
  }

  lemma HexDigitDecodes(d: nat)
    requires d < 16
    ensures IsHexDigit(HexDigit(d)) && HexValue(HexDigit(d)) == d
  {
  }

  function PercentByte(b: Byte): string {
    ['%', HexDigit(b / 16), HexDigit(b % 16)]
  }

  lemma DecodePercentByte(b: Byte, rest: string)
    ensures PercentDecode(PercentByte(b) + rest) == Prepend([b], PercentDecode(rest))
  {
    HexDigitDecodes(b / 16);
    HexDigitDecodes(b % 16);
    var t := PercentByte(b) + rest;
    assert t[3..] == rest;
  }

  lemma PrependPrepend(a: seq<Byte>, b: seq<Byte>, d: Option<seq<Byte>>)
    ensures Prepend(a, Prepend(b, d)) == Prepend(a + b, d)
  {
    if d.Some? {
      assert a + (b + d.value) == (a + b) + d.value;
    }
  }

  lemma {:induction false} DecodePercentBytes(bytes: seq<Byte>, rest: string)
    ensures PercentDecode(PercentBytes(bytes) + rest) == Prepend(bytes, PercentDecode(rest))
  {
    var d := PercentDecode(rest);
    if bytes == [] {
      assert PercentBytes(bytes) + rest == rest;
      PrependPrepend([], [], d);
      assert Prepend([], d) == d by {
        if d.Some? { assert [] + d.value == d.value; }
      }
    } else {
      var b := bytes[0];
      var tail := PercentBytes(bytes[1..]) + rest;
      assert PercentBytes(bytes) + rest == PercentByte(b) + tail;
      DecodePercentByte(b, tail);
      DecodePercentBytes(bytes[1..], rest);
      PrependPrepend([b], bytes[1..], d);
      assert [b] + bytes[1..] == bytes;
    }
  }

  lemma DecodeEncodedChar(c: char, rest: string)
    ensures PercentDecode(EncodeChar(c) + rest) == Prepend(Utf8(c), PercentDecode(rest))
  {
    if IsUnreserved(c) {
      assert ([c] + rest)[1..] == rest;
    } else {
      DecodePercentBytes(Utf8(c), rest);
    }
  }

  /**
   * Decoding what `rawurlencode` produced gives back the UTF-8 bytes of the
   * original string: no two strings share an encoding.
   */
  lemma {:induction false} DecodeRawUrlEncode(s: string)
    ensures PercentDecode(RawUrlEncode(s)) == Some(Utf8String(s))
  {
    if s != [] {
      DecodeEncodedChar(s[0], RawUrlEncode(s[1..]));
      DecodeRawUrlEncode(s[1..]);
    }
  }
}
