/**
 UTF-8 as defined by the syntax in section 4 of RFC 3629, which is exactly
 what Rust's `std::str::from_utf8` accepts: no overlong forms, no surrogate
 code points, nothing above U+10FFFF.
 */
module Utf8 {
  import opened Bytes

  /** UTF8-tail = %x80-BF */
  predicate IsTail(b: byte) {
    0x80 <= b <= 0xBF
  }

  /** UTF8-1 = %x00-7F */
  predicate IsUtf8One(c: seq<byte>) {
    |c| == 1 && c[0] <= 0x7F
  }

  /** UTF8-2 = %xC2-DF UTF8-tail */
  predicate IsUtf8Two(c: seq<byte>) {
    |c| == 2 && 0xC2 <= c[0] <= 0xDF && IsTail(c[1])
  }

  /**
   UTF8-3 = %xE0 %xA0-BF UTF8-tail / %xE1-EC 2( UTF8-tail ) /
            %xED %x80-9F UTF8-tail / %xEE-EF 2( UTF8-tail )
   */
  predicate IsUtf8Three(c: seq<byte>) {
    && |c| == 3
    && IsTail(c[2])
    && (|| (c[0] == 0xE0 && 0xA0 <= c[1] <= 0xBF)
        || (0xE1 <= c[0] <= 0xEC && IsTail(c[1]))
        || (c[0] == 0xED && 0x80 <= c[1] <= 0x9F)
        || (0xEE <= c[0] <= 0xEF && IsTail(c[1])))
  }

  /**
   UTF8-4 = %xF0 %x90-BF 2( UTF8-tail ) / %xF1-F3 3( UTF8-tail ) /
            %xF4 %x80-8F 2( UTF8-tail )
   */
  predicate IsUtf8Four(c: seq<byte>) {
    && |c| == 4
    && IsTail(c[2]) && IsTail(c[3])
    && (|| (c[0] == 0xF0 && 0x90 <= c[1] <= 0xBF)
        || (0xF1 <= c[0] <= 0xF3 && IsTail(c[1]))
        || (c[0] == 0xF4 && 0x80 <= c[1] <= 0x8F))
  }

  /** UTF8-char = UTF8-1 / UTF8-2 / UTF8-3 / UTF8-4 */
  predicate IsUtf8Char(c: seq<byte>) {
    IsUtf8One(c) || IsUtf8Two(c) || IsUtf8Three(c) || IsUtf8Four(c)
  }

  /**
   The length of the UTF8-char that starts `b`, or 0 when `b` does not start
   with one. The leading byte fixes the length, so at most one length fits.
   */
  function FirstCharLen(b: seq<byte>): (n: nat)
    ensures n <= 4 && n <= |b|
    ensures n != 0 ==> IsUtf8Char(b[..n])
    ensures n == 0 ==> forall k :: 1 <= k <= 4 && k <= |b| ==> !IsUtf8Char(b[..k])
  {
    if 1 <= |b| && IsUtf8Char(b[..1]) then 1
    else if 2 <= |b| && IsUtf8Char(b[..2]) then 2
    else if 3 <= |b| && IsUtf8Char(b[..3]) then 3
    else if 4 <= |b| && IsUtf8Char(b[..4]) then 4
    else 0
  }

  /** An octet that may appear in UTF-8 at all: section 1 of RFC 3629 rules out C0, C1 and F5 to FF. */
  predicate IsUtf8Octet(x: byte) {
    x != 0xC0 && x != 0xC1 && x < 0xF5
  }

  /** UTF8-octets = *( UTF8-char ). Well-formed text holds no octet that never appears in UTF-8. */
  predicate IsUtf8(b: seq<byte>)
    ensures IsUtf8(b) ==> forall k :: 0 <= k < |b| ==> IsUtf8Octet(b[k])
    decreases |b|
  {
    |b| == 0 || (FirstCharLen(b) != 0 && IsUtf8(b[FirstCharLen(b)..]))
  }

  /** A Unicode scalar value: a code point that is not a surrogate. */
  predicate IsScalarValue(cp: int) {
    0 <= cp < 0xD800 || 0xE000 <= cp < 0x11_0000
  }

  /** The number of bytes UTF-8 spends on a scalar value. */
  function EncodedLen(cp: int): nat {
    if cp < 0x80 then 1 else if cp < 0x800 then 2 else if cp < 0x1_0000 then 3 else 4
  }

  /**
   The code point a single UTF8-char encodes: the payload bits of the
   leading byte followed by six bits from each tail byte. RFC 3629's syntax
   rules out exactly the overlong forms, so the length matches the value.
   */
  function CodePoint(c: seq<byte>): (cp: int)
    requires IsUtf8Char(c)
    ensures IsScalarValue(cp)
    ensures EncodedLen(cp) == |c|
  {
    if |c| == 1 then
      c[0]
    else if |c| == 2 then
      (c[0] as int - 0xC0) * 0x40 + (c[1] as int - 0x80)
    else if |c| == 3 then
      (c[0] as int - 0xE0) * 0x1000 + (c[1] as int - 0x80) * 0x40 + (c[2] as int - 0x80)
    else
      (c[0] as int - 0xF0) * 0x4_0000 + (c[1] as int - 0x80) * 0x1000
        + (c[2] as int - 0x80) * 0x40 + (c[3] as int - 0x80)
  }

  /** The character a single UTF8-char encodes. */
  function DecodeChar(c: seq<byte>): char
    requires IsUtf8Char(c)
  {
    CodePoint(c) as char
  }

  /** The UTF-8 bytes of one scalar value, most significant bits first. */
  function EncodeScalar(cp: int): (c: seq<byte>)
    requires IsScalarValue(cp)
    ensures |c| == EncodedLen(cp)
  {
    if cp < 0x80 then
      [cp]
    else if cp < 0x800 then
      [0xC0 + cp / 0x40, 0x80 + cp % 0x40]
    else if cp < 0x1_0000 then
      [0xE0 + cp / 0x1000, 0x80 + (cp / 0x40) % 0x40, 0x80 + cp % 0x40]
    else
      [0xF0 + cp / 0x4_0000, 0x80 + (cp / 0x1000) % 0x40, 0x80 + (cp / 0x40) % 0x40, 0x80 + cp % 0x40]
  }

  /** The UTF-8 encoding of one character. */
  function EncodeChar(ch: char): seq<byte> {
    EncodeScalar(ch as int)
  }

  /** `from_utf8` on well-formed input: the characters the bytes spell, in order. */
  function Decode(b: seq<byte>): (s: string)
    requires IsUtf8(b)
    ensures |s| <= |b| <= 4 * |s|
    decreases |b|
  {
    if |b| == 0 then [] else [DecodeChar(b[..FirstCharLen(b)])] + Decode(b[FirstCharLen(b)..])
  }

  /** The UTF-8 bytes of a string, the inverse of `Decode`. */
  function Encode(s: string): (b: seq<byte>)
    ensures |s| <= |b| <= 4 * |s|
  {
    if |s| == 0 then [] else EncodeChar(s[0]) + Encode(s[1..])
  }

  /** A scalar value below U+0800 and from U+0080 encodes to a two-byte UTF8-char that decodes back to it. */
  lemma EncodeScalarRoundTripTwo(cp: int)
    requires 0x80 <= cp < 0x800
    ensures IsUtf8Char(EncodeScalar(cp))
    ensures CodePoint(EncodeScalar(cp)) == cp
  {
    var q, r := cp / 0x40, cp % 0x40;
    assert cp == q * 0x40 + r;
    assert 2 <= q < 0x20;
  }

  /** A scalar value from U+0800 below U+10000 encodes to a three-byte UTF8-char that decodes back to it. */
  lemma EncodeScalarRoundTripThree(cp: int)
    requires IsScalarValue(cp) && 0x800 <= cp < 0x1_0000
    ensures IsUtf8Char(EncodeScalar(cp))
    ensures CodePoint(EncodeScalar(cp)) == cp
  {
    var q, r := cp / 0x40, cp % 0x40;
    var q2, r2 := q / 0x40, q % 0x40;
    assert cp == q * 0x40 + r && q == q2 * 0x40 + r2;
    assert cp / 0x1000 == q2;
    assert q2 == 0 ==> r2 >= 0x20;
    assert q2 == 0xD ==> r2 < 0x20;
  }

  /** A scalar value from U+10000 encodes to a four-byte UTF8-char that decodes back to it. */
  lemma EncodeScalarRoundTripFour(cp: int)
    requires IsScalarValue(cp) && 0x1_0000 <= cp
    ensures IsUtf8Char(EncodeScalar(cp))
    ensures CodePoint(EncodeScalar(cp)) == cp
  {
    var q, r := cp / 0x40, cp % 0x40;
    var q2, r2 := q / 0x40, q % 0x40;
    var q3, r3 := q2 / 0x40, q2 % 0x40;
    assert cp == q * 0x40 + r && q == q2 * 0x40 + r2 && q2 == q3 * 0x40 + r3;
    assert cp / 0x1000 == q2 && cp / 0x4_0000 == q3;
    assert q3 == 0 ==> r3 >= 0x10;
    assert q3 <= 4;
    assert q3 == 4 ==> r3 < 0x10;
  }

  /** Encoding a scalar value gives one well-formed UTF8-char that decodes back to it. */
  lemma EncodeScalarRoundTrip(cp: int)
    requires IsScalarValue(cp)
    ensures IsUtf8Char(EncodeScalar(cp))
    ensures CodePoint(EncodeScalar(cp)) == cp
  {
    if cp < 0x80 {
    } else if cp < 0x800 {
      EncodeScalarRoundTripTwo(cp);
    } else if cp < 0x1_0000 {
      EncodeScalarRoundTripThree(cp);
    } else {
      EncodeScalarRoundTripFour(cp);
    }
  }

  /** A two-byte UTF8-char is the encoding of its code point. */
  lemma CodePointRoundTripTwo(c: seq<byte>)
    requires IsUtf8Two(c)
    ensures EncodeScalar(CodePoint(c)) == c
  {
    var cp := CodePoint(c);
    assert cp / 0x40 == c[0] - 0xC0 && cp % 0x40 == c[1] - 0x80;
  }

  /** A three-byte UTF8-char is the encoding of its code point. */
  lemma CodePointRoundTripThree(c: seq<byte>)
    requires IsUtf8Three(c)
    ensures EncodeScalar(CodePoint(c)) == c
  {
    var cp := CodePoint(c);
    var q := (c[0] as int - 0xE0) * 0x40 + (c[1] as int - 0x80);
    assert cp == q * 0x40 + (c[2] as int - 0x80);
    assert cp / 0x40 == q && cp % 0x40 == c[2] - 0x80;
    assert q / 0x40 == c[0] - 0xE0 && q % 0x40 == c[1] - 0x80;
    assert cp / 0x1000 == q / 0x40;
  }

  /** A four-byte UTF8-char is the encoding of its code point. */
  lemma CodePointRoundTripFour(c: seq<byte>)
    requires IsUtf8Four(c)
    ensures EncodeScalar(CodePoint(c)) == c
  {
    var cp := CodePoint(c);
    var q2 := (c[0] as int - 0xF0) * 0x40 + (c[1] as int - 0x80);
    var q := q2 * 0x40 + (c[2] as int - 0x80);
    assert cp == q * 0x40 + (c[3] as int - 0x80);
    assert cp / 0x40 == q && cp % 0x40 == c[3] - 0x80;
    assert q / 0x40 == q2 && q % 0x40 == c[2] - 0x80;
    assert q2 / 0x40 == c[0] - 0xF0 && q2 % 0x40 == c[1] - 0x80;
    assert cp / 0x1000 == q2 && cp / 0x4_0000 == q2 / 0x40;
  }

  /** A well-formed UTF8-char is the encoding of the scalar value it decodes to. */
  lemma CodePointRoundTrip(c: seq<byte>)
    requires IsUtf8Char(c)
    ensures EncodeScalar(CodePoint(c)) == c
  {
    if |c| == 2 {
      CodePointRoundTripTwo(c);
    } else if |c| == 3 {
      CodePointRoundTripThree(c);
    } else if |c| == 4 {
      CodePointRoundTripFour(c);
    }
  }

  /** The leading byte of a UTF8-char fixes its length, whatever follows it. */
  lemma FirstCharLenOfChar(c: seq<byte>, rest: seq<byte>)
    requires IsUtf8Char(c)
    ensures FirstCharLen(c + rest) == |c|
  {
    var b := c + rest;
    assert b[..|c|] == c;
    forall k | 1 <= k < |c|
      ensures !IsUtf8Char(b[..k])
    {
      assert b[..k][0] == c[0];
    }
  }

  /** Every string encodes to well-formed UTF-8 that decodes back to the string. */
  lemma {:induction false} DecodeEncode(s: string)
    ensures IsUtf8(Encode(s))
    ensures Decode(Encode(s)) == s
  {
    if |s| != 0 {
      var c := EncodeChar(s[0]);
      var b := Encode(s);
      EncodeScalarRoundTrip(s[0] as int);
      FirstCharLenOfChar(c, Encode(s[1..]));
      assert b[|c|..] == Encode(s[1..]);
      assert b[..|c|] == c;
      DecodeEncode(s[1..]);
    }
  }

  /** A well-formed UTF8-char is the encoding of the character it decodes to. */
  lemma EncodeDecodeChar(c: seq<byte>)
    requires IsUtf8Char(c)
    ensures EncodeChar(DecodeChar(c)) == c
  {
    CodePointRoundTrip(c);
  }

  /** Decoding takes the leading character off, then decodes the rest. */
  lemma DecodeFirst(b: seq<byte>)
    requires IsUtf8(b) && |b| != 0
    ensures FirstCharLen(b) != 0 && IsUtf8(b[FirstCharLen(b)..])
    ensures Decode(b) == [DecodeChar(b[..FirstCharLen(b)])] + Decode(b[FirstCharLen(b)..])
  {
  }

  /** Encoding a string that starts with `ch` starts with the encoding of `ch`. */
  lemma EncodeFirst(ch: char, s: string)
    ensures Encode([ch] + s) == EncodeChar(ch) + Encode(s)
  {
    assert ([ch] + s)[0] == ch && ([ch] + s)[1..] == s;
  }

  /** Well-formed UTF-8 is exactly the encoding of the string it decodes to. */
  lemma {:induction false} EncodeDecode(b: seq<byte>)
    requires IsUtf8(b)
    ensures Encode(Decode(b)) == b
    decreases |b|
  {
    if |b| != 0 {
      var n := FirstCharLen(b);
      DecodeFirst(b);
      var c, rest := b[..n], b[n..];
      var d, t := DecodeChar(c), Decode(rest);
      EncodeDecodeChar(c);
      EncodeDecode(rest);
      EncodeFirst(d, t);
      calc {
        Encode(Decode(b));
        Encode([d] + t);
        EncodeChar(d) + Encode(t);
        c + rest;
        b;
      }
    }
  }
}
