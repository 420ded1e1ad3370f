/**
 Raw byte buffers and the little-endian 32-bit integer layout used by every
 numeric field of the save file.
 */
module Bytes {

  /** One octet of the save file. */
  type byte = x: int | 0 <= x < 256

  const TwoTo8: int := 0x100
  const TwoTo31: int := 0x8000_0000
  const TwoTo32: int := 0x1_0000_0000
  const TwoTo63: int := 0x8000_0000_0000_0000

  /** The range of a Rust `i64`, the value type the editor passes around. */
  predicate IsI64(v: int) {
    -TwoTo63 <= v < TwoTo63
  }

  /** The range of a Rust `i32`. */
  predicate IsI32(v: int) {
    -TwoTo31 <= v < TwoTo31
  }

  /** The range of a Rust `u32`. */
  predicate IsU32(v: int) {
    0 <= v < TwoTo32
  }

  /** `u32::from_le_bytes` of the four bytes starting at `p`. */
  function U32At(buf: seq<byte>, p: nat): (r: int)
    requires p + 4 <= |buf|
    ensures IsU32(r)
    ensures r % TwoTo8 == buf[p]
  {
    buf[p] as int + 0x100 * (buf[p + 1] as int) + 0x1_0000 * (buf[p + 2] as int) + 0x100_0000 * (buf[p + 3] as int)
  }

  /** Two's complement reading of a 32-bit pattern, as a Rust `as i32` cast does. */
  function ToI32(u: int): (r: int)
    requires IsU32(u)
    ensures IsI32(r)
    ensures r % TwoTo32 == u
    ensures u < TwoTo31 <==> r >= 0
  {
    if u < TwoTo31 then u else u - TwoTo32
  }

  /** `i32::from_le_bytes` of the four bytes starting at `p`. */
  function I32At(buf: seq<byte>, p: nat): (r: int)
    requires p + 4 <= |buf|
    ensures IsI32(r)
    ensures r % TwoTo32 == U32At(buf, p)
  {
    ToI32(U32At(buf, p))
  }

  /** `u32::to_le_bytes`: least significant byte first. */
  function LeBytes(u: int): (r: seq<byte>)
    requires IsU32(u)
    ensures |r| == 4
    ensures U32At(r, 0) == u
  {
    var q1 := u / 0x100;
    var q2 := q1 / 0x100;
    assert u == u % 0x100 + 0x100 * q1 && q1 == q1 % 0x100 + 0x100 * q2;
    assert q2 == q2 % 0x100 + 0x100 * (q2 / 0x100) && q2 / 0x100 < 0x100;
    [u % 0x100, q1 % 0x100, q2 % 0x100, q2 / 0x100]
  }

  /** Reading four bytes and writing them back yields the same four bytes. */
  lemma LeBytesOfU32At(buf: seq<byte>, p: nat)
    requires p + 4 <= |buf|
    ensures LeBytes(U32At(buf, p)) == buf[p..p + 4]
  {
    var u := U32At(buf, p);
    var b0, b1, b2, b3: int := buf[p], buf[p + 1], buf[p + 2], buf[p + 3];
    assert u == b0 + 0x100 * (b1 + 0x100 * (b2 + 0x100 * b3));
    assert u % 0x100 == b0 && u / 0x100 == b1 + 0x100 * (b2 + 0x100 * b3);
    var u1 := u / 0x100;
    assert u1 % 0x100 == b1 && u1 / 0x100 == b2 + 0x100 * b3;
    var u2 := u1 / 0x100;
    assert u2 % 0x100 == b2 && u2 / 0x100 == b3;
  }

  /** The buffer with `bytes` written over positions `[p, p + |bytes|)`. */
  function Splice(buf: seq<byte>, p: nat, bytes: seq<byte>): (r: seq<byte>)
    requires p + |bytes| <= |buf|
    ensures |r| == |buf|
    ensures forall k :: 0 <= k < |buf| && !(p <= k < p + |bytes|) ==> r[k] == buf[k]
    ensures forall k :: 0 <= k < |bytes| ==> r[p + k] == bytes[k]
  {
    buf[..p] + bytes + buf[p + |bytes|..]
  }

  /** Rust's `as u32` on an integer: keep the low 32 bits. */
  function AsU32(v: int): (r: int)
    ensures IsU32(r)
    ensures (v - r) % TwoTo32 == 0
    ensures IsU32(v) ==> r == v
  {
    v % TwoTo32
  }

  /** Rust's `as i32` on an integer: keep the low 32 bits, read as two's complement. */
  function AsI32(v: int): (r: int)
    ensures IsI32(r)
    ensures r % TwoTo32 == v % TwoTo32
    ensures IsI32(v) ==> r == v
  {
    ToI32(v % TwoTo32)
  }

  /** Rust's `as u8` on an integer: keep the low 8 bits. */
  function AsU8(v: int): (r: byte)
    ensures (v - r) % TwoTo8 == 0
    ensures 0 <= v < TwoTo8 ==> r == v
  {
    v % TwoTo8
  }

  /** A 32-bit read sees exactly the four bytes it covers. */
  lemma U32AtSameBytes(a: seq<byte>, p: nat, b: seq<byte>, q: nat)
    requires p + 4 <= |a| && q + 4 <= |b|
    requires a[p..p + 4] == b[q..q + 4]
    ensures U32At(a, p) == U32At(b, q)
  {
    assert a[p] == a[p..p + 4][0] && a[p + 1] == a[p..p + 4][1];
    assert a[p + 2] == a[p..p + 4][2] && a[p + 3] == a[p..p + 4][3];
    assert b[q] == b[q..q + 4][0] && b[q + 1] == b[q..q + 4][1];
    assert b[q + 2] == b[q..q + 4][2] && b[q + 3] == b[q..q + 4][3];
  }

  /** Reading back four spliced bytes gives the value they encode. */
  lemma U32AtSplice(buf: seq<byte>, p: nat, bytes: seq<byte>)
    requires |bytes| == 4 && p + 4 <= |buf|
    ensures U32At(Splice(buf, p, bytes), p) == U32At(bytes, 0)
  {
    var r := Splice(buf, p, bytes);
    assert r[p..p + 4] == bytes[0..4];
    U32AtSameBytes(r, p, bytes, 0);
  }

  /** A 32-bit read that does not overlap a splice sees the old bytes. */
  lemma U32AtSpliceElsewhere(buf: seq<byte>, p: nat, bytes: seq<byte>, q: nat)
    requires p + |bytes| <= |buf| && q + 4 <= |buf|
    requires q + 4 <= p || p + |bytes| <= q
    ensures U32At(Splice(buf, p, bytes), q) == U32At(buf, q)
  {
    var r := Splice(buf, p, bytes);
    assert r[q] == buf[q] && r[q + 1] == buf[q + 1] && r[q + 2] == buf[q + 2] && r[q + 3] == buf[q + 3];
  }

  /** Every 32-bit read clear of a splice sees the old bytes. */
  lemma U32AtSpliceElsewhereAll(buf: seq<byte>, p: nat, bytes: seq<byte>)
    requires p + |bytes| <= |buf|
    ensures forall q: nat :: q + 4 <= |buf| && (q + 4 <= p || p + |bytes| <= q) ==>
      U32At(Splice(buf, p, bytes), q) == U32At(buf, q)
  {
    forall q: nat | q + 4 <= |buf| && (q + 4 <= p || p + |bytes| <= q) {
      U32AtSpliceElsewhere(buf, p, bytes, q);
    }
  }

  /**
   The buffer with the little-endian bytes of `u` written at `p`: the word
   reads back as `u`, and no other byte, hence no word clear of `p`, changes.
   */
  function WriteU32(buf: seq<byte>, p: nat, u: int): (r: seq<byte>)
    requires IsU32(u) && p + 4 <= |buf|
    ensures |r| == |buf|
    ensures forall k :: 0 <= k < |buf| && !(p <= k < p + 4) ==> r[k] == buf[k]
    ensures U32At(r, p) == u
    ensures forall q: nat :: q + 4 <= |buf| && (q + 4 <= p || p + 4 <= q) ==> U32At(r, q) == U32At(buf, q)
  {
    U32AtSplice(buf, p, LeBytes(u));
    U32AtSpliceElsewhereAll(buf, p, LeBytes(u));
    Splice(buf, p, LeBytes(u))
  }
}
