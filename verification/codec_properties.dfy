/**
 How the writer and the readers of the save buffer fit together: what a
 write stores is what the matching read returns, re-writing a value just
 read changes nothing, and an array element write touches that element only.
 */
module CodecProperties {
  import opened Bytes
  import opened Utf8
  import opened SaveDataInfo
  import opened Codec

  /** `modify_save_data` can run: the `u32` addition does not overflow and the write is in bounds. */
  predicate CanWrite(buf: seq<byte>, slotBase: u32, offset: u32, t: SaveDataIntType) {
    IsU32(slotBase + offset) && Pos(slotBase, offset) + WriteWidth(t) <= |buf|
  }

  /** A Bool write is read back as exactly 0 or 1: positive values become 1, the rest 0. */
  lemma BoolRoundTrip(buf: seq<byte>, slotBase: u32, offset: u32, value: int)
    requires IsFullSize(buf) && IsI64(value) && CanWrite(buf, slotBase, offset, Bool)
    ensures GetIntValue(ModifySaveData(buf, slotBase, offset, Bool, value), slotBase, offset, Bool)
      == (if value > 0 then 1 else 0)
  {
  }

  /** A U32 write is read back as the value's low 32 bits, so an in-range value comes back unchanged. */
  lemma U32RoundTrip(buf: seq<byte>, slotBase: u32, offset: u32, value: int)
    requires IsFullSize(buf) && IsI64(value) && CanWrite(buf, slotBase, offset, U32)
    ensures GetIntValue(ModifySaveData(buf, slotBase, offset, U32, value), slotBase, offset, U32) == AsU32(value)
    ensures IsU32(value) ==> GetIntValue(ModifySaveData(buf, slotBase, offset, U32, value), slotBase, offset, U32) == value
  {
  }

  /** An I32 write is read back as `value as i32`, so an in-range value comes back unchanged. */
  lemma I32RoundTrip(buf: seq<byte>, slotBase: u32, offset: u32, value: int)
    requires IsFullSize(buf) && IsI64(value) && CanWrite(buf, slotBase, offset, I32)
    ensures GetIntValue(ModifySaveData(buf, slotBase, offset, I32, value), slotBase, offset, I32) == AsI32(value)
    ensures IsI32(value) ==> GetIntValue(ModifySaveData(buf, slotBase, offset, I32, value), slotBase, offset, I32) == value
  {
  }

  /**
   The U32 branch and the I32 branch of `modify_save_data` store the same
   four bytes for every value: `as u32` and `as i32` keep the same low 32 bits.
   */
  lemma SignedAndUnsignedWritesAgree(buf: seq<byte>, slotBase: u32, offset: u32, value: int)
    requires IsI64(value) && CanWrite(buf, slotBase, offset, U32)
    ensures ModifySaveData(buf, slotBase, offset, U32, value) == ModifySaveData(buf, slotBase, offset, I32, value)
  {
  }

  /** Writing back the value a U32 or I32 read returned leaves the buffer as it was. */
  lemma RewriteWordUnchanged(buf: seq<byte>, slotBase: u32, offset: u32, t: SaveDataIntType)
    requires t.U32? || t.I32?
    requires IsFullSize(buf) && CanWrite(buf, slotBase, offset, t)
    ensures ModifySaveData(buf, slotBase, offset, t, GetIntValue(buf, slotBase, offset, t)) == buf
  {
    var p := Pos(slotBase, offset);
    var u := U32At(buf, p);
    LeBytesOfU32At(buf, p);
    assert buf == buf[..p] + buf[p..p + 4] + buf[p + 4..];
    if t.I32? {
      assert AsI32(I32At(buf, p)) % TwoTo32 == u;
    }
  }

  /** Writing back a Bool that holds 0 or 1 leaves the buffer as it was. */
  lemma RewriteBoolUnchanged(buf: seq<byte>, slotBase: u32, offset: u32)
    requires IsFullSize(buf) && CanWrite(buf, slotBase, offset, Bool)
    requires buf[Pos(slotBase, offset)] <= 1
    ensures ModifySaveData(buf, slotBase, offset, Bool, GetIntValue(buf, slotBase, offset, Bool)) == buf
  {
  }

  /** A text field holding the UTF-8 encoding of a string reads back as that string. */
  lemma TextRoundTrip(buf: seq<byte>, slotBase: u32, offset: u32, len: u32, s: string)
    requires InBounds(buf, slotBase, offset, ArrayText(len))
    requires TextBytes(buf, slotBase, offset, len) == Encode(s)
    ensures GetTextValue(buf, slotBase, offset, ArrayText(len)) == s
  {
    DecodeEncode(s);
  }

  /**
   An element write at `offset + 4 * i` into an `i32` array changes element
   `i` to `value as i32` and no other.
   */
  lemma I32ArrayElementWrite(buf: seq<byte>, slotBase: u32, offset: u32, len: u32, i: nat, value: int)
    requires IsFullSize(buf) && IsI64(value) && i < len
    requires InBounds(buf, slotBase, offset, Arrayi32(len))
    requires IsU32(slotBase + offset + 4 * i)
    ensures
      var r := ModifySaveData(buf, slotBase, offset + 4 * i, Arrayi32(len), value);
      GetIntArray(r, slotBase, offset, Arrayi32(len)) == GetIntArray(buf, slotBase, offset, Arrayi32(len))[i := AsI32(value)]
  {
    var p := Pos(slotBase, offset);
    var r := ModifySaveData(buf, slotBase, offset + 4 * i, Arrayi32(len), value);
    var before := ReadI32s(buf, p, len);
    var after := ReadI32s(r, p, len);
    forall j | 0 <= j < len
      ensures after[j] == before[i := AsI32(value)][j]
    {
    }
  }

  /** Writing element `i` of a `u8` array changes that element to `value as u8` and no other. */
  lemma U8ArrayElementWrite(buf: seq<byte>, slotBase: u32, offset: u32, len: u32, i: nat, value: int)
    requires IsFullSize(buf) && IsI64(value) && i < len
    requires InBounds(buf, slotBase, offset, Arrayu8(len))
    requires IsU32(slotBase + offset + i)
    ensures
      var r := ModifySaveData(buf, slotBase, offset + i, Arrayu8(len), value);
      GetIntArray(r, slotBase, offset, Arrayu8(len)) == GetIntArray(buf, slotBase, offset, Arrayu8(len))[i := AsU8(value)]
  {
    var r := ModifySaveData(buf, slotBase, offset + i, Arrayu8(len), value);
    var before := GetIntArray(buf, slotBase, offset, Arrayu8(len));
    var after := GetIntArray(r, slotBase, offset, Arrayu8(len));
    assert |after| == |before[i := AsU8(value)]|;
    forall j | 0 <= j < len
      ensures after[j] == before[i := AsU8(value)][j]
    {
    }
  }

  /**
   An empty array reads no byte, so it decodes to nothing wherever it is
   placed, even past the end of the buffer.
   */
  lemma EmptyArraysReadNothing(buf: seq<byte>, slotBase: u32, offset: u32)
    ensures GetIntArray(buf, slotBase, offset, Arrayi32(0)) == []
    ensures GetIntArray(buf, slotBase, offset, Arrayu8(0)) == []
    ensures GetFigureInfo(buf, slotBase, offset, 0) == []
  {
  }

  /** A word write at record `i`'s id changes that id only. */
  lemma FigureRecordAfterIdWrite(buf: seq<byte>, p: nat, len: nat, i: nat, j: nat, u: int)
    requires p + 8 * len <= |buf| && i < len && j < len && IsU32(u)
    ensures
      var before := ReadFigures(buf, p, len);
      var after := ReadFigures(WriteU32(buf, p + 8 * i, u), p, len);
      after[j] == if j == i then before[j].(figureId := ToI32(u)) else before[j]
  {
    var r := WriteU32(buf, p + 8 * i, u);
    var before := ReadFigures(buf, p, len);
    var after := ReadFigures(r, p, len);
    var q := p + 8 * j;
    if j == i {
      assert after[j].figureId == ToI32(U32At(r, q));
    } else {
      assert U32At(r, q) == U32At(buf, q);
    }
    assert U32At(r, q + 4) == U32At(buf, q + 4);
  }

  /**
   A word write at `offset + 8 * i` into a figure array changes record `i`'s
   id to `value as i32`; its angle and every other record stay as they were.
   */
  lemma FigureIdWrite(buf: seq<byte>, slotBase: u32, offset: u32, len: u32, i: nat, value: int)
    requires IsI64(value) && i < len
    requires InBounds(buf, slotBase, offset, SFigureDisplayInfoArray(len))
    requires IsU32(slotBase + offset + 8 * i)
    ensures
      var r := ModifySaveData(buf, slotBase, offset + 8 * i, SFigureDisplayInfoArray(len), value);
      var before := GetFigureInfo(buf, slotBase, offset, len);
      GetFigureInfo(r, slotBase, offset, len) == before[i := before[i].(figureId := AsI32(value))]
  {
    var p := Pos(slotBase, offset);
    var u := AsI32(value) % TwoTo32;
    var r := ModifySaveData(buf, slotBase, offset + 8 * i, SFigureDisplayInfoArray(len), value);
    assert r == WriteU32(buf, p + 8 * i, u);
    var before := ReadFigures(buf, p, len);
    var after := ReadFigures(r, p, len);
    var expected := before[i := before[i].(figureId := AsI32(value))];
    assert |after| == |expected| == len;
    forall j | 0 <= j < len
      ensures after[j] == expected[j]
    {
      FigureRecordAfterIdWrite(buf, p, len, i, j, u);
    }
  }
}
