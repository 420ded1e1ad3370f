/**
 Reading typed values out of a raw save buffer and writing them back. Every
 field sits at `slot base + offset`; its shape fixes how many bytes it spans
 and how they are read. Rust index panics become preconditions; the size
 guard that two of the decoders apply is modelled as it is written.
 */
module Codec {
  import opened Bytes
  import opened Utf8
  import opened SaveDataInfo

  /** `EXPECTED_SAVE_FILE_SIZE`: the length of a complete save file, in bytes. */
  const ExpectedSaveFileSize: nat := 176_608

  /**
   One record of a figure display array: an `i32` id and an `f32` angle. The
   angle is kept as its 32-bit pattern, which is what `f32::from_le_bytes`
   reads; its value as a float is not modelled.
   */
  datatype SFigureDisplayInfo = SFigureDisplayInfo(figureId: int, angleBits: int)

  /** The absolute position of a field, the two `u32`s added as `usize`. */
  function Pos(slotBase: u32, offset: u32): nat {
    slotBase + offset
  }

  /** Shapes that `get_int_value_from_save_data` reads. */
  predicate IsScalar(t: SaveDataIntType) {
    t.Bool? || t.U32? || t.I32?
  }

  /** Shapes that `get_int_array_from_save_data` reads. */
  predicate IsIntArray(t: SaveDataIntType) {
    t.Arrayi32? || t.Arrayu8?
  }

  /** True when a buffer passes the decoders' size guard. */
  predicate IsFullSize(buf: seq<byte>) {
    |buf| >= ExpectedSaveFileSize
  }

  /** The field lies inside the buffer. */
  predicate InBounds(buf: seq<byte>, slotBase: u32, offset: u32, t: SaveDataIntType) {
    Pos(slotBase, offset) + Width(t) <= |buf|
  }

  /**
   `get_int_value_from_save_data`: a short buffer or a non-scalar shape
   yields 0; otherwise the byte (Bool), or the four bytes read as unsigned
   (U32) or as two's complement (I32), least significant byte first.
   */
  function GetIntValue(buf: seq<byte>, slotBase: u32, offset: u32, t: SaveDataIntType): (r: int)
    requires !IsFullSize(buf) || !IsScalar(t) || InBounds(buf, slotBase, offset, t)
    ensures !IsFullSize(buf) || !IsScalar(t) ==> r == 0
    ensures t.Bool? ==> 0 <= r < TwoTo8
    ensures t.U32? ==> IsU32(r)
    ensures t.I32? ==> IsI32(r)
    ensures IsFullSize(buf) && IsScalar(t) ==> r % TwoTo8 == buf[Pos(slotBase, offset)]
    ensures IsFullSize(buf) && (t.U32? || t.I32?) ==> r % TwoTo32 == U32At(buf, Pos(slotBase, offset))
  {
    if !IsFullSize(buf) then 0
    else
      var p := Pos(slotBase, offset);
      match t
      case Bool => buf[p]
      case U32 => U32At(buf, p)
      case I32 => I32At(buf, p)
      case _ => 0
  }

  /** The `len` little-endian `i32`s stored back to back from `p`. */
  function ReadI32s(buf: seq<byte>, p: nat, len: nat): (r: seq<int>)
    requires len == 0 || p + 4 * len <= |buf|
    ensures |r| == len
    ensures forall i :: 0 <= i < len ==> r[i] == I32At(buf, p + 4 * i)
    decreases len
  {
    if len == 0 then [] else [I32At(buf, p)] + ReadI32s(buf, p + 4, len - 1)
  }

  /** The `len` bytes from `p`, widened to integers. */
  function ReadU8s(buf: seq<byte>, p: nat, len: nat): (r: seq<int>)
    requires len == 0 || p + len <= |buf|
    ensures |r| == len
    ensures forall i :: 0 <= i < len ==> r[i] == buf[p + i]
    decreases len
  {
    if len == 0 then [] else [buf[p] as int] + ReadU8s(buf, p + 1, len - 1)
  }

  /**
   `get_int_array_from_save_data`: a short buffer or a shape other than the
   two integer arrays yields the empty sequence; otherwise one entry per
   element, in element order. An empty array reads nothing, so its position
   may lie anywhere.
   */
  function GetIntArray(buf: seq<byte>, slotBase: u32, offset: u32, t: SaveDataIntType): (r: seq<int>)
    requires !IsFullSize(buf) || !IsIntArray(t) || t.len == 0 || InBounds(buf, slotBase, offset, t)
    ensures !IsFullSize(buf) || !IsIntArray(t) ==> r == []
    ensures IsFullSize(buf) && IsIntArray(t) ==> |r| == t.len
    ensures IsFullSize(buf) && t.Arrayi32? ==>
      forall i :: 0 <= i < |r| ==> r[i] == I32At(buf, Pos(slotBase, offset) + 4 * i)
    ensures IsFullSize(buf) && t.Arrayu8? ==>
      forall i :: 0 <= i < |r| ==> r[i] == buf[Pos(slotBase, offset) + i]
  {
    if !IsFullSize(buf) then []
    else
      match t
      case Arrayi32(len) => ReadI32s(buf, Pos(slotBase, offset), len)
      case Arrayu8(len) => ReadU8s(buf, Pos(slotBase, offset), len)
      case _ => []
  }

  /** The `len` 8-byte figure records stored back to back from `p`. */
  function ReadFigures(buf: seq<byte>, p: nat, len: nat): (r: seq<SFigureDisplayInfo>)
    requires len == 0 || p + 8 * len <= |buf|
    ensures |r| == len
    ensures forall i :: 0 <= i < len ==>
      && r[i].figureId == I32At(buf, p + 8 * i)
      && r[i].angleBits == U32At(buf, p + 8 * i + 4)
    decreases len
  {
    if len == 0 then []
    else [SFigureDisplayInfo(I32At(buf, p), U32At(buf, p + 4))] + ReadFigures(buf, p + 8, len - 1)
  }

  /**
   `get_figure_info_from_save_data`: `len` records of stride 8, the id in the
   first four bytes of each and the angle in the next four. There is no size
   guard, so a non-empty array must lie inside the buffer; an empty one reads
   nothing.
   */
  function GetFigureInfo(buf: seq<byte>, slotBase: u32, offset: u32, len: u32): (r: seq<SFigureDisplayInfo>)
    requires len == 0 || InBounds(buf, slotBase, offset, SFigureDisplayInfoArray(len))
    ensures |r| == len
    ensures forall i :: 0 <= i < len ==>
      && r[i].figureId == I32At(buf, Pos(slotBase, offset) + 8 * i)
      && r[i].angleBits == U32At(buf, Pos(slotBase, offset) + 8 * i + 4)
  {
    ReadFigures(buf, Pos(slotBase, offset), len)
  }

  /** The bytes a text field covers. */
  function TextBytes(buf: seq<byte>, slotBase: u32, offset: u32, len: u32): seq<byte>
    requires InBounds(buf, slotBase, offset, ArrayText(len))
  {
    buf[Pos(slotBase, offset) .. Pos(slotBase, offset) + len]
  }

  /** The string `get_text_value_from_save_data` answers when it cannot decode. */
  const ErrorText: string := "Error"

  /**
   `get_text_value_from_save_data`: the exactly `len` bytes of a text field
   decoded as UTF-8, or "Error" when they are not UTF-8 or the shape is not
   text. There is no size guard.
   */
  function GetTextValue(buf: seq<byte>, slotBase: u32, offset: u32, t: SaveDataIntType): (r: string)
    requires t.ArrayText? ==> InBounds(buf, slotBase, offset, t)
    ensures !t.ArrayText? ==> r == ErrorText
    ensures t.ArrayText? && !IsUtf8(TextBytes(buf, slotBase, offset, t.len)) ==> r == ErrorText
    ensures t.ArrayText? && IsUtf8(TextBytes(buf, slotBase, offset, t.len)) ==>
      Encode(r) == TextBytes(buf, slotBase, offset, t.len)
  {
    match t
    case ArrayText(len) =>
      var bytes := TextBytes(buf, slotBase, offset, len);
      if IsUtf8(bytes) then
        EncodeDecode(bytes);
        Decode(bytes)
      else ErrorText
    case _ => ErrorText
  }

  /** The number of bytes `modify_save_data` writes for a shape. */
  function WriteWidth(t: SaveDataIntType): nat {
    match t
    case Bool => 1
    case U32 | I32 | Arrayi32(_) | SFigureDisplayInfoArray(_) => 4
    case Arrayu8(_) => 1
    case ArrayText(_) => 0
  }

  /** Shapes whose write is a 32-bit little-endian word. */
  predicate WritesWord(t: SaveDataIntType) {
    t.U32? || t.I32? || t.Arrayi32? || t.SFigureDisplayInfoArray?
  }

  /**
   `modify_save_data`: Bool writes 1 for a positive value and 0 otherwise;
   U32 writes `value as u32` and I32, an `i32` array element or a figure id
   writes `value as i32`, both little-endian; a `u8` array element writes
   `value as u8`; text is left alone. Position `slotBase + offset` is a `u32`
   addition, which must not overflow, and every write must be in bounds.
   */
  function ModifySaveData(buf: seq<byte>, slotBase: u32, offset: u32, t: SaveDataIntType, value: int): (r: seq<byte>)
    requires IsI64(value)
    requires IsU32(slotBase + offset)
    requires !t.ArrayText? ==> Pos(slotBase, offset) + WriteWidth(t) <= |buf|
    ensures |r| == |buf|
    ensures forall k :: 0 <= k < |buf| && !(Pos(slotBase, offset) <= k < Pos(slotBase, offset) + WriteWidth(t)) ==>
      r[k] == buf[k]
    ensures t.Bool? ==> r[Pos(slotBase, offset)] == (if value > 0 then 1 else 0)
    ensures t.Arrayu8? ==> r[Pos(slotBase, offset)] == AsU8(value)
    ensures WritesWord(t) ==> U32At(r, Pos(slotBase, offset)) == AsU32(value)
    ensures t.ArrayText? ==> r == buf
  {
    var p := Pos(slotBase, offset);
    match t
    case Bool => buf[p := if value > 0 then 1 else 0]
    case U32 => WriteU32(buf, p, AsU32(value))
    // `(value as i32).to_le_bytes()` is the 32-bit pattern of `value as i32`.
    case I32 | Arrayi32(_) | SFigureDisplayInfoArray(_) => WriteU32(buf, p, AsI32(value) % TwoTo32)
    case Arrayu8(_) => buf[p := AsU8(value)]
    case ArrayText(_) => buf
  }
}
