/**
 How the registry's layout sits inside a save file: every variable of every
 slot lies inside a file of `EXPECTED_SAVE_FILE_SIZE` bytes, slots do not
 overlap, and so every read and write the editor issues for a registry entry
 on a full-size buffer is in bounds.
 */
module SlotLayout {
  import opened Bytes
  import opened SaveDataInfo
  import opened Registry
  import opened Codec

  /** The byte range `[start, end)` a registry entry covers in the file. */
  function Start(d: SaveFileData): nat {
    d.slotBaseAdd + d.offset
  }

  function End(d: SaveFileData): nat {
    d.slotBaseAdd + d.offset + Width(d.intType)
  }

  /** `SlotExtent` is tight: `FigureDisplayInfoCollab` ends exactly there. */
  lemma SlotExtentReached()
    ensures Table(FigureDisplayInfoCollab).offset + Width(Table(FigureDisplayInfoCollab).intType) == SlotExtent
  {
  }

  /**
   The safety property of the layout: for every variable and every slot
   number, including the ones that fall back to slot 1, the variable lies
   inside a file of `EXPECTED_SAVE_FILE_SIZE` bytes.
   */
  lemma RegistryFitsInFile(v: SaveDataVar, slot: u8)
    ensures End(GetSaveFileVariable(v, slot)) <= ExpectedSaveFileSize
  {
  }

  /**
   Slots do not overlap: a slot's table fits within the spacing between
   slot bases, so a variable of a lower slot ends before any variable of a
   higher slot starts.
   */
  lemma SlotsDisjoint(v: SaveDataVar, w: SaveDataVar, s1: u8, s2: u8)
    requires SlotBase(s1) < SlotBase(s2)
    ensures End(GetSaveFileVariable(v, s1)) <= Start(GetSaveFileVariable(w, s2))
  {
  }

  /** The last slot's base plus the slot extent: no registry variable reaches past this byte. */
  const LayoutEnd: nat := 0x16E28 + SlotExtent

  /** Any field ending by `LayoutEnd` can be read and written on a full-size buffer. */
  lemma FieldAccessInBounds(buf: seq<byte>, slotBase: u32, offset: u32, t: SaveDataIntType)
    requires IsFullSize(buf)
    requires slotBase + offset + Width(t) <= LayoutEnd
    ensures InBounds(buf, slotBase, offset, t)
    ensures IsU32(slotBase + offset)
    ensures Pos(slotBase, offset) + WriteWidth(t) <= |buf|
  {
  }

  /**
   On a buffer of at least `EXPECTED_SAVE_FILE_SIZE` bytes, every decoder
   and `modify_save_data` can be called with any registry entry: the field
   is in bounds and the `u32` position does not overflow.
   */
  lemma RegistryAccessInBounds(buf: seq<byte>, v: SaveDataVar, slot: u8)
    requires IsFullSize(buf)
    ensures
      var d := GetSaveFileVariable(v, slot);
      && InBounds(buf, d.slotBaseAdd, d.offset, d.intType)
      && IsU32(d.slotBaseAdd + d.offset)
      && Pos(d.slotBaseAdd, d.offset) + WriteWidth(d.intType) <= |buf|
  {
    var d := GetSaveFileVariable(v, slot);
    FieldAccessInBounds(buf, d.slotBaseAdd, d.offset, d.intType);
  }
}
