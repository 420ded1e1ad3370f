# Save-data core of the pw2repac save editor, in Dafny

This project models the core of a save-file editor for *Pac-Man World 2 Re-Pac*.
A save file is a flat byte buffer. It holds four slot regions, and each
variable sits at `slot base + offset` with a fixed binary shape. The model covers:

- **the slot resolver** (`get_save_slot_base_add`): slot numbers 1 to 4 map to
  bases 0x298, 0x7BC8, 0xF4F8 and 0x16E28; every other number falls back to 0x298.
- **the variable registry** (`get_save_file_variable`): 108 variables, each with
  an offset, a shape and two names. The layout table is copied entry for entry,
  anomalies included. `EnterPast` and `OriginalFlag` share offset 0x2DC0.
  `FigureDisplayInfoCollab` (an `i32` array of 114 at 0x4570) runs over
  `JukeBoxBGMCollab` and `JukeBoxModeCollab`.
- **the two variable lists**: every variable in declaration order, and the
  curated 24-entry basic list.
- **the codec**:
  - the decoders for scalars, integer arrays, 8-byte figure records and UTF-8 text;
  - `modify_save_data`, which writes a value back.

The modules follow the source files:

- `SaveDataInfo` (save_data_info.dfy): `src/save_data_info.rs`.
- `Registry` (registry.dfy) and `VariableLists` (variable_lists.dfy): the
  registry half of `src/save_file_parser.rs`.
- `Codec` (codec.dfy): the codec half of `src/save_file_parser.rs`.
- `Bytes` (bytes.dfy): the little-endian 32-bit layout and Rust's `as` casts.
- `Utf8` (utf8.dfy): UTF-8 as RFC 3629 section 4 defines it. This is the
  well-formedness that `std::str::from_utf8` checks.
- `CodecProperties` (codec_properties.dfy): how writes and reads fit together.
- `SlotLayout` (slot_layout.dfy): how the registry fits in a save file.

Modelling choices:

- A buffer is an immutable `seq<byte>`, and `modify_save_data` returns the new
  buffer.
- A Rust slice or index that would panic becomes a precondition.
- Where the source handles an input (a short buffer, the wrong shape, bytes
  that are not UTF-8), the model returns what the source returns.
- `SaveDataVar` is a fieldless enum. Each variant is modelled by its
  discriminant, which is its declaration position and the order
  `all::<SaveDataVar>()` yields.

## Model

| member | source | states |
|---|---|---|
| SaveDataInfo.SlotBase | src/save_data_info.rs:23-37 | slots 1..4 map to 0x298 + (slot-1)·0x7930; any other slot number falls back to slot 1's base; the base is always one of the four |
| SaveDataInfo.SlotBasesIncrease | src/save_data_info.rs:24-28 | slot bases strictly increase with the slot number, exactly 0x7930 bytes per slot apart |
| Bytes.U32At | src/save_file_parser.rs:103-107 | `u32::from_le_bytes` yields a `u32` whose low byte is the first byte read |
| Bytes.I32At | src/save_file_parser.rs:109-113 | `i32::from_le_bytes` yields an `i32` with the same 32-bit pattern as the unsigned reading |
| Bytes.LeBytes | src/save_file_parser.rs:275 | `to_le_bytes` produces 4 bytes that read back as the value |
| Bytes.LeBytesOfU32At | src/save_file_parser.rs:274-279 | re-encoding the word read at a position gives back exactly those four bytes |
| Bytes.AsU32 | src/save_file_parser.rs:275 | `as u32` gives a `u32` congruent to the value mod 2^32, the identity on `u32`s |
| Bytes.AsI32 | src/save_file_parser.rs:283 | `as i32` gives an `i32` congruent to the value mod 2^32, the identity on `i32`s |
| Bytes.AsU8 | src/save_file_parser.rs:289 | `as u8` gives a byte congruent to the value mod 256, the identity on bytes |
| Bytes.WriteU32 | src/save_file_parser.rs:274-279 | writing 4 LE bytes at p: the word at p reads back as the value; every byte and every word clear of [p, p+4) is unchanged |
| Codec.GetIntValue | src/save_file_parser.rs:92-123 | 0 for a buffer shorter than EXPECTED_SAVE_FILE_SIZE or a non-scalar shape; otherwise Bool in [0,256) equal to the byte, U32 in u32 range, I32 in i32 range, both with the LE word's bit pattern |
| Codec.ReadI32s | src/save_file_parser.rs:135-145 | exactly len entries, entry i is the LE `i32` at p + 4·i |
| Codec.ReadU8s | src/save_file_parser.rs:146-153 | exactly len entries, entry i is the byte at p + i |
| Codec.GetIntArray | src/save_file_parser.rs:125-166 | empty for a short buffer or a non-integer-array shape; otherwise len entries at stride 4 (`i32`) or stride 1 (`u8`); an empty array may sit at any position |
| Codec.ReadFigures | src/save_file_parser.rs:174-186 | exactly len records, record i has the `i32` id at p + 8·i and the angle word at p + 8·i + 4 |
| Codec.GetFigureInfo | src/save_file_parser.rs:168-188 | len records of stride 8 from slot base + offset, id first, angle second; an empty array may sit at any position |
| Codec.GetTextValue | src/save_file_parser.rs:190-210 | "Error" for a non-text shape or bytes that are not UTF-8; otherwise a string whose UTF-8 encoding is exactly the len bytes of the field |
| Codec.ModifySaveData | src/save_file_parser.rs:260-296 | length kept, nothing outside the written bytes changes; Bool stores 1 iff value > 0, else 0; U32, I32, i32-array and figure writes store the value's low 32 bits LE; u8-array stores value mod 256; text leaves the buffer unchanged |
| CodecProperties.BoolRoundTrip | src/save_file_parser.rs:270-273 | a Bool write reads back as 1 for a positive value and 0 otherwise |
| CodecProperties.U32RoundTrip | src/save_file_parser.rs:274-279 | a U32 write reads back as `value as u32`, so an in-range value comes back unchanged |
| CodecProperties.I32RoundTrip | src/save_file_parser.rs:280-287 | an I32 write reads back as `value as i32`, so an in-range value comes back unchanged |
| CodecProperties.SignedAndUnsignedWritesAgree | src/save_file_parser.rs:274-287 | the U32 and I32 branches produce the same buffer for every i64 value |
| CodecProperties.RewriteWordUnchanged | src/save_file_parser.rs:274-287 | writing back the value a U32 or I32 read returned leaves the buffer unchanged |
| CodecProperties.RewriteBoolUnchanged | src/save_file_parser.rs:270-273 | writing back a Bool that holds 0 or 1 leaves the buffer unchanged |
| CodecProperties.TextRoundTrip | src/save_file_parser.rs:197-203 | a text field holding the UTF-8 encoding of a string decodes to that string |
| CodecProperties.I32ArrayElementWrite | src/save_file_parser.rs:280-287 | writing element i of an `i32` array replaces element i with `value as i32`, the decoded array is otherwise unchanged |
| CodecProperties.U8ArrayElementWrite | src/save_file_parser.rs:288-291 | writing element i of a `u8` array replaces element i with `value as u8`, the decoded array is otherwise unchanged |
| CodecProperties.EmptyArraysReadNothing | src/save_file_parser.rs:125-188 | an empty `i32` array, `u8` array or figure array decodes to nothing at every position, in or past the buffer |
| CodecProperties.FigureRecordAfterIdWrite | src/save_file_parser.rs:174-186 | a word write at record i's id changes only that record's id |
| CodecProperties.FigureIdWrite | src/save_file_parser.rs:280-287 | writing record i's id replaces its id with `value as i32`; its angle and every other record are unchanged |
| Utf8.IsUtf8 | src/save_file_parser.rs:200 | the RFC 3629 well-formedness `from_utf8` accepts; well-formed bytes never hold C0, C1 or F5 to FF |
| Utf8.Decode | src/save_file_parser.rs:200-201 | the string `from_utf8` yields on well-formed bytes; it has between a quarter of and as many characters as there are bytes |
| Utf8.DecodeEncode | src/save_file_parser.rs:200-201 | decoding the UTF-8 encoding of any string gives back the string |
| Utf8.EncodeDecode | src/save_file_parser.rs:200-201 | any well-formed UTF-8 byte sequence is the encoding of its decoding |
| Utf8.EncodeScalarRoundTrip | src/save_file_parser.rs:200-201 | the encoding of a scalar value is a well-formed UTF-8 character that decodes back to the value |
| Utf8.CodePointRoundTrip | src/save_file_parser.rs:200-201 | a well-formed UTF-8 character is the encoding of its decoded scalar value |
| Registry.Table | src/save_file_parser.rs:315-1184 | the offset and shape of every match arm; each entry ends within 0x4738 bytes of the slot base, and every 32-bit field starts on a 4-byte boundary |
| Registry.NamesOf | src/save_file_parser.rs:315-1184 | the two names of every match arm; each save-structure name carries the `m_` prefix and each label is non-empty |
| Registry.GetSaveFileVariable | src/save_file_parser.rs:311-1186 | the descriptor is for the requested variable and carries the slot's resolved base |
| Registry.EnterPastSharesOriginalFlag | src/save_file_parser.rs:967-982 | the table places the Bool `EnterPast` and the 3-element `i32` array `OriginalFlag` at the same offset 0x2DC0 |
| Registry.CollabFiguresCoverJukeBox | src/save_file_parser.rs:1161-1184 | `FigureDisplayInfoCollab` is a 114-element `i32` array at 0x4570, and both Sonic jukebox settings start inside it |
| VariableLists.AllVariables | src/save_file_parser.rs:213 | every one of the 108 variables, each at its own discriminant, in declaration order |
| VariableLists.GetAllSaveFileVars | src/save_file_parser.rs:212-219 | 108 descriptors in declaration order, entry v is the registry descriptor of v, all on the same slot base |
| VariableLists.BasicVariablesPositions | src/save_file_parser.rs:221-258 | the basic list has 24 entries and `BasicPosition` inverts it, so no variable is listed twice |
| VariableLists.GetBasicSaveFileVars | src/save_file_parser.rs:221-258 | 24 descriptors in the listed order, pairwise distinct variables, each equal to the entry the full list holds for that variable |
| SlotLayout.SlotExtentReached | src/save_file_parser.rs:1161-1168 | the 0x4738-byte slot extent that bounds every table entry is tight: `FigureDisplayInfoCollab` ends exactly there |
| SlotLayout.RegistryFitsInFile | src/save_file_parser.rs:311-1186 | for every variable and every slot number, slot base + offset + width <= EXPECTED_SAVE_FILE_SIZE (176 608) |
| SlotLayout.SlotsDisjoint | src/save_file_parser.rs:311-1186 | every variable of a lower slot ends before any variable of a higher slot begins |
| SlotLayout.FieldAccessInBounds | src/save_file_parser.rs:98-102 | on a full-size buffer, a field ending by the last slot's extent can be read and written in bounds without `u32` overflow |
| SlotLayout.RegistryAccessInBounds | src/save_file_parser.rs:260-267 | on a full-size buffer, every decoder and `modify_save_data` can be called on any registry entry of any slot without panicking |

## Left out

- Reading and writing the file, locating the save directory, and the
  environment lookups (`get_file_path`, `read_save_file`,
  `write_save_file`). These are I/O.
- `modify_save_data_float` and the `f32` angle of a figure record. Floating
  point is not modelled. The angle is kept as its 32-bit pattern
  (`SFigureDisplayInfo.angleBits`), which is what `f32::from_le_bytes` reads.
- `src/main.rs`: the UI, the global buffer behind a mutex, and the display-name
  helpers (stage, maze, costume and key names). `main.rs` is not part of this
  model apart from the size constant.
- `println!` diagnostics in the fallback and wrong-shape branches. They have
  no effect on the results.
- `EXPECTED_SAVE_FILE_SIZE` is 176 608. The parser imports it from the crate
  root (`src/save_file_parser.rs:5`). The only definition in `src/main.rs` is
  commented out at line 24, and `Codec.ExpectedSaveFileSize` takes its value
  from that line.
- `src/save_data_info.rs` declares only `Lives` and three shapes. The full
  `SaveDataVar` (108 variants) and `SaveDataIntType` (7 shapes) are
  reconstructed from their use in `src/save_file_parser.rs`. The declaration
  order is taken to be the order of the registry's match arms.
- Codec.ModifySaveData: requires that `slot_base_add + offset` does not
  overflow `u32`. A debug build panics there, and a release build wraps to a
  small position. The wrapped write is not modelled.
- Codec.GetIntValue, Codec.GetIntArray, Codec.GetFigureInfo and
  Codec.GetTextValue: reads outside the buffer panic in Rust. The model
  requires every byte they read to be in bounds instead. An empty integer or
  figure array reads nothing and is accepted at any position. An empty text
  field still slices at its position, which panics past the end. SlotLayout.RegistryAccessInBounds
  shows every registry entry meets this on a full-size buffer.
- Registry.GetSaveFileVariable: the ensures state only the variable and the
  base. The offsets, shapes and names are the table itself (`Registry.Table`,
  `Registry.NamesOf`), and the SlotLayout lemmas state what the table
  guarantees.

## Notes on behaviour

- The buffer-size guard exists only in the scalar and integer-array decoders.
  The figure and text decoders have none.
- A Bool decodes to the raw byte, not to 0/1.
- The registry has 108 variables.
