/**
 The slot resolver and the records that describe one save-file variable
 (`src/save_data_info.rs`, with the shape and variable enumerations extended
 to the ones `src/save_file_parser.rs` uses).
 */
module SaveDataInfo {

  /** A Rust `u8`. */
  type u8 = x: int | 0 <= x < 0x100

  /** A Rust `u32`. */
  type u32 = x: int | 0 <= x < 0x1_0000_0000

  /** The first slot's base offset; every slot region is `SlotStride` bytes long. */
  const Slot1Base: u32 := 0x298
  const SlotStride: int := 0x7930

  /**
   `get_save_slot_base_add`: slots 1 to 4 map to their fixed region bases, any
   other slot number falls back to slot 1 (after a diagnostic the model omits).
   */
  function SlotBase(slot: u8): (base: u32)
    ensures 1 <= slot <= 4 ==> base == Slot1Base + (slot - 1) * SlotStride
    ensures !(1 <= slot <= 4) ==> base == Slot1Base
    ensures base in {0x298, 0x7BC8, 0xF4F8, 0x16E28}
  {
    match slot
    case 1 => 0x298
    case 2 => 0x7BC8
    case 3 => 0xF4F8
    case 4 => 0x16E28
    case _ => 0x298
  }

  /**
   The four slot regions are laid out in slot order, `SlotStride` bytes apart,
   so distinct valid slots have distinct bases.
   */
  lemma SlotBasesIncrease(s1: u8, s2: u8)
    requires 1 <= s1 < s2 <= 4
    ensures SlotBase(s1) < SlotBase(s2)
    ensures SlotBase(s2) - SlotBase(s1) == (s2 - s1) * SlotStride
  {
  }

  /** The binary shape of a variable; array shapes carry their element count. */
  datatype SaveDataIntType =
    | Bool
    | U32
    | I32
    | Arrayi32(len: u32)
    | ArrayText(len: u32)
    | Arrayu8(len: u32)
    | SFigureDisplayInfoArray(len: u32)

  /** The number of bytes a variable of this shape occupies in a slot. */
  function Width(t: SaveDataIntType): nat {
    match t
    case Bool => 1
    case U32 => 4
    case I32 => 4
    case Arrayi32(n) => 4 * n
    case ArrayText(n) => n
    case Arrayu8(n) => n
    case SFigureDisplayInfoArray(n) => 8 * n
  }

  /**
   The closed set of variables the editor knows. `SaveDataVar` is a fieldless
   enum, so each variant is modelled by its discriminant: its position in
   declaration order, which is also the order `all::<SaveDataVar>()` yields.
   */
  type SaveDataVar = i: int | 0 <= i < VariableCount

  /** The number of variants of `SaveDataVar`. */
  const VariableCount: nat := 108

  const FileExists: SaveDataVar := 0
  const SaveDate: SaveDataVar := 1
  const PlayTimeHours: SaveDataVar := 2
  const PlayTimeMinutes: SaveDataVar := 3
  const PlayTimeSeconds: SaveDataVar := 4
  const StageFlagList: SaveDataVar := 5
  const ScoreList: SaveDataVar := 6
  const TimeTrialList: SaveDataVar := 7
  const TimeTrialCoopList: SaveDataVar := 8
  const FriendsFlagList: SaveDataVar := 9
  const FriendsTalkList: SaveDataVar := 10
  const StageMazeFlagList: SaveDataVar := 11
  const LastStageId: SaveDataVar := 12
  const LastGameModeId: SaveDataVar := 13
  const Lives: SaveDataVar := 14
  const MazeFlagList: SaveDataVar := 15
  const MazesScoreList: SaveDataVar := 16
  const FruitsGetNum: SaveDataVar := 17
  const CapsuleGetNum: SaveDataVar := 18
  const MedalGetNum: SaveDataVar := 19
  const BombDotKillNum: SaveDataVar := 20
  const DotKillNum: SaveDataVar := 21
  const RevRollKillNum: SaveDataVar := 22
  const ButtBounceKillNum: SaveDataVar := 23
  const GhostKillNum: SaveDataVar := 24
  const MagicKeyUnlocked: SaveDataVar := 25
  const TrueEnding: SaveDataVar := 26
  const MarathonUnlocked: SaveDataVar := 27
  const MarathonHighScore: SaveDataVar := 28
  const MarathonClear: SaveDataVar := 29
  const LastGISaveArea: SaveDataVar := 30
  const LoadInitScene: SaveDataVar := 31
  const DLCApplyFlag: SaveDataVar := 32
  const JukeBoxBGM: SaveDataVar := 33
  const JukeBoxMode: SaveDataVar := 34
  const JukeBoxLoop: SaveDataVar := 35
  const JukeBoxOrder: SaveDataVar := 36
  const JukeBoxFlag: SaveDataVar := 37
  const JukeBoxUnlockFlagList: SaveDataVar := 38
  const MedalNum: SaveDataVar := 39
  const StageCherryFlag: SaveDataVar := 40
  const StageStrawberryFlag: SaveDataVar := 41
  const StageOrangeFlag: SaveDataVar := 42
  const StageAppleFlag: SaveDataVar := 43
  const StageMelonFlag: SaveDataVar := 44
  const StageCherryNum: SaveDataVar := 45
  const StageStrawberryNum: SaveDataVar := 46
  const StageOrangeNum: SaveDataVar := 47
  const StageAppleNum: SaveDataVar := 48
  const StageMelonNum: SaveDataVar := 49
  const VillageCherryFlag: SaveDataVar := 50
  const VillageStrawberryFlag: SaveDataVar := 51
  const VillageOrangeFlag: SaveDataVar := 52
  const VillageAppleFlag: SaveDataVar := 53
  const VillageMelonFlag: SaveDataVar := 54
  const VillageCherryGetNum: SaveDataVar := 55
  const VillageStrawberryGetNum: SaveDataVar := 56
  const VillageOrangeGetNum: SaveDataVar := 57
  const VillageAppleGetNum: SaveDataVar := 58
  const VillageMelonGetNum: SaveDataVar := 59
  const VillageGFFlag: SaveDataVar := 60
  const CameraMode: SaveDataVar := 61
  const CameraSpeedY: SaveDataVar := 62
  const CameraSpeedX: SaveDataVar := 63
  const CameraControlY: SaveDataVar := 64
  const CameraControlX: SaveDataVar := 65
  const CameraAssistFlag: SaveDataVar := 66
  const CameraYAutoRotateFlag: SaveDataVar := 67
  const SwimControlY: SaveDataVar := 68
  const MissionRewardFlag: SaveDataVar := 69
  const PlayerSkinId: SaveDataVar := 70
  const PlayerSkinId2: SaveDataVar := 71
  const FigureInfo: SaveDataVar := 72
  const FigureDisplayInfo: SaveDataVar := 73
  const GashaFlag: SaveDataVar := 74
  const GashaLotteryNum: SaveDataVar := 75
  const FlipKillNum: SaveDataVar := 76
  const SupperHipStunNum: SaveDataVar := 77
  const SuperDolphinKillNum: SaveDataVar := 78
  const UnlockStageSelectFlag: SaveDataVar := 79
  const GameLevel: SaveDataVar := 80
  const EnterPast: SaveDataVar := 81
  const OriginalFlag: SaveDataVar := 82
  const OriginalStageNum: SaveDataVar := 83
  const OriginalHighScore: SaveDataVar := 84
  const PacManiaStageNum: SaveDataVar := 85
  const PacmaniaHighScore: SaveDataVar := 86
  const PacAttackLevelNum: SaveDataVar := 87
  const PacAttackHighScore: SaveDataVar := 88
  const HelpFlag: SaveDataVar := 89
  const DroneReticleSpeed: SaveDataVar := 90
  const DroneReticleColor: SaveDataVar := 91
  const DroneVacuumRangeFlag: SaveDataVar := 92
  const EarlyBonusFigureFlag: SaveDataVar := 93
  const KeyConfigP1: SaveDataVar := 94
  const KeyConfigP2: SaveDataVar := 95
  const GashaDLCFlag: SaveDataVar := 96
  const FigureInfoDLC: SaveDataVar := 97
  const EnterSonic: SaveDataVar := 98
  const VillageSonicFlag: SaveDataVar := 99
  const LoadInitSceneCollab: SaveDataVar := 100
  const LoadInitSceneKind: SaveDataVar := 101
  const LastStageIdCollab: SaveDataVar := 102
  const LastStageIdKindCollab: SaveDataVar := 103
  const PlayerSkinIdCollab: SaveDataVar := 104
  const FigureDisplayInfoCollab: SaveDataVar := 105
  const JukeBoxBGMCollab: SaveDataVar := 106
  const JukeBoxModeCollab: SaveDataVar := 107

  /** The descriptor of one variable in one slot. */
  datatype SaveFileData = SaveFileData(
    variable: SaveDataVar,
    variableName: string,
    variableNameSimple: string,
    slotBaseAdd: u32,
    offset: u32,
    intType: SaveDataIntType)
}
