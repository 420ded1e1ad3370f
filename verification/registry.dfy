/**
 The variable registry of `src/save_file_parser.rs`: the fixed layout of one
 slot, and the two variable lists the editor shows.
 */
module Registry {
  import opened SaveDataInfo

  const LevelsCount: u32 := 40
  const MazesCount: u32 := 15

  /** One past the last byte, relative to the slot base, that any variable of the table covers. */
  const SlotExtent: nat := 0x4738

  /** Where one variable lives inside a slot, and its shape. */
  datatype Layout = Layout(offset: u32, intType: SaveDataIntType)

  /** How one variable is named: in the game's save structure, and for the user. */
  datatype Names = Names(variableName: string, variableNameSimple: string)

  /**
   The layout table, copied entry for entry. It is not a partition of the
   slot: `EnterPast` and `OriginalFlag` share an offset, `StageAppleNum` is out
   of sequence, and `FigureDisplayInfoCollab` runs over `JukeBoxBGMCollab`.
   Every entry ends within `SlotExtent` bytes of the slot base, and every
   32-bit field starts on a 4-byte boundary. The entries are listed in four
   parts of 27, in declaration order, so that each part is checked on its own.
   */
  function Table(v: SaveDataVar): (l: Layout)
    ensures l.offset + Width(l.intType) <= SlotExtent
    ensures l.intType.U32? || l.intType.I32? || l.intType.Arrayi32? || l.intType.SFigureDisplayInfoArray? ==>
      l.offset % 4 == 0
  {
    if v < 27 then TablePart1(v)
    else if v < 54 then TablePart2(v)
    else if v < 81 then TablePart3(v)
    else TablePart4(v)
  }

  /** Entries 0 to 26 of `Table`. */
  function TablePart1(v: SaveDataVar): (l: Layout)
    requires 0 <= v < 27
    ensures l.offset + Width(l.intType) <= SlotExtent
    ensures l.intType.U32? || l.intType.I32? || l.intType.Arrayi32? || l.intType.SFigureDisplayInfoArray? ==>
      l.offset % 4 == 0
  {
    if v == FileExists then Layout(0x0, Bool)
    else if v == SaveDate then Layout(0x18, ArrayText(16))
    else if v == PlayTimeHours then Layout(0x28, I32)
    else if v == PlayTimeMinutes then Layout(0x2C, I32)
    else if v == PlayTimeSeconds then Layout(0x30, I32)
    else if v == StageFlagList then Layout(0x34, Arrayu8(LevelsCount))
    else if v == ScoreList then Layout(0x80, Arrayi32(LevelsCount))
    else if v == TimeTrialList then Layout(0x1AC, Arrayi32(LevelsCount))
    else if v == TimeTrialCoopList then Layout(0x210, Arrayi32(LevelsCount))
    else if v == FriendsFlagList then Layout(0x404, Arrayu8(9))
    else if v == FriendsTalkList then Layout(0x414, Arrayi32(34))
    else if v == StageMazeFlagList then Layout(0x450, Arrayu8(MazesCount))
    else if v == LastStageId then Layout(0x464, I32)
    else if v == LastGameModeId then Layout(0x468, I32)
    else if v == Lives then Layout(0x46C, I32)
    else if v == MazeFlagList then Layout(0x470, Arrayu8(MazesCount))
    else if v == MazesScoreList then Layout(0x4A4, Arrayi32(MazesCount))
    else if v == FruitsGetNum then Layout(0x56C, I32)
    else if v == CapsuleGetNum then Layout(0x570, I32)
    else if v == MedalGetNum then Layout(0x574, I32)
    else if v == BombDotKillNum then Layout(0x578, I32)
    else if v == DotKillNum then Layout(0x57C, I32)
    else if v == RevRollKillNum then Layout(0x580, I32)
    else if v == ButtBounceKillNum then Layout(0x584, I32)
    else if v == GhostKillNum then Layout(0x588, I32)
    else if v == MagicKeyUnlocked then Layout(0x58C, Bool)
    else /* TrueEnding */ Layout(0x590, Bool)
  }

  /** Entries 27 to 53 of `Table`. */
  function TablePart2(v: SaveDataVar): (l: Layout)
    requires 27 <= v < 54
    ensures l.offset + Width(l.intType) <= SlotExtent
    ensures l.intType.U32? || l.intType.I32? || l.intType.Arrayi32? || l.intType.SFigureDisplayInfoArray? ==>
      l.offset % 4 == 0
  {
    if v == MarathonUnlocked then Layout(0x594, Bool)
    else if v == MarathonHighScore then Layout(0x598, I32)
    else if v == MarathonClear then Layout(0x59C, I32)
    else if v == LastGISaveArea then Layout(0x5A0, I32)
    else if v == LoadInitScene then Layout(0x5A4, I32)
    else if v == DLCApplyFlag then Layout(0x5A8, I32)
    else if v == JukeBoxBGM then Layout(0x5AC, I32)
    else if v == JukeBoxMode then Layout(0x5B0, I32)
    else if v == JukeBoxLoop then Layout(0x5B4, I32)
    else if v == JukeBoxOrder then Layout(0x5B8, I32)
    else if v == JukeBoxFlag then Layout(0x5BC, I32)
    else if v == JukeBoxUnlockFlagList then Layout(0x5C2, Arrayu8(83))
    else if v == MedalNum then Layout(0x640, I32)
    else if v == StageCherryFlag then Layout(0x89C, Arrayi32(35))
    else if v == StageStrawberryFlag then Layout(0x9C8, Arrayi32(35))
    else if v == StageOrangeFlag then Layout(0xAF4, Arrayi32(35))
    else if v == StageAppleFlag then Layout(0xC20, Arrayi32(35))
    else if v == StageMelonFlag then Layout(0xD4C, Arrayi32(35))
    else if v == StageCherryNum then Layout(0xE78, Arrayi32(35))
    else if v == StageStrawberryNum then Layout(0xFA4, Arrayi32(35))
    else if v == StageOrangeNum then Layout(0x10D0, Arrayi32(35))
    else if v == StageAppleNum then Layout(0x1FFC, Arrayi32(35))
    else if v == StageMelonNum then Layout(0x1328, Arrayi32(35))
    else if v == VillageCherryFlag then Layout(0x1454, Arrayi32(26))
    else if v == VillageStrawberryFlag then Layout(0x1610, Arrayi32(29))
    else if v == VillageOrangeFlag then Layout(0x17CC, Arrayi32(17))
    else /* VillageAppleFlag */ Layout(0x1988, Arrayi32(22))
  }

  /** Entries 54 to 80 of `Table`. */
  function TablePart3(v: SaveDataVar): (l: Layout)
    requires 54 <= v < 81
    ensures l.offset + Width(l.intType) <= SlotExtent
    ensures l.intType.U32? || l.intType.I32? || l.intType.Arrayi32? || l.intType.SFigureDisplayInfoArray? ==>
      l.offset % 4 == 0
  {
    if v == VillageMelonFlag then Layout(0x1B44, Arrayi32(32))
    else if v == VillageCherryGetNum then Layout(0x1D00, I32)
    else if v == VillageStrawberryGetNum then Layout(0x1D04, I32)
    else if v == VillageOrangeGetNum then Layout(0x1D08, I32)
    else if v == VillageAppleGetNum then Layout(0x1D0C, I32)
    else if v == VillageMelonGetNum then Layout(0x1D10, I32)
    else if v == VillageGFFlag then Layout(0x1D14, U32)
    else if v == CameraMode then Layout(0x1D18, I32)
    else if v == CameraSpeedY then Layout(0x1D1C, I32)
    else if v == CameraSpeedX then Layout(0x1D20, I32)
    else if v == CameraControlY then Layout(0x1D24, Bool)
    else if v == CameraControlX then Layout(0x1D28, Bool)
    else if v == CameraAssistFlag then Layout(0x1D2C, Bool)
    else if v == CameraYAutoRotateFlag then Layout(0x1D30, Bool)
    else if v == SwimControlY then Layout(0x1D34, Arrayi32(2))
    else if v == MissionRewardFlag then Layout(0x21EC, Arrayi32(LevelsCount + 1))
    else if v == PlayerSkinId then Layout(0x23E0, I32)
    else if v == PlayerSkinId2 then Layout(0x23E4, I32)
    else if v == FigureInfo then Layout(0x23E8, Arrayi32(20))
    else if v == FigureDisplayInfo then Layout(0x2BE8, SFigureDisplayInfoArray(50))
    else if v == GashaFlag then Layout(0x2D78, Arrayi32(100))
    else if v == GashaLotteryNum then Layout(0x2DA8, I32)
    else if v == FlipKillNum then Layout(0x2DAC, I32)
    else if v == SupperHipStunNum then Layout(0x2DB0, I32)
    else if v == SuperDolphinKillNum then Layout(0x2DB4, I32)
    else if v == UnlockStageSelectFlag then Layout(0x2DB8, I32)
    else /* GameLevel */ Layout(0x2DBC, I32)
  }

  /** Entries 81 to 107 of `Table`. */
  function TablePart4(v: SaveDataVar): (l: Layout)
    requires 81 <= v < 108
    ensures l.offset + Width(l.intType) <= SlotExtent
    ensures l.intType.U32? || l.intType.I32? || l.intType.Arrayi32? || l.intType.SFigureDisplayInfoArray? ==>
      l.offset % 4 == 0
  {
    if v == EnterPast then Layout(0x2DC0, Bool)
    else if v == OriginalFlag then Layout(0x2DC0, Arrayi32(3))
    else if v == OriginalStageNum then Layout(0x2DD0, I32)
    else if v == OriginalHighScore then Layout(0x2DD4, I32)
    else if v == PacManiaStageNum then Layout(0x2DD8, I32)
    else if v == PacmaniaHighScore then Layout(0x2DDC, I32)
    else if v == PacAttackLevelNum then Layout(0x2DE0, Arrayi32(4))
    else if v == PacAttackHighScore then Layout(0x2DF0, Arrayi32(4))
    else if v == HelpFlag then Layout(0x2E00, Arrayi32(4))
    else if v == DroneReticleSpeed then Layout(0x2EF4, I32)
    else if v == DroneReticleColor then Layout(0x2EF8, I32)
    else if v == DroneVacuumRangeFlag then Layout(0x2EFC, I32)
    else if v == EarlyBonusFigureFlag then Layout(0x2F00, I32)
    else if v == KeyConfigP1 then Layout(0x2F04, Arrayi32(672))
    else if v == KeyConfigP2 then Layout(0x3984, Arrayi32(672))
    else if v == GashaDLCFlag then Layout(0x4404, Arrayi32(4))
    else if v == FigureInfoDLC then Layout(0x4414, Arrayi32(10))
    else if v == EnterSonic then Layout(0x4454, Bool)
    else if v == VillageSonicFlag then Layout(0x4458, U32)
    else if v == LoadInitSceneCollab then Layout(0x445C, I32)
    else if v == LoadInitSceneKind then Layout(0x4560, I32)
    else if v == LastStageIdCollab then Layout(0x4564, I32)
    else if v == LastStageIdKindCollab then Layout(0x4568, I32)
    else if v == PlayerSkinIdCollab then Layout(0x456C, I32)
    else if v == FigureDisplayInfoCollab then Layout(0x4570, Arrayi32(114))
    else if v == JukeBoxBGMCollab then Layout(0x4638, I32)
    else /* JukeBoxModeCollab */ Layout(0x463C, I32)
  }

  /** The table gives `EnterPast` and `OriginalFlag` the same offset, so a write to one changes the other. */
  lemma EnterPastSharesOriginalFlag()
    ensures Table(EnterPast).offset == Table(OriginalFlag).offset == 0x2DC0
    ensures Table(EnterPast).intType == Bool && Table(OriginalFlag).intType == Arrayi32(3)
  {
  }

  /**
   The 114-element `FigureDisplayInfoCollab` array covers both Sonic jukebox
   settings, which the table places inside it.
   */
  lemma CollabFiguresCoverJukeBox()
    ensures Table(FigureDisplayInfoCollab) == Layout(0x4570, Arrayi32(114))
    ensures 0x4570 < Table(JukeBoxBGMCollab).offset < Table(JukeBoxModeCollab).offset < 0x4570 + 4 * 114
  {
  }

  /** A field name of the game's save structure: the member prefix `m_` and at least one more character. */
  predicate IsFieldName(name: string) {
    |name| > 2 && name[0] == 'm' && name[1] == '_'
  }

  /**
   The field name in the game's save structure and the label the editor
   shows, per variable. Every field name carries the `m_` prefix and every
   label is non-empty. Like the layout, the names are listed in parts.
   */
  function NamesOf(v: SaveDataVar): (n: Names)
    ensures IsFieldName(n.variableName) && |n.variableNameSimple| > 0
  {
    if v < 18 then NamesOfPart1(v)
    else if v < 36 then NamesOfPart2(v)
    else if v < 54 then NamesOfPart3(v)
    else if v < 72 then NamesOfPart4(v)
    else if v < 90 then NamesOfPart5(v)
    else NamesOfPart6(v)
  }

  /** Entries 0 to 17 of `NamesOf`. */
  function NamesOfPart1(v: SaveDataVar): (n: Names)
    requires 0 <= v < 18
    ensures IsFieldName(n.variableName) && |n.variableNameSimple| > 0
  {
    if v == FileExists then Names("m_bExist", "File Exists")
    else if v == SaveDate then Names("m_bDateList", "Last Save Date")
    else if v == PlayTimeHours then Names("m_iPlayHours", "File Hours")
    else if v == PlayTimeMinutes then Names("m_iPlayMinutes", "File Minutes")
    else if v == PlayTimeSeconds then Names("m_iPlaySeconds", "File Seconds")
    else if v == StageFlagList then Names("m_bStageFlagList", "Stage Flags")
    else if v == ScoreList then Names("m_iStageScoreList", "Scores List")
    else if v == TimeTrialList then Names("m_iStageTimeList", "Time Trials List")
    else if v == TimeTrialCoopList then Names("m_iStageTimeListCoop", "Time Trials Coop List")
    else if v == FriendsFlagList then Names("m_bFriendFlagList", "Friends Flag List")
    else if v == FriendsTalkList then Names("m_uFriendTalkList", "Friends Talk List")
    else if v == StageMazeFlagList then Names("m_bStageMazeFlagList", "Maze Unlocked Flags")
    else if v == LastStageId then Names("m_iLastStageId", "Last Stage Id")
    else if v == LastGameModeId then Names("m_iLastGameModeId", "Last Game Mode Id")
    else if v == Lives then Names("m_iStockNum", "Lives")
    else if v == MazeFlagList then Names("m_bMazeFlagList", "Maze Flag List")
    else if v == MazesScoreList then Names("m_iMazeScoreList", "Mazes Score List")
    else /* FruitsGetNum */ Names("m_iFruitsGetNum", "Fruits Get Number")
  }

  /** Entries 18 to 35 of `NamesOf`. */
  function NamesOfPart2(v: SaveDataVar): (n: Names)
    requires 18 <= v < 36
    ensures IsFieldName(n.variableName) && |n.variableNameSimple| > 0
  {
    if v == CapsuleGetNum then Names("m_iCapsuleGetNum", "Capsule Get Number")
    else if v == MedalGetNum then Names("m_iMedalGetNum", "Medal Get Number")
    else if v == BombDotKillNum then Names("m_iBombDotKillNum", "Bomb Dot Kill Number")
    else if v == DotKillNum then Names("m_iPacDotKillNum", "PacDot Kill Number")
    else if v == RevRollKillNum then Names("m_iPacDashKillNum", "Rev Roll Kill Number")
    else if v == ButtBounceKillNum then Names("m_iHipKillNum", "Butt Bounce Kill Number")
    else if v == GhostKillNum then Names("m_iGhostKillNum", "Ghost Kill Number")
    else if v == MagicKeyUnlocked then Names("m_bGetMagicKey", "Magic Key Unlocked")
    else if v == TrueEnding then Names("m_bAllTrueEnding", "True Ending (unused?)")
    else if v == MarathonUnlocked then Names("m_bUnlockMarathon", "Marathon Unlocked (unused?)")
    else if v == MarathonHighScore then Names("m_iMarathonHighScore", "Marathon High Score (unused?)")
    else if v == MarathonClear then Names("m_iMarathonClearFlag", "Marathon Cleared (unused?)")
    else if v == LastGISaveArea then Names("m_iLastGISaveArea", "Last GI Save Area (unused?)")
    else if v == LoadInitScene then Names("m_iLoadInitScene", "Load Init Scene")
    else if v == DLCApplyFlag then Names("m_iDLCApplyFlag", "DLC Apply Flag")
    else if v == JukeBoxBGM then Names("m_iJukeBoxBGMKind", "Jukebox Music")
    else if v == JukeBoxMode then Names("m_iJukeBoxMode", "Jukebox Mode")
    else /* JukeBoxLoop */ Names("m_iJukeBoxLoop", "Jukebox Loop")
  }

  /** Entries 36 to 53 of `NamesOf`. */
  function NamesOfPart3(v: SaveDataVar): (n: Names)
    requires 36 <= v < 54
    ensures IsFieldName(n.variableName) && |n.variableNameSimple| > 0
  {
    if v == JukeBoxOrder then Names("m_iJukeBoxOrder", "Jukebox Order")
    else if v == JukeBoxFlag then Names("m_iJukeBoxFlag", "Jukebox Flag")
    else if v == JukeBoxUnlockFlagList then Names("m_bJukeBoxUnlockFlagList", "Jukebox Flag")
    else if v == MedalNum then Names("m_iMedalNum", "Medals")
    else if v == StageCherryFlag then Names("m_iStageCherryFlag", "Cherries Obtained Bitfield")
    else if v == StageStrawberryFlag then Names("m_iStageStrawberryFlag", "Strawberries Obtained Bitfield")
    else if v == StageOrangeFlag then Names("m_iStageOrangeFlag", "Oranges Obtained Bitfield")
    else if v == StageAppleFlag then Names("m_iStageAppleFlag", "Apples Obtained Bitfield")
    else if v == StageMelonFlag then Names("m_iStageMelonFlag", "Melons Obtained Bitfield")
    else if v == StageCherryNum then Names("m_iStageCherryGetNum", "Cherry Per Level")
    else if v == StageStrawberryNum then Names("m_iStageStrawberryGetNum", "Strawberry Per Level")
    else if v == StageOrangeNum then Names("m_iStageOrangeGetNum", "Orange Per Level")
    else if v == StageAppleNum then Names("m_iStageAppleGetNum", "Apple Per Level")
    else if v == StageMelonNum then Names("m_iStageMelonGetNum", "Melon Per Level")
    else if v == VillageCherryFlag then Names("m_iVillageCherryFlag", "Village Cherry Flags")
    else if v == VillageStrawberryFlag then Names("m_iVillageStrawberryFlag", "Village Strawberry Flags")
    else if v == VillageOrangeFlag then Names("m_iVillageOrangeFlag", "Village Orange Flags")
    else /* VillageAppleFlag */ Names("m_iVillageAppleFlag", "Village Apple Flags")
  }

  /** Entries 54 to 71 of `NamesOf`. */
  function NamesOfPart4(v: SaveDataVar): (n: Names)
    requires 54 <= v < 72
    ensures IsFieldName(n.variableName) && |n.variableNameSimple| > 0
  {
    if v == VillageMelonFlag then Names("m_iVillageMelonFlag", "Village Melon Flags")
    else if v == VillageCherryGetNum then Names("m_iVillageCherryGetNum", "Village Cherries")
    else if v == VillageStrawberryGetNum then Names("m_iVillageStrawberryGetNum", "Village Strawberry")
    else if v == VillageOrangeGetNum then Names("m_iVillageOrangeGetNum", "Village Oranges")
    else if v == VillageAppleGetNum then Names("m_iVillageAppleGetNum", "Village Apples")
    else if v == VillageMelonGetNum then Names("m_iVillageMelonGetNum", "Village Melons")
    else if v == VillageGFFlag then Names("m_iVillageGFFlag", "Village GF Bitfield")
    else if v == CameraMode then Names("m_iCameraMode", "Camera Mode")
    else if v == CameraSpeedY then Names("m_iCameraSpeedUD", "Camera Sensitivity Y")
    else if v == CameraSpeedX then Names("m_iCameraSpeedLR", "Camera Sensitivity X")
    else if v == CameraControlY then Names("m_iCameraControlUD", "Reverse Vertical Camera")
    else if v == CameraControlX then Names("m_iCameraControlLR", "Reverse Horizontal Camera")
    else if v == CameraAssistFlag then Names("m_iCameraAssistFlag", "Disable Camera Assist")
    else if v == CameraYAutoRotateFlag then Names("m_iCameraYAutoRotFlag", "Disable Player Tracking Camera")
    else if v == SwimControlY then Names("m_iSwimControlUD", "Reverse Vertical Swim Control (?)")
    else if v == MissionRewardFlag then Names("m_iMissionRewardFlag", "Mission Reward Flags")
    else if v == PlayerSkinId then Names("m_iPlayerSkinId", "Player Skin")
    else /* PlayerSkinId2 */ Names("m_iPlayerSkinId", "Player Skin P2")
  }

  /** Entries 72 to 89 of `NamesOf`. */
  function NamesOfPart5(v: SaveDataVar): (n: Names)
    requires 72 <= v < 90
    ensures IsFieldName(n.variableName) && |n.variableNameSimple| > 0
  {
    if v == FigureInfo then Names("m_sFigureInfo", "Figure Info")
    else if v == FigureDisplayInfo then Names("m_sFigureDisplayInfo", "Figure Display Info")
    else if v == GashaFlag then Names("m_iGashaFlag", "Gasha Flag List")
    else if v == GashaLotteryNum then Names("m_iGashaLotteryNum", "Gasha Lottery Number")
    else if v == FlipKillNum then Names("m_iFlipKillNum", "Flip Kill Number")
    else if v == SupperHipStunNum then Names("m_iSuperHipStunNum", "Super Butt Bounce Stun Number")
    else if v == SuperDolphinKillNum then Names("m_iSuperDolphinKillNum", "Super Dolphin Kick Kill Number")
    else if v == UnlockStageSelectFlag then Names("m_uUnlockStageSelectFlag", "Unlock Stage Select Bitfield")
    else if v == GameLevel then Names("m_iGameLevel", "Game Level")
    else if v == EnterPast then Names("m_bEnterPast", "Enter Past")
    else if v == OriginalFlag then Names("m_iOriginalFlag", "Pac-Man Flags")
    else if v == OriginalStageNum then Names("m_iOriginalStageNum", "Pac-Man Best Stage")
    else if v == OriginalHighScore then Names("m_iOriginalHighScore", "Pac-Man High Score")
    else if v == PacManiaStageNum then Names("m_iPacManiaStageNum", "Pac-Mania Best Stage")
    else if v == PacmaniaHighScore then Names("m_iPacManiaHighScore", "Pac-Mania High Score")
    else if v == PacAttackLevelNum then Names("m_iPacAttackLevelNum", "Pac-Attack Best Level")
    else if v == PacAttackHighScore then Names("m_iPacAttackHighScore", "Pac-Attack High Score")
    else /* HelpFlag */ Names("m_iHelpFlag", "Help Flags")
  }

  /** Entries 90 to 107 of `NamesOf`. */
  function NamesOfPart6(v: SaveDataVar): (n: Names)
    requires 90 <= v < 108
    ensures IsFieldName(n.variableName) && |n.variableNameSimple| > 0
  {
    if v == DroneReticleSpeed then Names("m_iDroneReticleSpeed", "Drone Reticle Speed")
    else if v == DroneReticleColor then Names("m_iDroneReticleColor", "Drone Reticle Color")
    else if v == DroneVacuumRangeFlag then Names("m_iDroneVacuumRangeFlag", "Drone Vacuum Range Flag")
    else if v == EarlyBonusFigureFlag then Names("m_iEarlyBonusFigureFlag", "Early Access Bonus Figure")
    else if v == KeyConfigP1 then Names("m_keyconfigSave1P", "Inputs Config")
    else if v == KeyConfigP2 then Names("m_keyconfigSave2P", "Inputs Config Player 2")
    else if v == GashaDLCFlag then Names("m_iGashaDLCFlag", "Gasha DLC Flag")
    else if v == FigureInfoDLC then Names("m_sFigureInfoDLC", "Figure Info DLC")
    else if v == EnterSonic then Names("m_bEnterSonic", "Enter Sonic")
    else if v == VillageSonicFlag then Names("m_uVillageSonicFlag", "Village Sonic Flag")
    else if v == LoadInitSceneCollab then Names("m_iLoadInitSceneCollabo", "Load Init Scene (Sonic)")
    else if v == LoadInitSceneKind then Names("m_iLoadInitSceneKind", "Load Init Scene Kind")
    else if v == LastStageIdCollab then Names("m_iLastStageIdCollabo", "Last Stage ID (Sonic)")
    else if v == LastStageIdKindCollab then Names("m_iLastStageIdKind", "Last Stage ID Kind (Sonic)")
    else if v == PlayerSkinIdCollab then Names("m_iPlayerSkinIdCollabo", "Player Skin (Sonic)")
    else if v == FigureDisplayInfoCollab then Names("m_iFigureDisplayInfoCollabo", "Figure Display Info (Sonic)")
    else if v == JukeBoxBGMCollab then Names("m_iJukeBoxBGMKindCollabo", "Jukebox Music (Sonic)")
    else /* JukeBoxModeCollab */ Names("m_iJukeBoxModeCollabo", "Jukebox Mode (Sonic)")
  }

  /**
   `get_save_file_variable`: the descriptor of `v` in `slot`, built from the
   table and the slot resolver alone.
   */
  function GetSaveFileVariable(v: SaveDataVar, slot: u8): (d: SaveFileData)
    ensures d.variable == v
    ensures d.slotBaseAdd == SlotBase(slot)
  {
    var l, n := Table(v), NamesOf(v);
    SaveFileData(v, n.variableName, n.variableNameSimple, SlotBase(slot), l.offset, l.intType)
  }
}
