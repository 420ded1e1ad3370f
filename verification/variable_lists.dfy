/**
 The two variable lists of `src/save_file_parser.rs`: every variable in
 declaration order, and the curated basic list.
 */
module VariableLists {
  import opened SaveDataInfo
  import opened Registry

  /** Every variable, in declaration order: what `all::<SaveDataVar>()` yields. */
  function AllVariables(): (r: seq<SaveDataVar>)
    ensures |r| == VariableCount
    ensures forall v: SaveDataVar :: r[v] == v
  {
    seq(VariableCount, i requires 0 <= i < VariableCount => i)
  }

  /** The curated list, in the order `get_basic_save_file_vars` pushes its entries. */
  function BasicVariables(): seq<SaveDataVar> {
    [ PlayTimeHours, PlayTimeMinutes, PlayTimeSeconds, ScoreList, TimeTrialList,
      StageMazeFlagList, MazesScoreList, Lives, MagicKeyUnlocked, JukeBoxBGM,
      JukeBoxBGMCollab, MedalNum, CameraSpeedX, CameraSpeedY, CameraControlX,
      CameraControlY, CameraAssistFlag, CameraYAutoRotateFlag, KeyConfigP1, PlayerSkinId,
      PlayerSkinIdCollab, OriginalHighScore, PacmaniaHighScore, PacAttackHighScore ]
  }

  /** The position of a variable in the basic list, or -1 when it is not listed. */
  function BasicPosition(v: SaveDataVar): int {
    if v == PlayTimeHours then 0
    else if v == PlayTimeMinutes then 1
    else if v == PlayTimeSeconds then 2
    else if v == ScoreList then 3
    else if v == TimeTrialList then 4
    else if v == StageMazeFlagList then 5
    else if v == MazesScoreList then 6
    else if v == Lives then 7
    else if v == MagicKeyUnlocked then 8
    else if v == JukeBoxBGM then 9
    else if v == JukeBoxBGMCollab then 10
    else if v == MedalNum then 11
    else if v == CameraSpeedX then 12
    else if v == CameraSpeedY then 13
    else if v == CameraControlX then 14
    else if v == CameraControlY then 15
    else if v == CameraAssistFlag then 16
    else if v == CameraYAutoRotateFlag then 17
    else if v == KeyConfigP1 then 18
    else if v == PlayerSkinId then 19
    else if v == PlayerSkinIdCollab then 20
    else if v == OriginalHighScore then 21
    else if v == PacmaniaHighScore then 22
    else if v == PacAttackHighScore then 23
    else -1
  }

  /** `BasicPosition` inverts the basic list, so the list holds 24 variables, none of them twice. */
  lemma BasicVariablesPositions()
    ensures |BasicVariables()| == 24
    ensures forall i :: 0 <= i < |BasicVariables()| ==> BasicPosition(BasicVariables()[i]) == i
  {
  }

  /**
   `get_all_save_file_vars`: one descriptor per variable, in declaration
   order, all resolved against the same slot.
   */
  function GetAllSaveFileVars(slot: u8): (r: seq<SaveFileData>)
    ensures |r| == VariableCount
    ensures forall v: SaveDataVar :: r[v] == GetSaveFileVariable(v, slot)
    ensures forall i :: 0 <= i < |r| ==> r[i].variable == i && r[i].slotBaseAdd == SlotBase(slot)
  {
    var all := AllVariables();
    seq(|all|, i requires 0 <= i < |all| => GetSaveFileVariable(all[i], slot))
  }

  /**
   `get_basic_save_file_vars`: the 24 listed variables in the listed order,
   no variable twice, each descriptor the same one the full list holds.
   */
  function GetBasicSaveFileVars(slot: u8): (r: seq<SaveFileData>)
    ensures |r| == 24
    ensures forall i :: 0 <= i < |r| ==> r[i].variable == BasicVariables()[i]
    ensures forall i, j :: 0 <= i < j < |r| ==> r[i].variable != r[j].variable
    ensures forall i :: 0 <= i < |r| ==> r[i] == GetAllSaveFileVars(slot)[r[i].variable]
  {
    BasicVariablesPositions();
    var basic := BasicVariables();
    seq(|basic|, i requires 0 <= i < |basic| => GetSaveFileVariable(basic[i], slot))
  }
}
