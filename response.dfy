/** The already-parsed team-stadium opponent list response. Only the fields
    Analyze reads are kept; the ones it tests against null are Options. */
module Response {
  import opened Wrappers

  datatype UserInfo = UserInfo(
    name: string,
    singleModePlayCount: int,
    totalLoginDayCount: int)

  /** One of the three candidate opponents offered before selection. */
  datatype OpponentInfo = OpponentInfo(strength: int, userInfo: UserInfo)

  /** One roster slot; trainedCharaId == 0 marks an empty slot. */
  datatype TeamData = TeamData(
    trainedCharaId: int,
    distanceType: int,
    runningStyle: int)

  /** A trained character with its numeric aptitude codes. */
  datatype TrainedChara = TrainedChara(
    trainedCharaId: int,
    properGroundTurf: int,
    properGroundDirt: int,
    properDistanceShort: int,
    properDistanceMile: int,
    properDistanceMiddle: int,
    properDistanceLong: int,
    properRunningStyleNige: int,
    properRunningStyleSenko: int,
    properRunningStyleSashi: int,
    properRunningStyleOikomi: int)

  /** The chosen opponent after selection, with roster and characters. */
  datatype OpponentInfoCopy = OpponentInfoCopy(
    teamDataArray: seq<TeamData>,
    trainedCharaArray: seq<TrainedChara>,
    userInfo: UserInfo)

  datatype Data = Data(
    opponentInfoArray: Option<seq<OpponentInfo>>,
    opponentInfoCopy: Option<OpponentInfoCopy>)

  datatype Response = Response(data: Option<Data>)
}
