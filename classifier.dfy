/** Deciding whether a response belongs to this analyzer and which of its
    two shapes it holds (Class1.cs, the guard and the branch of Analyze). */
module Classifier {
  import opened Wrappers
  import opened Response

  datatype Shape =
    | PreSelection(opponents: seq<OpponentInfo>)
    | PostSelection(copy: OpponentInfoCopy)
    | Inapplicable

  /** The guard: exactly three candidate opponents, or a chosen opponent. */
  predicate Admitted(resp: Response)
  {
    resp.data.Some? &&
    ((resp.data.value.opponentInfoArray.Some? && |resp.data.value.opponentInfoArray.value| == 3) ||
     resp.data.value.opponentInfoCopy.Some?)
  }

  /** The guard followed by the branch: the array, when present, wins. */
  function Classify(resp: Response): (s: Shape)
    ensures s.Inapplicable? <==> !Admitted(resp)
    ensures s.PreSelection? ==> resp.data.value.opponentInfoArray == Some(s.opponents)
    ensures s.PostSelection? ==>
      resp.data.value.opponentInfoArray.None? &&
      resp.data.value.opponentInfoCopy == Some(s.copy)
  {
    if !Admitted(resp) then Inapplicable
    else match resp.data.value.opponentInfoArray
      case Some(arr) => PreSelection(arr)
      case None => PostSelection(resp.data.value.opponentInfoCopy.value)
  }

  /** A response is ignored exactly when it has no data, or has neither a
      three-element array nor a chosen opponent. */
  lemma NotAdmittedIsInapplicable(resp: Response)
    ensures Classify(resp).Inapplicable? <==>
      resp.data.None? ||
      ((resp.data.value.opponentInfoArray.None? || |resp.data.value.opponentInfoArray.value| != 3) &&
       resp.data.value.opponentInfoCopy.None?)
  {
  }

  /** The array branch is taken whenever the array is present and the guard
      passes, even with a chosen opponent beside it and any array length. */
  lemma ArrayBranchWins(d: Data, arr: seq<OpponentInfo>, c: OpponentInfoCopy)
    requires d.opponentInfoArray == Some(arr) && d.opponentInfoCopy == Some(c)
    ensures Classify(Response(Some(d))) == PreSelection(arr)
  {
  }

  /** A chosen opponent is analysed only when no array came with it. */
  lemma PostSelectionIff(resp: Response, c: OpponentInfoCopy)
    ensures Classify(resp) == PostSelection(c) <==>
      resp.data.Some? && resp.data.value.opponentInfoArray.None? &&
      resp.data.value.opponentInfoCopy == Some(c)
  {
  }
}
