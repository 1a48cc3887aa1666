/** The aptitude grade scale and the local function GetProper of
    Class1.cs, which turns a numeric aptitude code into its letter. */
module Grades {
  import opened Wrappers

  /** The exceptions that abort the analysis of one response. */
  datatype Error =
    | InvalidGrade(proper: int)          // GetProper's NotImplementedException
    | NoDistanceArm(distanceType: int)   // switch on distance_type without a matching arm
    | NoStyleArm(runningStyle: int)      // switch on running_style without a matching arm

  /** The letters from worst to best: code 1 is the first, code 8 the last. */
  const Scale: seq<string> := ["G", "F", "E", "D", "C", "B", "A", "S"]

  predicate IsLetter(l: string) {
    l in Scale
  }

  /** GetProper: the fixed switch table 1..8 -> G..S; any other code throws. */
  function GetProper(proper: int): (r: Result<string, Error>)
    ensures r.Ok? <==> 1 <= proper <= 8
    ensures r.Ok? ==> IsLetter(r.value)
    ensures r.Err? ==> r.error == InvalidGrade(proper)
  {
    match proper
    case 1 => Ok("G")
    case 2 => Ok("F")
    case 3 => Ok("E")
    case 4 => Ok("D")
    case 5 => Ok("C")
    case 6 => Ok("B")
    case 7 => Ok("A")
    case 8 => Ok("S")
    case _ => Err(InvalidGrade(proper))
  }

  /** Position of the first occurrence of x in s, if any. */
  function IndexOf(s: seq<string>, x: string): (r: Option<nat>)
    ensures r.Some? ==> r.value < |s| && s[r.value] == x
    ensures r.Some? ==> forall i :: 0 <= i < r.value ==> s[i] != x
    ensures r.None? <==> x !in s
  {
    if s == [] then None
    else if s[0] == x then Some(0)
    else match IndexOf(s[1..], x)
      case None => None
      case Some(i) => Some(i + 1)
  }

  /** The reverse lookup: the code a letter stands for, by its place on the scale. */
  function Ordinal(l: string): Option<int> {
    match IndexOf(Scale, l)
    case None => None
    case Some(i) => Some(i + 1)
  }

  /** No letter occurs twice on the scale. */
  lemma ScaleDistinct()
    ensures forall i, j :: 0 <= i < j < |Scale| ==> Scale[i] != Scale[j]
  {
  }

  /** The switch table agrees with the scale: code p is the p-th letter. */
  lemma GetProperFollowsScale(p: int)
    requires 1 <= p <= 8
    ensures GetProper(p) == Ok(Scale[p - 1])
  {
    if p <= 4 {
      if p <= 2 { assert p == 1 || p == 2; } else { assert p == 3 || p == 4; }
    } else {
      if p <= 6 { assert p == 5 || p == 6; } else { assert p == 7 || p == 8; }
    }
  }

  /** Round trip code -> letter -> code, and letter -> code -> letter. */
  lemma RoundTrip(p: int, l: string)
    ensures GetProper(p) == Ok(l) <==> Ordinal(l) == Some(p)
  {
    ScaleDistinct();
    if GetProper(p) == Ok(l) {
      GetProperFollowsScale(p);
      assert Scale[p - 1] == l;
      assert IndexOf(Scale, l).Some?;
    }
    if Ordinal(l) == Some(p) {
      var k := IndexOf(Scale, l).value;
      assert p == k + 1;
      GetProperFollowsScale(p);
    }
  }

  /** Different codes never share a letter. */
  lemma GetProperInjective(p: int, q: int)
    requires GetProper(p).Ok? && GetProper(p) == GetProper(q)
    ensures p == q
  {
    RoundTrip(p, GetProper(p).value);
    RoundTrip(q, GetProper(q).value);
  }

  /** A higher code gives a letter further up the scale. */
  lemma GetProperMonotone(p: int, q: int)
    requires 1 <= p < q <= 8
    ensures Ordinal(GetProper(p).value).value < Ordinal(GetProper(q).value).value
  {
    RoundTrip(p, GetProper(p).value);
    RoundTrip(q, GetProper(q).value);
  }

  /** Every letter on the scale is the image of some code (of only one, by
      GetProperInjective). */
  lemma GetProperOnto(l: string)
    requires IsLetter(l)
    ensures exists p :: 1 <= p <= 8 && GetProper(p) == Ok(l)
  {
    var i := IndexOf(Scale, l).value;
    GetProperFollowsScale(i + 1);
  }
}
