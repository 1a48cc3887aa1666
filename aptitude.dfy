/** The per-entry work of the post-selection branch of Analyze
    (Class1.cs lines 96-149) as a specification: the character lookup, the
    three switch tables, and the three grade -> count dictionaries. */
module Aptitude {
  import opened Wrappers
  import opened Grades
  import opened Response

  /** The FirstOrDefault lookup: the first character with the id, or none. */
  function FindTrained(trained: seq<TrainedChara>, id: int): (r: Option<TrainedChara>)
    ensures r.None? <==> forall i :: 0 <= i < |trained| ==> trained[i].trainedCharaId != id
    ensures r.Some? ==> r.value in trained && r.value.trainedCharaId == id
  {
    if trained == [] then None
    else if trained[0].trainedCharaId == id then Some(trained[0])
    else FindTrained(trained[1..], id)
  }

  /** The lookup takes the first character with the id, not a later one. */
  lemma {:induction false} FindTrainedFirst(trained: seq<TrainedChara>, id: int, i: nat)
    requires i < |trained| && trained[i].trainedCharaId == id
    requires forall j :: 0 <= j < i ==> trained[j].trainedCharaId != id
    ensures FindTrained(trained, id) == Some(trained[i])
  {
    if i > 0 {
      FindTrainedFirst(trained[1..], id, i - 1);
    }
  }

  /** The surface switch: distance type 5 is dirt, every other type turf. */
  function SurfaceProper(distanceType: int, c: TrainedChara): (r: Result<string, Error>)
    ensures r.Ok? ==> IsLetter(r.value)
    ensures r.Err? ==> r.error.InvalidGrade?
  {
    match distanceType
    case 5 => GetProper(c.properGroundDirt)
    case _ => GetProper(c.properGroundTurf)
  }

  /** The distance switch: types 1-4 read their own field, dirt (5) reads
      the mile field, any other type has no arm. */
  function DistanceProper(distanceType: int, c: TrainedChara): (r: Result<string, Error>)
    ensures r.Ok? ==> 1 <= distanceType <= 5 && IsLetter(r.value)
    ensures !(1 <= distanceType <= 5) ==> r == Err(NoDistanceArm(distanceType))
    ensures 1 <= distanceType <= 5 && r.Err? ==> r.error.InvalidGrade?
  {
    match distanceType
    case 1 => GetProper(c.properDistanceShort)
    case 2 => GetProper(c.properDistanceMile)
    case 3 => GetProper(c.properDistanceMiddle)
    case 4 => GetProper(c.properDistanceLong)
    case 5 => GetProper(c.properDistanceMile)
    case _ => Err(NoDistanceArm(distanceType))
  }

  /** The running-style switch: nige, senko, sashi, oikomi; no other arm. */
  function StyleProper(runningStyle: int, c: TrainedChara): (r: Result<string, Error>)
    ensures r.Ok? ==> 1 <= runningStyle <= 4 && IsLetter(r.value)
    ensures !(1 <= runningStyle <= 4) ==> r == Err(NoStyleArm(runningStyle))
    ensures 1 <= runningStyle <= 4 && r.Err? ==> r.error.InvalidGrade?
  {
    match runningStyle
    case 1 => GetProper(c.properRunningStyleNige)
    case 2 => GetProper(c.properRunningStyleSenko)
    case 3 => GetProper(c.properRunningStyleSashi)
    case 4 => GetProper(c.properRunningStyleOikomi)
    case _ => Err(NoStyleArm(runningStyle))
  }

  /** The three letters one roster entry contributes. */
  datatype EntryGrades = EntryGrades(dist: string, ground: string, style: string)

  predicate ValidGrades(g: EntryGrades) {
    IsLetter(g.dist) && IsLetter(g.ground) && IsLetter(g.style)
  }

  /** One pass of the inner loop body: no contribution when the character is
      missing, otherwise the letters, evaluated in the source's order
      (surface, distance, style), the first failure aborting. */
  function Step(k: TeamData, trained: seq<TrainedChara>): (r: Result<Option<EntryGrades>, Error>)
    ensures r == Ok(None) <==> FindTrained(trained, k.trainedCharaId).None?
  {
    match FindTrained(trained, k.trainedCharaId)
    case None => Ok(None)
    case Some(c) =>
      var ground :- SurfaceProper(k.distanceType, c);
      var dist :- DistanceProper(k.distanceType, c);
      var style :- StyleProper(k.runningStyle, c);
      Ok(Some(EntryGrades(dist, ground, style)))
  }

  /** The letters of the entries ks, visited in order; the first failing
      entry aborts the whole sequence. */
  function Resolve(ks: seq<TeamData>, trained: seq<TrainedChara>): (r: Result<seq<EntryGrades>, Error>)
    ensures r.Ok? ==> |r.value| <= |ks|
  {
    if ks == [] then Ok([])
    else
      var done :- Resolve(ks[..|ks| - 1], trained);
      var g :- Step(ks[|ks| - 1], trained);
      Ok(if g.Some? then done + [g.value] else done)
  }

  /** Every entry that contributes, contributes three letters of the scale. */
  lemma StepValid(k: TeamData, trained: seq<TrainedChara>)
    ensures var r := Step(k, trained); r.Ok? && r.value.Some? ==> ValidGrades(r.value.value)
  {
    var found := FindTrained(trained, k.trainedCharaId);
    if found.Some? {
      var c := found.value;
      StepOrder(k, trained, c);
    }
  }

  /** Every letter a successful visit collects is on the scale. */
  lemma {:induction false} ResolveValid(ks: seq<TeamData>, trained: seq<TrainedChara>)
    ensures var r := Resolve(ks, trained); r.Ok? ==> forall i :: 0 <= i < |r.value| ==> ValidGrades(r.value[i])
  {
    if ks != [] {
      ResolveValid(ks[..|ks| - 1], trained);
      StepValid(ks[|ks| - 1], trained);
    }
  }

  datatype Dimension = Distance | Surface | Style

  function Pick(g: EntryGrades, dim: Dimension): string {
    match dim
    case Distance => g.dist
    case Surface => g.ground
    case Style => g.style
  }

  /** The count a dictionary holds for a letter, 0 when the key is absent. */
  function Get(m: map<string, int>, l: string): int {
    if l in m then m[l] else 0
  }

  /** The source's dictionary update as a value: the key's count goes up
      by one, from 0 when the key is absent; nothing else changes. */
  function Bump(m: map<string, int>, key: string): (r: map<string, int>)
    ensures r.Keys == m.Keys + {key}
    ensures Get(r, key) == Get(m, key) + 1
    ensures forall l :: l != key ==> Get(r, l) == Get(m, l)
  {
    m[key := Get(m, key) + 1]
  }

  /** The dictionary of one dimension after counting the letters of gs. */
  function Tally(gs: seq<EntryGrades>, dim: Dimension): (r: map<string, int>)
    ensures forall l :: l in r ==> r[l] >= 1
  {
    if gs == [] then map[] else Bump(Tally(gs[..|gs| - 1], dim), Pick(gs[|gs| - 1], dim))
  }

  /** Entry k contributes letter l in dimension dim. */
  predicate Hits(k: TeamData, trained: seq<TrainedChara>, dim: Dimension, l: string) {
    var r := Step(k, trained);
    r.Ok? && r.value.Some? && Pick(r.value.value, dim) == l
  }

  function HitsOf(trained: seq<TrainedChara>, dim: Dimension, l: string): TeamData -> bool {
    k => Hits(k, trained, dim, l)
  }

  /** How many elements of s satisfy p. */
  function CountIf<T>(s: seq<T>, p: T -> bool): nat {
    if s == [] then 0
    else
      CountIf(s[..|s| - 1], p) + (if p(s[|s| - 1]) then 1 else 0)
  }

  /** How many entries of ks contribute letter l in dimension dim. */
  function Count(ks: seq<TeamData>, trained: seq<TrainedChara>, dim: Dimension, l: string): nat {
    CountIf(ks, HitsOf(trained, dim, l))
  }

  /** How many entries of ks find their character. */
  function Matched(ks: seq<TeamData>, trained: seq<TrainedChara>): nat {
    if ks == [] then 0
    else
      var found := FindTrained(trained, ks[|ks| - 1].trainedCharaId);
      Matched(ks[..|ks| - 1], trained) + (if found.Some? then 1 else 0)
  }

  // ----- the three switch tables, stated per entry -----

  /** A dirt entry takes its surface letter from the dirt field and its
      distance letter from the mile field. */
  lemma DirtEntry(k: TeamData, trained: seq<TrainedChara>, c: TrainedChara)
    requires k.distanceType == 5 && FindTrained(trained, k.trainedCharaId) == Some(c)
    requires Step(k, trained).Ok?
    ensures Step(k, trained).value.Some?
    ensures Step(k, trained).value.value.ground == GetProper(c.properGroundDirt).value
    ensures Step(k, trained).value.value.dist == GetProper(c.properDistanceMile).value
  {
  }

  /** Types 1-4 take the turf letter, and the short, mile, middle or long letter. */
  lemma TurfEntry(k: TeamData, trained: seq<TrainedChara>, c: TrainedChara)
    requires 1 <= k.distanceType <= 4 && FindTrained(trained, k.trainedCharaId) == Some(c)
    requires Step(k, trained).Ok?
    ensures Step(k, trained).value.Some?
    ensures Step(k, trained).value.value.ground == GetProper(c.properGroundTurf).value
    ensures Step(k, trained).value.value.dist == GetProper(
      if k.distanceType == 1 then c.properDistanceShort
      else if k.distanceType == 2 then c.properDistanceMile
      else if k.distanceType == 3 then c.properDistanceMiddle
      else c.properDistanceLong).value
  {
  }

  /** Running styles 1-4 take the nige, senko, sashi or oikomi letter. */
  lemma StyleEntry(k: TeamData, trained: seq<TrainedChara>, c: TrainedChara)
    requires FindTrained(trained, k.trainedCharaId) == Some(c)
    requires Step(k, trained).Ok?
    ensures 1 <= k.runningStyle <= 4
    ensures Step(k, trained).value.Some?
    ensures Step(k, trained).value.value.style == GetProper(
      if k.runningStyle == 1 then c.properRunningStyleNige
      else if k.runningStyle == 2 then c.properRunningStyleSenko
      else if k.runningStyle == 3 then c.properRunningStyleSashi
      else c.properRunningStyleOikomi).value
  {
  }

  /** A matched entry evaluates its surface, distance and style letters in
      that order; the first that fails is the entry's error, and when none
      fails the entry contributes all three. */
  lemma StepOrder(k: TeamData, trained: seq<TrainedChara>, c: TrainedChara)
    requires FindTrained(trained, k.trainedCharaId) == Some(c)
    ensures var ground, dist, style :=
        SurfaceProper(k.distanceType, c), DistanceProper(k.distanceType, c), StyleProper(k.runningStyle, c);
      (ground.Err? ==> Step(k, trained) == Err(ground.error)) &&
      (ground.Ok? && dist.Err? ==> Step(k, trained) == Err(dist.error)) &&
      (ground.Ok? && dist.Ok? && style.Err? ==> Step(k, trained) == Err(style.error)) &&
      (ground.Ok? && dist.Ok? && style.Ok? ==>
        Step(k, trained) == Ok(Some(EntryGrades(dist.value, ground.value, style.value))))
  {
  }

  // ----- Resolve -----

  /** Extending the visited entries by one runs one more Step. */
  lemma ResolveSnoc(ks: seq<TeamData>, k: TeamData, trained: seq<TrainedChara>)
    ensures Resolve(ks, trained).Err? ==> Resolve(ks + [k], trained) == Resolve(ks, trained)
    ensures Resolve(ks, trained).Ok? && Step(k, trained).Err? ==>
      Resolve(ks + [k], trained) == Err(Step(k, trained).error)
    ensures Resolve(ks, trained).Ok? && Step(k, trained) == Ok(None) ==>
      Resolve(ks + [k], trained) == Resolve(ks, trained)
    ensures Resolve(ks, trained).Ok? && Step(k, trained).Ok? && Step(k, trained).value.Some? ==>
      Resolve(ks + [k], trained) == Ok(Resolve(ks, trained).value + [Step(k, trained).value.value])
  {
    assert (ks + [k])[..|ks|] == ks;
  }

  /** A failure anywhere in ks, and only that, makes the sequence fail. */
  lemma {:induction false} ResolveOkIff(ks: seq<TeamData>, trained: seq<TrainedChara>)
    ensures Resolve(ks, trained).Ok? <==> forall k :: k in ks ==> Step(k, trained).Ok?
  {
    if ks != [] {
      var init := ks[..|ks| - 1];
      ResolveOkIff(init, trained);
      assert ks == init + [ks[|ks| - 1]];
    }
  }

  /** Once a prefix has failed, later entries cannot change the outcome. */
  lemma {:induction false} ResolveErrSticks(a: seq<TeamData>, b: seq<TeamData>, trained: seq<TrainedChara>)
    requires Resolve(a, trained).Err?
    ensures Resolve(a + b, trained) == Resolve(a, trained)
    decreases |b|
  {
    if b == [] {
      assert a + b == a;
    } else {
      var c := a + b;
      assert c[..|c| - 1] == a + b[..|b| - 1];
      ResolveErrSticks(a, b[..|b| - 1], trained);
    }
  }

  /** An entry whose character is missing is skipped: it changes nothing. */
  lemma {:induction false} ResolveSkipsUnmatched(a: seq<TeamData>, k: TeamData, b: seq<TeamData>, trained: seq<TrainedChara>)
    requires FindTrained(trained, k.trainedCharaId).None?
    ensures Resolve(a + [k] + b, trained) == Resolve(a + b, trained)
    decreases |b|
  {
    if b == [] {
      assert a + [k] + b == a + [k] && a + b == a;
      ResolveSnoc(a, k, trained);
    } else {
      var x := b[|b| - 1];
      var b' := b[..|b| - 1];
      ResolveSkipsUnmatched(a, k, b', trained);
      assert a + [k] + b == (a + [k] + b') + [x];
      assert a + b == (a + b') + [x];
      ResolveSnoc(a + [k] + b', x, trained);
      ResolveSnoc(a + b', x, trained);
    }
  }

  /** Every entry that finds its character contributes one triple of letters. */
  lemma {:induction false} ResolvedLength(ks: seq<TeamData>, trained: seq<TrainedChara>)
    requires Resolve(ks, trained).Ok?
    ensures |Resolve(ks, trained).value| == Matched(ks, trained)
  {
    if ks != [] {
      ResolvedLength(ks[..|ks| - 1], trained);
    }
  }

  // ----- Tally and Count -----

  /** Each dictionary holds, for a letter, the number of entries that
      contribute it (absent keys holding 0). */
  lemma {:induction false} TallyCount(ks: seq<TeamData>, trained: seq<TrainedChara>, dim: Dimension, l: string)
    requires Resolve(ks, trained).Ok?
    ensures Count(ks, trained, dim, l) == Get(Tally(Resolve(ks, trained).value, dim), l)
  {
    if ks != [] {
      var init, k := ks[..|ks| - 1], ks[|ks| - 1];
      assert Resolve(init, trained).Ok?;
      TallyCount(init, trained, dim, l);
      var gs := Resolve(init, trained).value;
      var s := Step(k, trained);
      assert s.Ok?;
      assert Count(ks, trained, dim, l) == Count(init, trained, dim, l) + (if Hits(k, trained, dim, l) then 1 else 0);
      if s.value.Some? {
        var g := s.value.value;
        assert Resolve(ks, trained).value == gs + [g];
        TallyStep(gs, g);
      } else {
        assert Resolve(ks, trained).value == gs;
      }
    }
  }

  /** Counting one more entry bumps its letter in each dictionary. */
  lemma TallyStep(gs: seq<EntryGrades>, g: EntryGrades)
    ensures Tally(gs + [g], Distance) == Bump(Tally(gs, Distance), g.dist)
    ensures Tally(gs + [g], Surface) == Bump(Tally(gs, Surface), g.ground)
    ensures Tally(gs + [g], Style) == Bump(Tally(gs, Style), g.style)
  {
    assert (gs + [g])[..|gs|] == gs;
  }

  lemma {:induction false} CountIfAppend<T>(a: seq<T>, b: seq<T>, p: T -> bool)
    ensures CountIf(a + b, p) == CountIf(a, p) + CountIf(b, p)
    decreases |b|
  {
    if b == [] {
      assert a + b == a;
    } else {
      var c := a + b;
      assert c[..|c| - 1] == a + b[..|b| - 1];
      assert c[|c| - 1] == b[|b| - 1];
      CountIfAppend(a, b[..|b| - 1], p);
    }
  }

  /** Counting does not depend on the order of the elements. */
  lemma {:induction false} CountIfPermutation<T>(a: seq<T>, b: seq<T>, p: T -> bool)
    requires multiset(a) == multiset(b)
    ensures CountIf(a, p) == CountIf(b, p)
    decreases |a|
  {
    if a != [] {
      var init, x := a[..|a| - 1], a[|a| - 1];
      assert a == init + [x];
      assert x in multiset(b);
      var i :| 0 <= i < |b| && b[i] == x;
      MultisetRemove(b, i);
      CountIfPermutation(init, b[..i] + b[i + 1..], p);
      CountIfRemove(b, i, p);
    }
  }

  lemma MultisetRemove<T>(b: seq<T>, i: nat)
    requires i < |b|
    ensures multiset(b[..i] + b[i + 1..]) == multiset(b) - multiset{b[i]}
  {
    assert b == b[..i] + [b[i]] + b[i + 1..];
  }

  lemma CountIfRemove<T>(b: seq<T>, i: nat, p: T -> bool)
    requires i < |b|
    ensures CountIf(b, p) == CountIf(b[..i] + b[i + 1..], p) + (if p(b[i]) then 1 else 0)
  {
    assert b[..i + 1] + b[i + 1..] == b;
    CountIfAppend(b[..i + 1], b[i + 1..], p);
    assert b[..i + 1][..i] == b[..i];
    CountIfAppend(b[..i], b[i + 1..], p);
  }

  /** Two dictionaries without zero counts are equal when they agree on
      every letter's count. */
  lemma SameCounts(m1: map<string, int>, m2: map<string, int>)
    requires forall l :: l in m1 ==> m1[l] >= 1
    requires forall l :: l in m2 ==> m2[l] >= 1
    requires forall l :: Get(m1, l) == Get(m2, l)
    ensures m1 == m2
  {
    assert m1.Keys == m2.Keys by {
      forall l ensures l in m1 <==> l in m2 {
        assert Get(m1, l) == Get(m2, l);
      }
    }
    forall l | l in m1 ensures m1[l] == m2[l] {
      assert Get(m1, l) == Get(m2, l);
    }
  }

  /** On two orders of the same entries, both successful, a dictionary
      comes out the same. */
  lemma SameTally(a: seq<TeamData>, b: seq<TeamData>, trained: seq<TrainedChara>, dim: Dimension)
    requires multiset(a) == multiset(b)
    requires Resolve(a, trained).Ok? && Resolve(b, trained).Ok?
    ensures Tally(Resolve(a, trained).value, dim) == Tally(Resolve(b, trained).value, dim)
  {
    var ta, tb := Tally(Resolve(a, trained).value, dim), Tally(Resolve(b, trained).value, dim);
    forall l ensures Get(ta, l) == Get(tb, l) {
      TallyCount(a, trained, dim, l);
      TallyCount(b, trained, dim, l);
      CountIfPermutation(a, b, HitsOf(trained, dim, l));
    }
    SameCounts(ta, tb);
  }

  /** Visiting the same entries in another order gives the same outcome and,
      on success, the same three dictionaries. */
  lemma OrderIndependent(a: seq<TeamData>, b: seq<TeamData>, trained: seq<TrainedChara>)
    requires multiset(a) == multiset(b)
    ensures Resolve(a, trained).Ok? <==> Resolve(b, trained).Ok?
    ensures Resolve(a, trained).Ok? ==> forall dim ::
      Tally(Resolve(a, trained).value, dim) == Tally(Resolve(b, trained).value, dim)
  {
    ResolveOkIff(a, trained);
    ResolveOkIff(b, trained);
    forall k ensures k in a <==> k in b {
      assert k in a <==> k in multiset(a);
      assert k in b <==> k in multiset(b);
    }
    if Resolve(a, trained).Ok? {
      forall dim
        ensures Tally(Resolve(a, trained).value, dim) == Tally(Resolve(b, trained).value, dim)
      {
        SameTally(a, b, trained, dim);
      }
    }
  }

  // ----- the values of a dictionary sum to the number of entries -----

  /** The sum of a dictionary's values over the letters ls. */
  function SumOver(ls: seq<string>, m: map<string, int>): int {
    if ls == [] then 0 else (if ls[0] in m then m[ls[0]] else 0) + SumOver(ls[1..], m)
  }

  /** The sum of all counts of a dictionary whose keys are letters. */
  function Total(m: map<string, int>): int {
    SumOver(Scale, m)
  }

  lemma {:induction false} SumOverEmpty(ls: seq<string>)
    ensures SumOver(ls, map[]) == 0
  {
    if ls != [] {
      SumOverEmpty(ls[1..]);
    }
  }

  lemma {:induction false} SumOverBump(ls: seq<string>, m: map<string, int>, key: string)
    requires forall i, j :: 0 <= i < j < |ls| ==> ls[i] != ls[j]
    ensures SumOver(ls, Bump(m, key)) == SumOver(ls, m) + (if key in ls then 1 else 0)
  {
    if ls != [] {
      SumOverBump(ls[1..], m, key);
      assert key in ls <==> key == ls[0] || key in ls[1..] by {
        assert ls == [ls[0]] + ls[1..];
      }
      assert ls[0] !in ls[1..];
    }
  }

  /** Each counted entry adds exactly one letter: the values of a dictionary
      sum to the number of entries, and every key is a letter. */
  lemma {:induction false} TallyTotal(gs: seq<EntryGrades>, dim: Dimension)
    requires forall i :: 0 <= i < |gs| ==> ValidGrades(gs[i])
    ensures Total(Tally(gs, dim)) == |gs|
    ensures forall l :: l in Tally(gs, dim) ==> IsLetter(l)
  {
    if gs == [] {
      SumOverEmpty(Scale);
    } else {
      var init, key := gs[..|gs| - 1], Pick(gs[|gs| - 1], dim);
      TallyTotal(init, dim);
      ScaleDistinct();
      SumOverBump(Scale, Tally(init, dim), key);
      assert ValidGrades(gs[|gs| - 1]);
      assert IsLetter(key);
    }
  }
}
