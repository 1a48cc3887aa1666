/** Analyze of Class1.cs: the guard, the pre-selection listing and the
    post-selection aggregation with its three dictionaries updated in place
    inside two nested loops. */
module Analyzer {
  import opened Wrappers
  import opened Grades
  import opened Response
  import opened Classifier
  import opened Grouping
  import opened Aptitude

  /** What the pre-selection branch shows of one candidate opponent. */
  datatype OpponentLine = OpponentLine(
    strength: int,
    name: string,
    loginDayCount: int,
    playCount: int)

  /** What the post-selection branch shows: the name and three dictionaries. */
  datatype Report = Report(
    name: string,
    distStats: map<string, int>,
    groundStats: map<string, int>,
    styleStats: map<string, int>)

  datatype Outcome =
    | Silent                          // not this analyzer's response
    | Opponents(lines: seq<OpponentLine>)
    | Aggregated(report: Report)
    | Aborted(error: Error)           // one of the modelled errors escaped Analyze

  /** The report whose dictionaries count the letters gs. */
  function ReportOf(name: string, gs: seq<EntryGrades>): Report {
    Report(name, Tally(gs, Distance), Tally(gs, Surface), Tally(gs, Style))
  }

  /** The post-selection outcome the loops must reach, visiting the entries
      in the grouped order. */
  function Expected(copy: OpponentInfoCopy): (r: Result<Report, Error>)
    ensures var visit := Resolve(IterationOrder(copy.teamDataArray), copy.trainedCharaArray);
      (r.Ok? <==> visit.Ok?) &&
      (r.Err? ==> r.error == visit.error) &&
      (r.Ok? ==> r.value.name == copy.userInfo.name)
  {
    match Resolve(IterationOrder(copy.teamDataArray), copy.trainedCharaArray)
    case Ok(gs) => Ok(ReportOf(copy.userInfo.name, gs))
    case Err(e) => Err(e)
  }

  /** The pre-selection loop: one line per candidate, in the array's order. */
  method ListOpponents(infos: seq<OpponentInfo>) returns (lines: seq<OpponentLine>)
    ensures |lines| == |infos|
    ensures forall i :: 0 <= i < |infos| ==>
      lines[i].strength == infos[i].strength &&
      lines[i].name == infos[i].userInfo.name &&
      lines[i].loginDayCount == infos[i].userInfo.totalLoginDayCount &&
      lines[i].playCount == infos[i].userInfo.singleModePlayCount
  {
    lines := [];
    for n := 0 to |infos|
      invariant |lines| == n
      invariant forall i :: 0 <= i < n ==>
        lines[i].strength == infos[i].strength &&
        lines[i].name == infos[i].userInfo.name &&
        lines[i].loginDayCount == infos[i].userInfo.totalLoginDayCount &&
        lines[i].playCount == infos[i].userInfo.singleModePlayCount
    {
      var user := infos[n].userInfo;
      lines := lines + [OpponentLine(infos[n].strength, user.name, user.totalLoginDayCount, user.singleModePlayCount)];
    }
  }

  /** Where entry j of group i stands in the visiting order. */
  lemma SplitOrder(teamData: seq<Group>, i: nat, j: nat)
    requires i < |teamData| && j < |teamData[i].members|
    ensures Flatten(teamData) ==
      (Flatten(teamData[..i]) + teamData[i].members[..j]) + [teamData[i].members[j]] +
      (teamData[i].members[j + 1..] + Flatten(teamData[i + 1..]))
  {
    var members := teamData[i].members;
    assert teamData == teamData[..i + 1] + teamData[i + 1..];
    FlattenAppend(teamData[..i + 1], teamData[i + 1..]);
    assert teamData[..i + 1][..i] == teamData[..i];
    assert members == members[..j] + [members[j]] + members[j + 1..];
  }

  /** A failure of entry j of group i is the outcome of the whole order. */
  lemma FailureIsFinal(teamData: seq<Group>, i: nat, j: nat, trained: seq<TrainedChara>)
    requires i < |teamData| && j < |teamData[i].members|
    requires Resolve(Flatten(teamData[..i]) + teamData[i].members[..j], trained).Ok?
    requires Step(teamData[i].members[j], trained).Err?
    ensures Resolve(Flatten(teamData), trained) == Err(Step(teamData[i].members[j], trained).error)
  {
    var members := teamData[i].members;
    var done := Flatten(teamData[..i]) + members[..j];
    SplitOrder(teamData, i, j);
    ResolveSnoc(done, members[j], trained);
    ResolveErrSticks(done + [members[j]], members[j + 1..] + Flatten(teamData[i + 1..]), trained);
  }

  /** What one pass of the inner loop body does to the visiting order: a
      failing entry is the outcome of the whole order, a skipped one leaves
      the letters as they are, a counted one appends its letters. */
  lemma EntryStep(teamData: seq<Group>, i: nat, j: nat, trained: seq<TrainedChara>, gs: seq<EntryGrades>)
    requires i < |teamData| && j < |teamData[i].members|
    requires Resolve(Flatten(teamData[..i]) + teamData[i].members[..j], trained) == Ok(gs)
    ensures var k := teamData[i].members[j];
      var next := Resolve(Flatten(teamData[..i]) + teamData[i].members[..j + 1], trained);
      (Step(k, trained).Err? ==> Resolve(Flatten(teamData), trained) == Err(Step(k, trained).error)) &&
      (Step(k, trained) == Ok(None) ==> next == Ok(gs)) &&
      (Step(k, trained).Ok? && Step(k, trained).value.Some? ==> next == Ok(gs + [Step(k, trained).value.value]))
  {
    var members := teamData[i].members;
    var k := members[j];
    var done := Flatten(teamData[..i]) + members[..j];
    assert done + [k] == Flatten(teamData[..i]) + members[..j + 1];
    ResolveSnoc(done, k, trained);
    if Step(k, trained).Err? {
      FailureIsFinal(teamData, i, j, trained);
    }
  }

  /** The source's two-step dictionary update: a missing letter is added
      with 0, then the letter's count goes up by one. */
  method Increment(stats: map<string, int>, key: string) returns (r: map<string, int>)
    ensures r == Bump(stats, key)
  {
    r := stats;
    if key !in r {
      r := r[key := 0];
    }
    r := r[key := r[key] + 1];
  }

  /** One pass of the inner loop body for entry k: a missing character is
      skipped, otherwise the three switches run in the source's order and
      each dictionary is incremented at its letter. */
  method CountEntry(k: TeamData, trained: seq<TrainedChara>,
                    dist0: map<string, int>, ground0: map<string, int>, style0: map<string, int>)
    returns (r: Result<(map<string, int>, map<string, int>, map<string, int>), Error>)
    ensures Step(k, trained).Err? ==> r == Err(Step(k, trained).error)
    ensures Step(k, trained) == Ok(None) ==> r == Ok((dist0, ground0, style0))
    ensures Step(k, trained).Ok? && Step(k, trained).value.Some? ==>
      var g := Step(k, trained).value.value;
      r == Ok((Bump(dist0, g.dist), Bump(ground0, g.ground), Bump(style0, g.style)))
  {
    var trainedChara := FindTrained(trained, k.trainedCharaId);
    if trainedChara.None? {
      return Ok((dist0, ground0, style0));
    }
    var c := trainedChara.value;
    StepOrder(k, trained, c);
    var groundProper :- SurfaceProper(k.distanceType, c);
    var distProper :- DistanceProper(k.distanceType, c);
    var styleProper :- StyleProper(k.runningStyle, c);
    var distStats := Increment(dist0, distProper);
    var groundStats := Increment(ground0, groundProper);
    var styleStats := Increment(style0, styleProper);
    r := Ok((distStats, groundStats, styleStats));
  }

  /** The inner loop over the members of group i: every member whose
      character is found is counted; the first exception aborts. */
  method VisitGroup(teamData: seq<Group>, i: nat, trained: seq<TrainedChara>, ghost gs0: seq<EntryGrades>,
                    dist0: map<string, int>, ground0: map<string, int>, style0: map<string, int>)
    returns (r: Result<(map<string, int>, map<string, int>, map<string, int>), Error>, ghost gs: seq<EntryGrades>)
    requires i < |teamData|
    requires Resolve(Flatten(teamData[..i]), trained) == Ok(gs0)
    requires dist0 == Tally(gs0, Distance) && ground0 == Tally(gs0, Surface) && style0 == Tally(gs0, Style)
    ensures r.Err? ==> Resolve(Flatten(teamData), trained) == Err(r.error)
    ensures r.Ok? ==> Resolve(Flatten(teamData[..i + 1]), trained) == Ok(gs)
    ensures r.Ok? ==> r.value == (Tally(gs, Distance), Tally(gs, Surface), Tally(gs, Style))
  {
    var distStats, groundStats, styleStats := dist0, ground0, style0;
    var members := teamData[i].members;
    gs := gs0;
    var j := 0;
    assert Flatten(teamData[..i]) + members[..0] == Flatten(teamData[..i]);
    while j < |members|
      invariant 0 <= j <= |members|
      invariant Resolve(Flatten(teamData[..i]) + members[..j], trained) == Ok(gs)
      invariant distStats == Tally(gs, Distance)
      invariant groundStats == Tally(gs, Surface)
      invariant styleStats == Tally(gs, Style)
    {
      var k := members[j];
      EntryStep(teamData, i, j, trained, gs);
      var counted := CountEntry(k, trained, distStats, groundStats, styleStats);
      if counted.Err? {
        r := Err(counted.error);
        return;
      }
      distStats, groundStats, styleStats := counted.value.0, counted.value.1, counted.value.2;
      ghost var s := Step(k, trained);
      if s.value.Some? {
        TallyStep(gs, s.value.value);
        gs := gs + [s.value.value];
      }
      j := j + 1;
    }
    assert members[..j] == members;
    assert teamData[..i + 1][..i] == teamData[..i];
    r := Ok((distStats, groundStats, styleStats));
  }

  /** The post-selection branch: filter, group, then visit the groups in
      order, carrying the three dictionaries from one group to the next. */
  method AggregateCopy(copy: OpponentInfoCopy) returns (r: Result<Report, Error>)
    ensures r == Expected(copy)
  {
    var team := copy.teamDataArray;
    var trained := copy.trainedCharaArray;
    var name := copy.userInfo.name;
    var distStats: map<string, int> := map[];
    var groundStats: map<string, int> := map[];
    var styleStats: map<string, int> := map[];
    var teamData := GroupByType(NonEmpty(team));
    assert IterationOrder(team) == Flatten(teamData);
    ghost var gs: seq<EntryGrades> := [];

    var i := 0;
    while i < |teamData|
      invariant 0 <= i <= |teamData|
      invariant Resolve(Flatten(teamData[..i]), trained) == Ok(gs)
      invariant distStats == Tally(gs, Distance)
      invariant groundStats == Tally(gs, Surface)
      invariant styleStats == Tally(gs, Style)
    {
      var visited, gs1 := VisitGroup(teamData, i, trained, gs, distStats, groundStats, styleStats);
      if visited.Err? {
        return Err(visited.error);
      }
      distStats, groundStats, styleStats := visited.value.0, visited.value.1, visited.value.2;
      gs := gs1;
      i := i + 1;
    }
    assert teamData[..i] == teamData;
    r := Ok(Report(name, distStats, groundStats, styleStats));
  }

  /** Grouping does not matter: the outcome is the one of visiting the
      non-empty slots in roster order. */
  lemma ExpectedOrderIndependent(copy: OpponentInfoCopy)
    ensures var flat := Resolve(NonEmpty(copy.teamDataArray), copy.trainedCharaArray);
      (Expected(copy).Ok? <==> flat.Ok?) &&
      (flat.Ok? ==> Expected(copy) == Ok(ReportOf(copy.userInfo.name, flat.value)))
  {
    var team, trained := copy.teamDataArray, copy.trainedCharaArray;
    OrderIndependent(IterationOrder(team), NonEmpty(team), trained);
  }

  /** Analyze: the guard, then the array branch before the chosen-opponent branch. */
  method Analyze(resp: Response) returns (o: Outcome)
    ensures o.Silent? <==> Classify(resp).Inapplicable?
    ensures o.Opponents? <==> Classify(resp).PreSelection?
    ensures o.Opponents? ==> var infos := Classify(resp).opponents;
      |o.lines| == |infos| &&
      forall i :: 0 <= i < |infos| ==>
        o.lines[i].strength == infos[i].strength &&
        o.lines[i].name == infos[i].userInfo.name &&
        o.lines[i].loginDayCount == infos[i].userInfo.totalLoginDayCount &&
        o.lines[i].playCount == infos[i].userInfo.singleModePlayCount
    ensures Classify(resp).PostSelection? ==> var copy := Classify(resp).copy;
      (o.Aggregated? <==> Resolve(NonEmpty(copy.teamDataArray), copy.trainedCharaArray).Ok?) &&
      (o.Aggregated? ==> Expected(copy) == Ok(o.report)) &&
      (o.Aborted? ==> Expected(copy) == Err(o.error))
  {
    if resp.data.None? ||
       ((resp.data.value.opponentInfoArray.None? || |resp.data.value.opponentInfoArray.value| != 3) &&
        resp.data.value.opponentInfoCopy.None?) {
      return Silent;
    }
    var data := resp.data.value;
    if data.opponentInfoArray.Some? {
      var lines := ListOpponents(data.opponentInfoArray.value);
      o := Opponents(lines);
    } else {
      // the guard leaves the chosen opponent present here
      var r := AggregateCopy(data.opponentInfoCopy.value);
      ExpectedOrderIndependent(data.opponentInfoCopy.value);
      o := match r
        case Ok(report) => Aggregated(report)
        case Err(e) => Aborted(e);
    }
  }

  /** Every dictionary's counts are at least one, its keys are letters, and
      its values sum to the number of non-empty slots whose character was
      found. */
  lemma ReportTotals(copy: OpponentInfoCopy)
    requires Resolve(NonEmpty(copy.teamDataArray), copy.trainedCharaArray).Ok?
    ensures var rep := ReportOf(copy.userInfo.name, Resolve(NonEmpty(copy.teamDataArray), copy.trainedCharaArray).value);
      var n := Matched(NonEmpty(copy.teamDataArray), copy.trainedCharaArray);
      Total(rep.distStats) == n && Total(rep.groundStats) == n && Total(rep.styleStats) == n &&
      (forall l :: l in rep.distStats ==> IsLetter(l) && rep.distStats[l] >= 1) &&
      (forall l :: l in rep.groundStats ==> IsLetter(l) && rep.groundStats[l] >= 1) &&
      (forall l :: l in rep.styleStats ==> IsLetter(l) && rep.styleStats[l] >= 1)
  {
    var ks, trained := NonEmpty(copy.teamDataArray), copy.trainedCharaArray;
    var gs := Resolve(ks, trained).value;
    ResolvedLength(ks, trained);
    ResolveValid(ks, trained);
    TallyTotal(gs, Distance);
    TallyTotal(gs, Surface);
    TallyTotal(gs, Style);
  }

  /** An empty slot added anywhere in the roster changes nothing. */
  lemma EmptySlotNeverCounts(a: seq<TeamData>, z: TeamData, b: seq<TeamData>,
                             trained: seq<TrainedChara>, user: UserInfo)
    requires z.trainedCharaId == 0
    ensures Expected(OpponentInfoCopy(a + [z] + b, trained, user)) ==
      Expected(OpponentInfoCopy(a + b, trained, user))
  {
    EmptySlotInvisible(a, z, b);
  }

  // A worked roster: a short front-runner graded A everywhere, an empty
  // slot, and a dirt end-closer with mile E, dirt C and oikomi F.
  const ShortRunner := TrainedChara(1, 7, 1, 7, 1, 1, 1, 7, 1, 1, 1)
  const DirtCloser := TrainedChara(2, 1, 5, 1, 3, 1, 1, 1, 1, 1, 2)
  const ShortSlot := TeamData(1, 1, 1)
  const EmptySlot := TeamData(0, 3, 2)
  const DirtSlot := TeamData(2, 5, 4)

  /** The worked roster gives distance {A, E}, surface {A, C}, style {A, F}. */
  lemma ExampleRoster()
    ensures Expected(OpponentInfoCopy([ShortSlot, EmptySlot, DirtSlot], [ShortRunner, DirtCloser], UserInfo("rival", 0, 0))) ==
      Ok(Report("rival", map["A" := 1, "E" := 1], map["A" := 1, "C" := 1], map["A" := 1, "F" := 1]))
  {
    ExampleOrder();
    ExampleResolve();
    ExampleTally();
  }

  lemma ExampleOrder()
    ensures IterationOrder([ShortSlot, EmptySlot, DirtSlot]) == [ShortSlot, DirtSlot]
  {
    var a, z, b := ShortSlot, EmptySlot, DirtSlot;
    var team, ks := [a, z, b], [a, b];
    assert team[1..] == [z, b] && [z, b][1..] == [b] && [b][1..] == [];
    assert NonEmpty([b]) == [b];
    assert NonEmpty([z, b]) == [b];
    assert NonEmpty(team) == ks;
    assert ks[1..] == [b];
    assert WithType(ks, 1) == [a];
    assert OtherTypes(ks, 1) == [b];
    assert WithType([b], 5) == [b] && OtherTypes([b], 5) == [];
    assert GroupByType([b]) == [Group(5, [b])];
    var groups := [Group(1, [a]), Group(5, [b])];
    assert GroupByType(ks) == groups;
    assert groups[..1] == [Group(1, [a])] && groups[..1][..0] == [];
    assert Flatten([Group(1, [a])]) == [a];
    assert Flatten(groups) == [a] + [b];
  }

  lemma ExampleSteps()
    ensures Step(ShortSlot, [ShortRunner, DirtCloser]) == Ok(Some(EntryGrades("A", "A", "A")))
    ensures Step(DirtSlot, [ShortRunner, DirtCloser]) == Ok(Some(EntryGrades("E", "C", "F")))
  {
    var trained := [ShortRunner, DirtCloser];
    assert FindTrained(trained, 1) == Some(ShortRunner);
    assert trained[1..] == [DirtCloser];
    assert FindTrained(trained, 2) == Some(DirtCloser);
    StepOrder(ShortSlot, trained, ShortRunner);
    StepOrder(DirtSlot, trained, DirtCloser);
  }

  lemma ExampleResolveFirst()
    ensures Resolve([ShortSlot], [ShortRunner, DirtCloser]) == Ok([EntryGrades("A", "A", "A")])
  {
    var trained := [ShortRunner, DirtCloser];
    ExampleSteps();
    assert [] + [ShortSlot] == [ShortSlot];
    ResolveSnoc([], ShortSlot, trained);
    assert [] + [EntryGrades("A", "A", "A")] == [EntryGrades("A", "A", "A")];
  }

  lemma ExampleResolve()
    ensures Resolve([ShortSlot, DirtSlot], [ShortRunner, DirtCloser]) ==
      Ok([EntryGrades("A", "A", "A"), EntryGrades("E", "C", "F")])
  {
    var trained := [ShortRunner, DirtCloser];
    var g1, g2 := EntryGrades("A", "A", "A"), EntryGrades("E", "C", "F");
    ExampleSteps();
    ExampleResolveFirst();
    assert [ShortSlot] + [DirtSlot] == [ShortSlot, DirtSlot];
    ResolveSnoc([ShortSlot], DirtSlot, trained);
    assert [g1] + [g2] == [g1, g2];
  }

  lemma ExampleTally()
    ensures var gs := [EntryGrades("A", "A", "A"), EntryGrades("E", "C", "F")];
      Tally(gs, Distance) == map["A" := 1, "E" := 1] &&
      Tally(gs, Surface) == map["A" := 1, "C" := 1] &&
      Tally(gs, Style) == map["A" := 1, "F" := 1]
  {
    var gs := [EntryGrades("A", "A", "A"), EntryGrades("E", "C", "F")];
    assert gs[..1] == [gs[0]] && [gs[0]][..0] == [];
  }
}
