# Team-stadium opponent list analyzer, modelled in Dafny

This project models `Analyze` from the plugin `TeamStadiumOpponentListResponseAnalyzer` (`Class1.cs`), together with its local function `GetProper`. It then proves what that code does with a team-stadium opponent list response.

`Analyze` first decides whether the response is its own. The guard passes when there are exactly three candidate opponents, or when there is a chosen opponent. It then takes one of two branches:

- **Before selection:** it lists each candidate's strength, name, login days and play count.
- **After selection:** it drops the empty roster slots (character id 0) and groups the rest by distance type. It then walks the groups in two nested loops. For each entry it looks up the trained character and turns three numeric aptitude codes into letters G…S: surface, distance and running style. It counts each letter in three dictionaries, one per dimension.

An aptitude code outside 1..8 throws, and so does a distance type or running style that has no switch arm. Either way the whole response is aborted.

Modules (one file each):

- `wrappers.dfy` (`Wrappers`): `Option` and `Result`.
- `grades.dfy` (`Grades`): the letter scale, `GetProper`, and the reverse lookup `Ordinal`.
- `response.dfy` (`Response`): the already-parsed response records.
- `classifier.dfy` (`Classifier`): the guard and the branch.
- `grouping.dfy` (`Grouping`): the `Where`/`GroupBy` pipeline and the order in which the loops visit entries.
- `aptitude.dfy` (`Aptitude`): the specification of the post-selection branch. It contains:
  - `Step`, one pass of the inner loop body;
  - `Resolve`, all passes in order, where the first failure aborts;
  - `Tally`, a dictionary as a function of the collected letters;
  - `Count`, the number of entries that contribute a letter.
- `analyzer.dfy` (`Analyzer`): the imperative branch as methods with loops proved against `Expected`, plus `Analyze` itself.

The main results:

- **The loop matches its specification.** `AggregateCopy`, the nested loops with the three dictionaries updated in place, returns exactly `Expected(copy)`.
- **Grouping only reorders.** Success or failure, and on success every dictionary, is the same as visiting the non-empty slots in roster order (`ExpectedOrderIndependent`). Which error is reported can differ: it is the first failing entry in grouped order.
- **What each dictionary holds.** Each dictionary counts, for every letter, the entries that contribute that letter. Its values add up to the number of matched entries, and its keys are letters.
- **Grade mapping.** `GetProper` is a bijection from 1..8 onto the scale G…S. It is order-preserving, and it round-trips through `Ordinal`.

Exceptions are modelled as error values, `Grades.Error`:

- `InvalidGrade`: the `NotImplementedException` thrown by `GetProper`.
- `NoDistanceArm`, `NoStyleArm`: the exception thrown by a switch expression that has no arm for the value.

Within one entry the errors come in the order C# evaluates them:

1. the surface grade;
2. the distance-label switch (same arms as the distance-grade switch);
3. the distance grade;
4. the style-label switch;
5. the style grade.

### Where the code departs from its own comments (the model follows the code)

- **The opponent array.** The comment at Class1.cs:68 says that three opponents means the response comes before selection, and the guard at Class1.cs:64 admits an array only of length three. That holds only when no chosen opponent is present. When the response carries both an array and a chosen opponent, the array branch runs for an array of any length (`Classifier.ArrayBranchWins`).

### Behaviour a reader may not expect (the model follows the code)

- **What aborts.** One might expect only an invalid aptitude code to abort, as `GetProper`'s throwing default arm does. The code also aborts when:
  - a distance type is outside 1..5;
  - a running style is outside 1..4.

  The model has an error for each (`Aptitude.DistanceProper`, `Aptitude.StyleProper`).
- **The per-day figure.** One would expect the per-day play figure to be guarded against zero login days. The code divides as doubles with no guard. That figure is floating point and is left out (see below).

## Model

| member | source | states |
|---|---|---|
| Grades.GetProper | Class1.cs:160-171 | succeeds exactly for codes 1..8 and then yields a letter of the scale; any other code fails with `InvalidGrade` of that code |
| Grades.GetProperFollowsScale | Class1.cs:160-171 | code p yields the p-th letter of G, F, E, D, C, B, A, S |
| Grades.ScaleDistinct | Class1.cs:161-169 | no two codes' letters coincide on the scale |
| Grades.RoundTrip | Class1.cs:160-171 | code to letter and letter back to code is the identity, in both directions |
| Grades.GetProperInjective | Class1.cs:160-171 | two codes with the same letter are equal |
| Grades.GetProperMonotone | Class1.cs:160-171 | a higher code gives a letter further up the scale |
| Grades.GetProperOnto | Class1.cs:160-171 | every letter of the scale is produced by some code in 1..8 |
| Classifier.Classify | Class1.cs:64-81 | inapplicable exactly when the guard `Admitted` rejects; the array branch when the array is present; otherwise the chosen opponent |
| Classifier.NotAdmittedIsInapplicable | Class1.cs:64 | a response is ignored exactly when it has no data, or neither a three-element array nor a chosen opponent, stated over the raw fields in both directions |
| Classifier.ArrayBranchWins | Class1.cs:64-69 | with both an array and a chosen opponent, the array branch runs, whatever the array's length |
| Classifier.PostSelectionIff | Class1.cs:66-81 | the chosen opponent is analysed exactly when data is present, the array is absent and the chosen opponent is present |
| Grouping.NonEmpty | Class1.cs:91 | the filtered roster is never longer than the roster |
| Grouping.GroupByType | Class1.cs:91 | there are never more groups than entries |
| Grouping.NonEmptyMembers | Class1.cs:91 | the filter keeps exactly the slots whose character id is not 0 |
| Grouping.TypeFilterMembers | Class1.cs:91 | a group keeps exactly the entries of its distance type, the rest exactly the others |
| Grouping.GroupByTypeShape | Class1.cs:91 | groups are non-empty, no distance type has two groups, and each group is exactly the entries of its type in roster order |
| Grouping.GroupByTypePermutes | Class1.cs:91 | the groups together hold exactly the grouped entries (a permutation) |
| Grouping.IterationOrder | Class1.cs:91-94 | the order the two loops visit entries in is a permutation of the non-empty slots |
| Grouping.EmptySlotInvisible | Class1.cs:91 | inserting an empty slot anywhere changes neither the filtered roster nor the visiting order |
| Aptitude.FindTrained | Class1.cs:96 | nothing exactly when no character has the id; otherwise a character of the list with that id |
| Aptitude.FindTrainedFirst | Class1.cs:96 | the lookup returns the first character with the id |
| Aptitude.Step | Class1.cs:96-97 | an entry contributes nothing exactly when its character is missing |
| Aptitude.StepOrder | Class1.cs:106-142 | a matched entry's outcome is the first failing of surface, distance and style, or all three letters |
| Aptitude.DirtEntry | Class1.cs:106-127 | a dirt entry (type 5) takes the dirt surface grade and the mile distance grade |
| Aptitude.TurfEntry | Class1.cs:106-127 | types 1-4 take the turf grade and the short, mile, middle or long grade |
| Aptitude.StyleEntry | Class1.cs:129-142 | a counted entry has a style 1-4 and takes the nige, senko, sashi or oikomi grade |
| Aptitude.SurfaceProper | Class1.cs:106-110 | the surface switch has a default arm, so it fails only with an invalid grade; a success is a letter of the scale |
| Aptitude.DistanceProper | Class1.cs:112-127 | the label and grade switches on distance type: success only for types 1..5, with a letter of the scale; any other type fails with the no-arm error; within 1..5 only an invalid grade can fail |
| Aptitude.StyleProper | Class1.cs:129-142 | the label and grade switches on running style: success only for styles 1..4, with a letter of the scale; any other style fails with the no-arm error; within 1..4 only an invalid grade can fail |
| Aptitude.StepValid | Class1.cs:106-142 | a contributing entry's three values are letters of the scale |
| Aptitude.Resolve | Class1.cs:92-150 | a successful visit collects at most one letter triple per entry |
| Aptitude.ResolveValid | Class1.cs:92-150 | every collected triple consists of letters of the scale |
| Aptitude.ResolveSnoc | Class1.cs:92-150 | visiting one more entry either keeps an earlier failure, fails with that entry's error, skips it, or appends its letters |
| Aptitude.ResolveOkIff | Class1.cs:92-150 | a visit succeeds exactly when no entry in it fails |
| Aptitude.ResolveErrSticks | Class1.cs:92-150 | after a failure, later entries do not change the outcome |
| Aptitude.ResolveSkipsUnmatched | Class1.cs:96-97 | an entry without a character can be removed without changing the outcome |
| Aptitude.ResolvedLength | Class1.cs:96-149 | a successful visit collects exactly one triple per entry whose character is found |
| Aptitude.Bump | Class1.cs:144-149 | the update adds the key and raises its count by one, leaving every other count |
| Aptitude.Tally | Class1.cs:144-149 | every count in a dictionary is at least one |
| Aptitude.TallyStep | Class1.cs:144-149 | counting one more entry bumps its letter in each of the three dictionaries |
| Aptitude.TallyCount | Class1.cs:144-149 | a dictionary's count for a letter is the number of visited entries that contribute that letter |
| Aptitude.SameTally | Class1.cs:92-149 | two orders of the same entries give the same dictionary |
| Aptitude.OrderIndependent | Class1.cs:92-149 | two orders of the same entries both succeed or both fail, and give the same three dictionaries |
| Aptitude.TallyTotal | Class1.cs:144-149 | a dictionary's counts add up to the number of counted entries, and its keys are letters |
| Analyzer.Expected | Class1.cs:84-151 | the reference outcome of the post-selection branch: it succeeds exactly when visiting the entries in grouped order succeeds, fails with that visit's first error, and reports the chosen opponent's name |
| Analyzer.ListOpponents | Class1.cs:69-78 | one line per candidate, in order, with its strength, name, login days and play count |
| Analyzer.EntryStep | Class1.cs:94-150 | one inner-loop pass: a failing entry is the outcome of the whole visit; otherwise it is skipped or its letters are appended |
| Analyzer.FailureIsFinal | Class1.cs:92-150 | a failure of entry j of group i is the result of visiting all groups |
| Analyzer.Increment | Class1.cs:144-149 | the source's add-zero-then-increment is the bump of the dictionary at the key |
| Analyzer.CountEntry | Class1.cs:96-149 | one entry: the error of its first failing switch; no change when its character is missing; otherwise each dictionary bumped at its letter |
| Analyzer.VisitGroup | Class1.cs:94-150 | the inner loop: on failure, the error of the whole visit; otherwise the visit so far extended by the group, with the three dictionaries tallying it |
| Analyzer.AggregateCopy | Class1.cs:84-151 | the post-selection branch returns exactly the report, or the error, of visiting the grouped entries |
| Analyzer.ExpectedOrderIndependent | Class1.cs:91-151 | grouping does not matter: success exactly when visiting the non-empty slots in roster order succeeds, with the same report |
| Analyzer.Analyze | Class1.cs:61-158 | ignored exactly when the guard rejects; the listing exactly for the array branch, field by field; after selection, a report exactly when every non-empty slot resolves, equal to the expected one, or the expected error |
| Analyzer.ReportTotals | Class1.cs:143-149 | each dictionary's counts are at least one, its keys are letters, and they add up to the number of non-empty slots whose character is found |
| Analyzer.EmptySlotNeverCounts | Class1.cs:91 | an empty slot added anywhere in the roster changes nothing in the outcome |
| Analyzer.ExampleRoster | Class1.cs:84-149 | a short front-runner graded A everywhere, an empty slot and a dirt end-closer give distance {A:1, E:1}, surface {A:1, C:1} and style {A:1, F:1} |

## Left out

- `UpdatePlugin` (Class1.cs:20-58) is not modelled. It checks GitHub for a newer release, downloads it and extracts it: network and file I/O.
- The plugin metadata (name, version, author and targets, Class1.cs:14-18) is constants only.
- The console output is not modelled: the markup lines, separators and the JSON serialization of the dictionaries. The model returns the values they display (`Outcome`, `OpponentLine`, `Report`). The display text is left out because it is I/O. Failures of the display call itself are not modelled either. For example, a name containing markup characters such as `[` or `]` makes the markup call throw (Class1.cs:76, 152), where the model reports `Opponents` or `Aggregated`.
- The per-day play figure (Class1.cs:76) is not modelled. It is a floating-point division shown with one decimal, and with zero login days it gives infinity or NaN. Floating point is outside the model. `OpponentLine` carries the two integers it is computed from.
- The localized labels (`I18N_*`, Class1.cs:101-105, 112-119, 129-135) are not modelled: they come from an external string table. Only the way their switches fail is modelled, as `NoDistanceArm` and `NoStyleArm`. The label switches have the same arms as the grade switches, so they fail on the same inputs.
- The JSON input is not modelled: the dynamic probing of the raw tree and the `ToObject` conversion (Class1.cs:63-65). The response arrives already parsed, and only the three fields the code tests against null are optional.
- Null nested fields are not modelled; the model assumes they are present. A missing user info or a null array element would throw a null-reference error. A null roster would make LINQ's `Where` throw an argument-null error. A null character array would make `FirstOrDefault` throw the same, but only once a non-empty slot reaches the lookup.
- Grouping.GroupByType: the grouped dictionary is assumed to enumerate its keys in order of first appearance, as .NET does for a dictionary that is only inserted into. Success or failure and the counts do not depend on this order (`Analyzer.ExpectedOrderIndependent`). It does decide which error is reported when two entries would both fail.
- Aptitude.Bump: the three dictionaries are modelled as maps, so the order in which their keys were first inserted is not modelled. The printed JSON lists the keys in that order (Class1.cs:144-155), and that order follows the grouped visiting order.
- Aptitude.Tally: counts are unbounded integers. The 32-bit overflow of the C# `int` counters is not modelled, because a roster holds far fewer entries than that.
