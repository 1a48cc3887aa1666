/** The LINQ pipeline of Class1.cs line 91: drop empty slots, then group the
    remaining roster entries by distance type. The grouped dictionary is
    enumerated key by key in order of first appearance, and each group keeps
    the entries in their original order. */
module Grouping {
  import opened Response

  datatype Group = Group(distanceType: int, members: seq<TeamData>)

  /** The Where filter: the occupied slots (character id not 0), in order. */
  function NonEmpty(team: seq<TeamData>): (r: seq<TeamData>)
    ensures |r| <= |team|
  {
    if team == [] then []
    else (if team[0].trainedCharaId != 0 then [team[0]] else []) + NonEmpty(team[1..])
  }

  /** The entries of distance type d, in order. */
  function WithType(xs: seq<TeamData>, d: int): (r: seq<TeamData>)
    ensures |r| <= |xs|
  {
    if xs == [] then []
    else (if xs[0].distanceType == d then [xs[0]] else []) + WithType(xs[1..], d)
  }

  /** The entries of every other distance type, in order. */
  function OtherTypes(xs: seq<TeamData>, d: int): (r: seq<TeamData>)
    ensures |r| <= |xs|
  {
    if xs == [] then []
    else (if xs[0].distanceType != d then [xs[0]] else []) + OtherTypes(xs[1..], d)
  }

  /** The filter keeps exactly the occupied slots. */
  lemma {:induction false} NonEmptyMembers(team: seq<TeamData>, k: TeamData)
    ensures k in NonEmpty(team) <==> k in team && k.trainedCharaId != 0
  {
    if team != [] {
      NonEmptyMembers(team[1..], k);
      assert team == [team[0]] + team[1..];
    }
  }

  /** The two filters keep exactly the entries of type d and of other types. */
  lemma {:induction false} TypeFilterMembers(xs: seq<TeamData>, d: int, k: TeamData)
    ensures k in WithType(xs, d) <==> k in xs && k.distanceType == d
    ensures k in OtherTypes(xs, d) <==> k in xs && k.distanceType != d
  {
    if xs != [] {
      TypeFilterMembers(xs[1..], d, k);
      assert xs == [xs[0]] + xs[1..];
    }
  }

  /** GroupBy(x => x.distance_type): one group per distance type, keyed by
      the first entry still ungrouped. */
  function GroupByType(xs: seq<TeamData>): (r: seq<Group>)
    ensures |r| <= |xs|
    decreases |xs|
  {
    if xs == [] then []
    else
      var d := xs[0].distanceType;
      assert OtherTypes(xs, d) == OtherTypes(xs[1..], d);
      [Group(d, WithType(xs, d))] + GroupByType(OtherTypes(xs, d))
  }

  /** Every group is non-empty, no distance type has two groups, and each
      group holds exactly the entries of its type, in their original order. */
  lemma {:induction false} GroupByTypeShape(xs: seq<TeamData>)
    ensures forall i :: 0 <= i < |GroupByType(xs)| ==> GroupByType(xs)[i].members != []
    ensures forall i, j :: 0 <= i < j < |GroupByType(xs)| ==>
      GroupByType(xs)[i].distanceType != GroupByType(xs)[j].distanceType
    ensures forall i :: 0 <= i < |GroupByType(xs)| ==>
      GroupByType(xs)[i].members == WithType(xs, GroupByType(xs)[i].distanceType)
    decreases |xs|
  {
    if xs != [] {
      var d := xs[0].distanceType;
      var rest := OtherTypes(xs, d);
      assert rest == OtherTypes(xs[1..], d);
      var tail := GroupByType(rest);
      GroupByTypeShape(rest);
      TypeFilterMembers(xs, d, xs[0]);
      forall i | 0 <= i < |tail|
        ensures tail[i].distanceType != d
        ensures tail[i].members == WithType(xs, tail[i].distanceType)
      {
        var k := tail[i].members[0];
        TypeFilterMembers(rest, tail[i].distanceType, k);
        TypeFilterMembers(xs, d, k);
        OtherThenWith(xs, d, tail[i].distanceType);
      }
      assert GroupByType(xs) == [Group(d, WithType(xs, d))] + tail;
    }
  }

  /** Taking type e out of the entries of types other than d is taking it
      out of all entries, when e differs from d. */
  lemma {:induction false} OtherThenWith(xs: seq<TeamData>, d: int, e: int)
    requires d != e
    ensures WithType(OtherTypes(xs, d), e) == WithType(xs, e)
  {
    if xs != [] {
      var x, rest := xs[0], OtherTypes(xs[1..], d);
      OtherThenWith(xs[1..], d, e);
      if x.distanceType != d {
        var o := [x] + rest;
        assert OtherTypes(xs, d) == o;
        assert o[0] == x && o[1..] == rest;
        assert WithType(o, e) == (if x.distanceType == e then [x] else []) + WithType(rest, e);
      } else {
        assert OtherTypes(xs, d) == rest;
        assert WithType(xs, e) == WithType(xs[1..], e);
      }
    }
  }

  /** The entries of the groups, group by group. */
  function Flatten(gs: seq<Group>): seq<TeamData> {
    if gs == [] then [] else Flatten(gs[..|gs| - 1]) + gs[|gs| - 1].members
  }

  lemma {:induction false} FlattenAppend(a: seq<Group>, b: seq<Group>)
    ensures Flatten(a + b) == Flatten(a) + Flatten(b)
    decreases |b|
  {
    if b == [] {
      assert a + b == a;
    } else {
      var c := a + b;
      assert c[..|c| - 1] == a + b[..|b| - 1];
      assert c[|c| - 1] == b[|b| - 1];
      FlattenAppend(a, b[..|b| - 1]);
    }
  }

  /** Splitting by one distance type loses and duplicates nothing. */
  lemma {:induction false} SplitByType(xs: seq<TeamData>, d: int)
    ensures multiset(xs) == multiset(WithType(xs, d)) + multiset(OtherTypes(xs, d))
  {
    if xs != [] {
      SplitByType(xs[1..], d);
      assert xs == [xs[0]] + xs[1..];
    }
  }

  /** Grouping only reorders: the groups together hold exactly the input. */
  lemma {:induction false} GroupByTypePermutes(xs: seq<TeamData>)
    ensures multiset(Flatten(GroupByType(xs))) == multiset(xs)
    decreases |xs|
  {
    if xs != [] {
      var d := xs[0].distanceType;
      var rest := OtherTypes(xs, d);
      assert rest == OtherTypes(xs[1..], d);
      var g := Group(d, WithType(xs, d));
      assert GroupByType(xs) == [g] + GroupByType(rest);
      FlattenAppend([g], GroupByType(rest));
      assert Flatten([g]) == g.members by {
        assert [g][..0] == [];
      }
      GroupByTypePermutes(rest);
      SplitByType(xs, d);
    }
  }

  /** The order in which Analyze visits the roster entries: group after
      group, each in roster order. It is a permutation of the non-empty slots. */
  function IterationOrder(team: seq<TeamData>): (r: seq<TeamData>)
    ensures multiset(r) == multiset(NonEmpty(team))
  {
    GroupByTypePermutes(NonEmpty(team));
    Flatten(GroupByType(NonEmpty(team)))
  }

  /** Inserting an empty slot anywhere changes nothing the loop sees. */
  lemma {:induction false} EmptySlotInvisible(a: seq<TeamData>, z: TeamData, b: seq<TeamData>)
    requires z.trainedCharaId == 0
    ensures NonEmpty(a + [z] + b) == NonEmpty(a + b)
    ensures IterationOrder(a + [z] + b) == IterationOrder(a + b)
  {
    if a == [] {
      var c := [z] + b;
      assert a + [z] + b == c && a + b == b;
      assert c[0] == z && c[1..] == b;
    } else {
      assert (a + [z] + b)[1..] == a[1..] + [z] + b;
      assert (a + b)[1..] == a[1..] + b;
      EmptySlotInvisible(a[1..], z, b);
    }
  }
}
