/**
 * The leaderboard of a whole player table: what PrintRank prints for any
 * grouping CalcMeanScore can build, whatever order the maps were visited in.
 * Every line shows a real player with its own mean, ranks run from 1 to
 * RankLimit, the rank rule holds, no player appears twice, every player is
 * either shown or below everyone shown, and the output is the same for every
 * grouping of the same table.
 */
module Leaderboard {

  import opened Wrappers
  import opened Input
  import opened Sorting
  import opened Lexicographic
  import opened Scores
  import opened Grouping
  import opened Ranking
  import opened RankingLaws

  /** A group without repeated players, once sorted, is strictly ascending and holds the same players. */
  lemma SortedGroup(ids: seq<string>)
    requires Distinct(ids)
    ensures Ascending(Sort(ids, LessEq))
    ensures multiset(Sort(ids, LessEq)) == multiset(ids)
  {
    var s := Sort(ids, LessEq);
    LessEqTotalOrder();
    SortSorted(ids, LessEq);
    DistinctPermutation(ids, s);
    forall a, b | 0 <= a < b < |s|
      ensures Less(s[a], s[b])
    {
      assert LessEq(s[a], s[b]);
    }
  }

  lemma SortedGroupsAscending(groups: map<int, seq<string>>, keys: seq<int>)
    requires forall k :: k in groups ==> Distinct(groups[k])
    ensures GroupsAscending(keys, SortGroups(groups))
  {
    forall j | 0 <= j < |keys|
      ensures Ascending(Group(SortGroups(groups), keys[j]))
    {
      if keys[j] in groups {
        SortedGroup(groups[keys[j]]);
      }
    }
  }

  /** Sorting a group neither adds nor drops a player. */
  lemma InSortedGroup(groups: map<int, seq<string>>, k: int, id: string)
    requires k in groups
    ensures id in Group(SortGroups(groups), k) <==> id in groups[k]
  {
    var s := Sort(groups[k], LessEq);
    assert id in s <==> id in multiset(s);
    assert id in groups[k] <==> id in multiset(groups[k]);
  }

  /** A player listed in a group is one of the table, and that group is keyed by its mean. */
  lemma GroupMember(groups: map<int, seq<string>>, table: map<string, Score>, k: int, id: string)
    requires AllCounted(table) && IsGrouping(groups, table)
    requires k in groups && id in groups[k]
    ensures id in table && table[id].CalcMeanScore() == k
  {
  }

  /** Every line of the leaderboard shows a player of the table with its own mean, at a rank from 1 to RankLimit. */
  lemma RankingLines(groups: map<int, seq<string>>, table: map<string, Score>)
    requires AllCounted(table) && IsGrouping(groups, table)
    ensures forall l :: l in Standings(groups) ==>
      && l.id in table && table[l.id].CalcMeanScore() == l.score
      && 1 <= l.rank <= RankLimit
  {
    var keys := DescKeys(groups.Keys);
    var sorted := SortGroups(groups);
    EmitFromGroups(keys, 0, sorted, 1, RankLimit);
    EmitRanks(keys, 0, sorted, 1, RankLimit);
    forall l | l in Standings(groups)
      ensures l.id in table && table[l.id].CalcMeanScore() == l.score
    {
      assert l.id in Group(sorted, l.score);
      InSortedGroup(groups, l.score, l.id);
      GroupMember(groups, table, l.score, l.id);
    }
  }

  /**
   * The leaderboard obeys the rank rule from rank 1: scores never rise, ties
   * share a rank and are listed by ascending id, and a line scoring below the
   * one before it is ranked one more than the number of lines before it.
   */
  lemma RankingOrdered(groups: map<int, seq<string>>, table: map<string, Score>)
    requires AllCounted(table) && IsGrouping(groups, table)
    ensures Ranked(Standings(groups), 1)
  {
    var keys := DescKeys(groups.Keys);
    SortedGroupsAscending(groups, keys);
    EmitRanked(keys, 0, SortGroups(groups), 1, RankLimit);
  }

  /** No player is listed twice. */
  lemma RankingDistinct(groups: map<int, seq<string>>, table: map<string, Score>)
    requires AllCounted(table) && IsGrouping(groups, table)
    ensures forall p, q :: 0 <= p < q < |Standings(groups)| ==> Standings(groups)[p].id != Standings(groups)[q].id
  {
    var lines := Standings(groups);
    RankingLines(groups, table);
    RankingOrdered(groups, table);
    forall p, q | 0 <= p < q < |lines|
      ensures lines[p].id != lines[q].id
    {
      assert lines[p] in lines && lines[q] in lines;
      assert PairRanked(lines, 1, p, q);
      LessIrreflexive(lines[p].id);
    }
  }

  /**
   * Every player of the table is listed with its mean, unless the leaderboard
   * already holds at least RankLimit lines, all scoring above that player.
   */
  lemma RankingComplete(groups: map<int, seq<string>>, table: map<string, Score>)
    requires AllCounted(table) && IsGrouping(groups, table)
    ensures forall id :: id in table ==>
      || Listed(Standings(groups), id, table[id].CalcMeanScore())
      || (|Standings(groups)| >= RankLimit && ScoresAbove(Standings(groups), table[id].CalcMeanScore()))
  {
    var keys := DescKeys(groups.Keys);
    var sorted := SortGroups(groups);
    var lines := Standings(groups);
    EmitComplete(keys, 0, sorted, 1, RankLimit);
    forall id | id in table
      ensures Listed(lines, id, table[id].CalcMeanScore()) || (|lines| >= RankLimit && ScoresAbove(lines, table[id].CalcMeanScore()))
    {
      var k := table[id].CalcMeanScore();
      assert k in Elems(keys);
      var j :| 0 <= j < |keys| && keys[j] == k;
      assert Covered(lines, Group(sorted, k), k, 1, RankLimit);
      InSortedGroup(groups, k, id);
    }
  }

  /** A group is printed whole or not at all: once one line shows a mean, every player with that mean is listed. */
  lemma RankingGroupsWhole(groups: map<int, seq<string>>, table: map<string, Score>)
    requires AllCounted(table) && IsGrouping(groups, table)
    ensures forall id, p :: id in table && 0 <= p < |Standings(groups)| && Standings(groups)[p].score == table[id].CalcMeanScore() ==>
      Listed(Standings(groups), id, table[id].CalcMeanScore())
  {
    var lines := Standings(groups);
    RankingComplete(groups, table);
    forall id, p | id in table && 0 <= p < |lines| && lines[p].score == table[id].CalcMeanScore()
      ensures Listed(lines, id, table[id].CalcMeanScore())
    {
      assert lines[p] in lines;
    }
  }

  /** Two groupings of one table hold the same players under the same keys. */
  lemma GroupingsAgree(g1: map<int, seq<string>>, g2: map<int, seq<string>>, table: map<string, Score>, k: int)
    requires AllCounted(table) && IsGrouping(g1, table) && IsGrouping(g2, table)
    requires k in g1
    ensures k in g2 && Elems(g1[k]) == Elems(g2[k])
  {
    assert g1[k][0] in g1[k];
    forall id ensures id in g1[k] <==> k in g2 && id in g2[k] {
      if id in g1[k] {
        GroupOfPlayer(g1, table, id, k);
      }
      if k in g2 && id in g2[k] {
        GroupOfPlayer(g2, table, id, k);
      }
    }
  }

  /**
   * The leaderboard depends only on the table: every grouping of it, in
   * whatever order the players were added, prints the same lines.
   */
  lemma RankingDeterministic(g1: map<int, seq<string>>, g2: map<int, seq<string>>, table: map<string, Score>)
    requires AllCounted(table) && IsGrouping(g1, table) && IsGrouping(g2, table)
    ensures Standings(g1) == Standings(g2)
  {
    forall k | k in g1 ensures k in g2 {
      GroupingsAgree(g1, g2, table, k);
    }
    forall k | k in g2 ensures k in g1 {
      GroupingsAgree(g2, g1, table, k);
    }
    assert g1.Keys == g2.Keys;
    LessEqTotalOrder();
    forall k | k in g1
      ensures SortGroups(g1)[k] == SortGroups(g2)[k]
    {
      GroupingsAgree(g1, g2, table, k);
      DistinctSameElems(g1[k], g2[k]);
      SortSorted(g1[k], LessEq);
      SortSorted(g2[k], LessEq);
      SortedUnique(Sort(g1[k], LessEq), Sort(g2[k], LessEq), LessEq);
    }
    assert SortGroups(g1) == SortGroups(g2);
  }

  /**
   * The pipeline main runs once the header is accepted, without the file:
   * load the table, group it by mean and print the ranking. A load error
   * stops it before anything is printed. Otherwise the lines are the
   * leaderboard of the loaded table, which every grouping of it agrees on.
   */
  method Report(rows: seq<ReadResult>) returns (lines: seq<Line>, err: Option<LoadError>)
    ensures err == Scan(rows).err
    ensures err.Some? ==> lines == []
    ensures err.None? ==> AllCounted(Aggregate(Scan(rows).events))
    ensures err.None? ==> Ranked(lines, 1)
    ensures err.None? ==> forall l :: l in lines ==>
      && l.id in Aggregate(Scan(rows).events)
      && Aggregate(Scan(rows).events)[l.id].CalcMeanScore() == l.score
      && 1 <= l.rank <= RankLimit
    ensures err.None? ==> forall g :: IsGrouping(g, Aggregate(Scan(rows).events)) ==> lines == Standings(g)
  {
    var p;
    p, err := LoadScore(rows);
    if err.Some? {
      return [], err;
    }
    ghost var table := Aggregate(Scan(rows).events);
    AggregateCounted(Scan(rows).events);
    var m := CalcMeanScore(p);
    ghost var groups := m.groups;
    lines := PrintRank(m);
    RankingOrdered(groups, table);
    RankingLines(groups, table);
    forall g | IsGrouping(g, table)
      ensures lines == Standings(g)
    {
      RankingDeterministic(groups, g, table);
    }
  }

  /** The table of the example log: `a` scores 10 and 20, `b` scores 15. */
  lemma ExampleTable()
    ensures Aggregate([Event("a", 10), Event("a", 20), Event("b", 15)]) == map["a" := Score(30, 2), "b" := Score(15, 1)]
  {
    var e1 := [Event("a", 10)];
    var e2 := e1 + [Event("a", 20)];
    var e3 := e2 + [Event("b", 15)];
    assert e1[..0] == [] && e2[..1] == e1 && e3[..2] == e2;
    assert Aggregate(e1) == map["a" := Score(10, 1)];
    assert Aggregate(e2) == map["a" := Score(30, 2)];
    assert Aggregate(e3) == map["a" := Score(30, 2), "b" := Score(15, 1)];
    assert e3 == [Event("a", 10), Event("a", 20), Event("b", 15)];
  }

  /** In the example both players have mean 15, so one group holds them both. */
  lemma ExampleGrouping()
    ensures AllCounted(map["a" := Score(30, 2), "b" := Score(15, 1)])
    ensures IsGrouping(map[15 := ["a", "b"]], map["a" := Score(30, 2), "b" := Score(15, 1)])
  {
    var table := map["a" := Score(30, 2), "b" := Score(15, 1)];
    assert table["a"].CalcMeanScore() == 15 && table["b"].CalcMeanScore() == 15;
    assert table.Keys == {"a", "b"};
  }

  /** The example's one key, listed. */
  lemma ExampleKeys()
    ensures DescKeys({15}) == [15]
  {
    assert Elems([15]) == {15};
    DescendingUnique(DescKeys({15}), [15]);
  }

  /** The example's group is already in id order. */
  lemma ExampleSorted()
    ensures SortGroups(map[15 := ["a", "b"]]) == map[15 := ["a", "b"]]
  {
    assert Sort(["a", "b"], LessEq) == ["a", "b"] by {
      assert Less("a", "b");
      assert Sort(["b"], LessEq) == ["b"];
    }
  }

  /** The example's single group, emitted: both players at rank 1, in id order. */
  lemma ExampleEmit()
    ensures Emit([15], 0, map[15 := ["a", "b"]], 1, RankLimit) == [Line(1, "a", 15), Line(1, "b", 15)]
  {
    var g := map[15 := ["a", "b"]];
    EmitUnfold([15], g, 1, RankLimit, 0, ["a", "b"]);
    EmitEnd([15], g, 3, RankLimit);
    assert Block(1, ["a", "b"], 15) == [Line(1, "a", 15), Line(1, "b", 15)];
  }

  lemma ExampleStandings()
    ensures Standings(map[15 := ["a", "b"]]) == [Line(1, "a", 15), Line(1, "b", 15)]
  {
    var g := map[15 := ["a", "b"]];
    assert g.Keys == {15};
    ExampleKeys();
    ExampleSorted();
    ExampleEmit();
  }

  /**
   * The example log end to end: `a` scores 10 and 20 and `b` scores 15, so
   * both have mean 15; they tie, are listed in id order and share rank 1,
   * whatever grouping is built.
   */
  lemma ExampleLeaderboard(groups: map<int, seq<string>>)
    requires AllCounted(Aggregate([Event("a", 10), Event("a", 20), Event("b", 15)]))
    requires IsGrouping(groups, Aggregate([Event("a", 10), Event("a", 20), Event("b", 15)]))
    ensures Standings(groups) == [Line(1, "a", 15), Line(1, "b", 15)]
  {
    ExampleTable();
    ExampleGrouping();
    RankingDeterministic(groups, map[15 := ["a", "b"]], map["a" := Score(30, 2), "b" := Score(15, 1)]);
    ExampleStandings();
  }
}
