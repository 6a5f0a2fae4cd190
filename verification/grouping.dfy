/**
 * Mean calculation and grouping: every player's rounded mean, and the map
 * from a mean score to the players that have it.
 */
module Grouping {

  import opened Sorting
  import opened Scores

  /**
   * The groups after adding `id` under `score`: a missing group is created
   * empty first, and `id` goes at its end.
   */
  function Enroll(groups: map<int, seq<string>>, score: int, id: string): (g: map<int, seq<string>>)
    ensures g.Keys == groups.Keys + {score}
    ensures g[score] == (if score in groups then groups[score] else []) + [id]
    ensures forall k :: k in groups && k != score ==> g[k] == groups[k]
  {
    var players := if score in groups then groups[score] else [];
    groups[score := players + [id]]
  }

  /** Go's `map[int][]string`, filled in place by AddPlayer. */
  class MeanScore {
    var groups: map<int, seq<string>>

    constructor ()
      ensures groups == map[]
    {
      groups := map[];
    }

    method AddPlayer(score: int, id: string)
      modifies this
      ensures groups == Enroll(old(groups), score, id)
    {
      if score !in groups {
        groups := groups[score := []];
      }
      groups := groups[score := groups[score] + [id]];
    }
  }

  /**
   * `groups` partitions `players` by mean score: no group is empty or repeats
   * a player, every listed player is one of `players` and sits in the group of
   * its own mean, and every one of `players` is listed there.
   */
  ghost predicate Partition(groups: map<int, seq<string>>, table: map<string, Score>, players: set<string>)
    requires AllCounted(table) && players <= table.Keys
  {
    && (forall k :: k in groups ==> groups[k] != [] && Distinct(groups[k]))
    && (forall k, id :: k in groups && id in groups[k] ==> id in players && table[id].CalcMeanScore() == k)
    && (forall id :: id in players ==> table[id].CalcMeanScore() in groups && id in groups[table[id].CalcMeanScore()])
  }

  /** `groups` partitions every player of the table by mean score. */
  ghost predicate IsGrouping(groups: map<int, seq<string>>, table: map<string, Score>)
    requires AllCounted(table)
  {
    Partition(groups, table, table.Keys)
  }

  /** A player is in exactly one group, the one keyed by its own mean. */
  lemma GroupOfPlayer(groups: map<int, seq<string>>, table: map<string, Score>, id: string, k: int)
    requires AllCounted(table) && IsGrouping(groups, table)
    requires id in table && k in groups
    ensures id in groups[k] <==> k == table[id].CalcMeanScore()
  {
  }

  /** Adding a further player to the group of its mean keeps the partition, now of one more player. */
  lemma PartitionStep(groups: map<int, seq<string>>, table: map<string, Score>, done: set<string>, id: string, after: map<int, seq<string>>)
    requires AllCounted(table) && done <= table.Keys && Partition(groups, table, done)
    requires id in table && id !in done
    requires after == Enroll(groups, table[id].CalcMeanScore(), id)
    ensures Partition(after, table, done + {id})
  {
    var score := table[id].CalcMeanScore();
    forall k | k in after
      ensures after[k] != [] && Distinct(after[k])
    {
      if k == score && score in groups {
        assert id !in groups[score];
      }
    }
  }

  /**
   * Go's CalcMeanScore over the player table: each player, visited in an
   * unspecified order, is added to the group of its rounded mean.
   */
  method CalcMeanScore(d: PlayerData) returns (m: MeanScore)
    requires AllCounted(d.scores)
    ensures fresh(m)
    ensures IsGrouping(m.groups, d.scores)
  {
    m := new MeanScore();
    var rest := d.scores.Keys;
    while rest != {}
      invariant rest <= d.scores.Keys
      invariant Partition(m.groups, d.scores, d.scores.Keys - rest)
      decreases rest
    {
      var id :| id in rest;
      var score := d.scores[id].CalcMeanScore();
      ghost var before := m.groups;
      ghost var done := d.scores.Keys - rest;
      m.AddPlayer(score, id);
      rest := rest - {id};
      PartitionStep(before, d.scores, done, id, m.groups);
      assert d.scores.Keys - rest == done + {id};
    }
  }
}
