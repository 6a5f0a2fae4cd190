/**
 * What PrintRank promises about the lines it prints, stated for Emit over any
 * descending keys, any groups and any limit: where each line comes from, the
 * bounds on the ranks, the order of the lines with the rank rule, and that a
 * group is printed in full unless the counter had already passed the limit.
 * Each law is a predicate on a sequence of lines, shown for one block, kept
 * by concatenation, and carried through Emit by induction.
 */
module RankingLaws {

  import opened Lexicographic
  import opened Ranking

  /** Player ids in strictly ascending byte order. */
  predicate Ascending(ids: seq<string>) {
    forall a, b :: 0 <= a < b < |ids| ==> Less(ids[a], ids[b])
  }

  /** Every group the keys name is in strictly ascending order. */
  predicate GroupsAscending(keys: seq<int>, sorted: map<int, seq<string>>) {
    forall j :: 0 <= j < |keys| ==> Ascending(Group(sorted, keys[j]))
  }

  /** Every line shows a player of the group of its own score. */
  predicate FromGroups(lines: seq<Line>, sorted: map<int, seq<string>>) {
    forall l :: l in lines ==> l.id in Group(sorted, l.score)
  }

  /** Every score is at most `hi`. */
  predicate ScoresAtMost(lines: seq<Line>, hi: int) {
    forall l :: l in lines ==> l.score <= hi
  }

  /** Every score is strictly greater than `lo`. */
  predicate ScoresAbove(lines: seq<Line>, lo: int) {
    forall l :: l in lines ==> lo < l.score
  }

  /**
   * The rank rule for two lines `p` before `q`, in lines whose first rank is
   * `rank`: the later score is not higher; equal scores share their rank and
   * are in id order; a line scoring below the line just before it has rank
   * `rank` plus the number of lines before it.
   */
  ghost predicate PairRanked(lines: seq<Line>, rank: int, p: int, q: int)
    requires 0 <= p < q < |lines|
  {
    && lines[q].score <= lines[p].score
    && (lines[p].score == lines[q].score ==> lines[p].rank == lines[q].rank && Less(lines[p].id, lines[q].id))
    && (q == p + 1 && lines[q].score != lines[p].score ==> lines[q].rank == rank + q)
  }

  /** The rank rule for a whole run of lines: the first line has rank `rank`, and every pair obeys it. */
  ghost predicate Ranked(lines: seq<Line>, rank: int) {
    && (|lines| > 0 ==> lines[0].rank == rank)
    && (forall p, q :: 0 <= p < q < |lines| ==> PairRanked(lines, rank, p, q))
  }

  /** Some line shows player `id` with mean `score`. */
  predicate Listed(lines: seq<Line>, id: string, score: int) {
    exists p :: 0 <= p < |lines| && lines[p].id == id && lines[p].score == score
  }

  /** Every player of `ids` is shown with mean `score`. */
  predicate Shown(lines: seq<Line>, ids: seq<string>, score: int) {
    forall x :: x in ids ==> Listed(lines, x, score)
  }

  /** The lines of a block carry its rank and score and one of its players each. */
  lemma BlockLines(rank: int, ids: seq<string>, score: int)
    ensures forall l :: l in Block(rank, ids, score) ==> l.rank == rank && l.score == score && l.id in ids
  {
    var block := Block(rank, ids, score);
    forall l | l in block
      ensures l.rank == rank && l.score == score && l.id in ids
    {
      var q :| 0 <= q < |block| && block[q] == l;
    }
  }

  /** A block of ascending ids obeys the rank rule. */
  lemma BlockRanked(rank: int, ids: seq<string>, score: int)
    requires Ascending(ids)
    ensures Ranked(Block(rank, ids, score), rank)
  {
    var block := Block(rank, ids, score);
    forall p, q | 0 <= p < q < |block|
      ensures PairRanked(block, rank, p, q)
    {
      assert Less(ids[p], ids[q]);
    }
  }

  /** A block shows every one of its players. */
  lemma BlockShown(rank: int, ids: seq<string>, score: int)
    ensures Shown(Block(rank, ids, score), ids, score)
  {
    var block := Block(rank, ids, score);
    forall x | x in ids
      ensures Listed(block, x, score)
    {
      var q :| 0 <= q < |ids| && ids[q] == x;
      assert block[q].id == x && block[q].score == score;
    }
  }

  /** Joining two runs of lines keeps the rank rule when the second scores below the first. */
  lemma RankedConcat(a: seq<Line>, b: seq<Line>, rank: int, next: int, bound: int)
    requires next == rank + |a|
    requires Ranked(a, rank) && Ranked(b, next)
    requires ScoresAbove(a, bound) && ScoresAtMost(b, bound)
    ensures Ranked(a + b, rank)
  {
    var c := a + b;
    forall p, q | 0 <= p < q < |c|
      ensures PairRanked(c, rank, p, q)
    {
      if q < |a| {
        assert PairRanked(a, rank, p, q);
        assert c[p] == a[p] && c[q] == a[q];
      } else if p < |a| {
        assert c[p] == a[p] && c[q] == b[q - |a|];
      } else {
        assert PairRanked(b, next, p - |a|, q - |a|);
        assert c[p] == b[p - |a|] && c[q] == b[q - |a|];
      }
    }
  }

  /** A player listed in one run of lines is listed after anything is appended or prepended. */
  lemma ShownConcat(a: seq<Line>, b: seq<Line>, ids: seq<string>, score: int)
    requires Shown(a, ids, score) || Shown(b, ids, score)
    ensures Shown(a + b, ids, score)
  {
    forall x | x in ids
      ensures Listed(a + b, x, score)
    {
      if Shown(a, ids, score) {
        var p :| 0 <= p < |a| && a[p].id == x && a[p].score == score;
        assert (a + b)[p] == a[p];
      } else {
        var p :| 0 <= p < |b| && b[p].id == x && b[p].score == score;
        assert (a + b)[|a| + p] == b[p];
      }
    }
  }

  lemma BlockFromGroups(rank: int, ids: seq<string>, sorted: map<int, seq<string>>, k: int)
    requires ids == Group(sorted, k)
    ensures FromGroups(Block(rank, ids, k), sorted)
  {
    BlockLines(rank, ids, k);
  }

  lemma FromGroupsConcat(a: seq<Line>, b: seq<Line>, sorted: map<int, seq<string>>)
    requires FromGroups(a, sorted) && FromGroups(b, sorted)
    ensures FromGroups(a + b, sorted)
  {
  }

  /** Every line Emit produces shows a player of the group of its own score. */
  lemma {:induction false} EmitFromGroups(keys: seq<int>, i: nat, sorted: map<int, seq<string>>, rank: int, limit: int)
    requires i <= |keys|
    ensures FromGroups(Emit(keys, i, sorted, rank, limit), sorted)
    decreases |keys| - i
  {
    if i < |keys| {
      var ids := Group(sorted, keys[i]);
      BlockFromGroups(rank, ids, sorted, keys[i]);
      if rank + |ids| > limit {
        EmitLast(keys, sorted, rank, limit, i, ids);
      } else {
        EmitFromGroups(keys, i + 1, sorted, rank + |ids|, limit);
        FromGroupsConcat(Block(rank, ids, keys[i]), Emit(keys, i + 1, sorted, rank + |ids|, limit), sorted);
        EmitUnfold(keys, sorted, rank, limit, i, ids);
      }
    }
  }

  lemma BlockScores(rank: int, ids: seq<string>, k: int, lo: int, hi: int)
    requires lo < k <= hi
    ensures ScoresAtMost(Block(rank, ids, k), hi) && ScoresAbove(Block(rank, ids, k), lo)
  {
    BlockLines(rank, ids, k);
  }

  lemma ScoresConcat(a: seq<Line>, b: seq<Line>, lo: int, hi: int)
    ensures ScoresAtMost(a, hi) && ScoresAtMost(b, hi) ==> ScoresAtMost(a + b, hi)
    ensures ScoresAbove(a, lo) && ScoresAbove(b, lo) ==> ScoresAbove(a + b, lo)
  {
  }

  lemma ScoresAtMostWeaken(lines: seq<Line>, hi: int, hi': int)
    requires ScoresAtMost(lines, hi) && hi <= hi'
    ensures ScoresAtMost(lines, hi')
  {
  }

  lemma EmitEnd(keys: seq<int>, sorted: map<int, seq<string>>, rank: int, limit: int)
    ensures Emit(keys, |keys|, sorted, rank, limit) == []
  {
  }

  /** The groups after the one of `keys[i]` emit only scores below `keys[i]`. */
  lemma EmitRestBelow(keys: seq<int>, i: nat, sorted: map<int, seq<string>>, rank: int, limit: int)
    requires i < |keys| && Descending(keys)
    ensures ScoresAtMost(Emit(keys, i + 1, sorted, rank, limit), keys[i] - 1)
    decreases |keys| - i, 0
  {
    if i + 1 < |keys| {
      EmitScores(keys, i + 1, sorted, rank, limit);
      assert keys[i + 1] < keys[i];
      ScoresAtMostWeaken(Emit(keys, i + 1, sorted, rank, limit), keys[i + 1], keys[i] - 1);
    } else {
      EmitEnd(keys, sorted, rank, limit);
    }
  }

  /** Over descending keys, Emit from `keys[i]` on shows no score above `keys[i]`. */
  lemma {:induction false} EmitScores(keys: seq<int>, i: nat, sorted: map<int, seq<string>>, rank: int, limit: int)
    requires i < |keys| && Descending(keys)
    ensures ScoresAtMost(Emit(keys, i, sorted, rank, limit), keys[i])
    decreases |keys| - i, 1
  {
    var ids := Group(sorted, keys[i]);
    BlockScores(rank, ids, keys[i], keys[i] - 1, keys[i]);
    if rank + |ids| > limit {
      EmitLast(keys, sorted, rank, limit, i, ids);
    } else {
      EmitRestBelow(keys, i, sorted, rank + |ids|, limit);
      var rest := Emit(keys, i + 1, sorted, rank + |ids|, limit);
      ScoresAtMostWeaken(rest, keys[i] - 1, keys[i]);
      ScoresConcat(Block(rank, ids, keys[i]), rest, keys[i] - 1, keys[i]);
      EmitUnfold(keys, sorted, rank, limit, i, ids);
    }
  }

  /** Every rank lies between `lo` and `hi`. */
  predicate RanksWithin(lines: seq<Line>, lo: int, hi: int) {
    forall l :: l in lines ==> lo <= l.rank <= hi
  }

  lemma BlockRanksWithin(rank: int, ids: seq<string>, k: int, lo: int, hi: int)
    requires lo <= rank <= hi
    ensures RanksWithin(Block(rank, ids, k), lo, hi)
  {
    BlockLines(rank, ids, k);
  }

  lemma RanksWithinConcat(a: seq<Line>, b: seq<Line>, lo: int, mid: int, hi: int)
    requires lo <= mid && RanksWithin(a, lo, hi) && RanksWithin(b, mid, hi)
    ensures RanksWithin(a + b, lo, hi)
  {
  }

  /** Started within the limit, Emit shows no rank below its start or above the limit. */
  lemma {:induction false} EmitRanks(keys: seq<int>, i: nat, sorted: map<int, seq<string>>, rank: int, limit: int)
    requires i <= |keys| && rank <= limit
    ensures RanksWithin(Emit(keys, i, sorted, rank, limit), rank, limit)
    decreases |keys| - i
  {
    if i < |keys| {
      var ids := Group(sorted, keys[i]);
      BlockRanksWithin(rank, ids, keys[i], rank, limit);
      if rank + |ids| > limit {
        EmitLast(keys, sorted, rank, limit, i, ids);
      } else {
        EmitRanks(keys, i + 1, sorted, rank + |ids|, limit);
        RanksWithinConcat(Block(rank, ids, keys[i]), Emit(keys, i + 1, sorted, rank + |ids|, limit), rank, rank + |ids|, limit);
        EmitUnfold(keys, sorted, rank, limit, i, ids);
      }
    }
  }

  /** Over descending keys and ascending groups, Emit obeys the rank rule from its starting rank. */
  lemma {:induction false} EmitRanked(keys: seq<int>, i: nat, sorted: map<int, seq<string>>, rank: int, limit: int)
    requires i <= |keys| && Descending(keys) && GroupsAscending(keys, sorted)
    ensures Ranked(Emit(keys, i, sorted, rank, limit), rank)
    decreases |keys| - i
  {
    if i < |keys| {
      var ids := Group(sorted, keys[i]);
      assert Ascending(ids);
      BlockRanked(rank, ids, keys[i]);
      if rank + |ids| > limit {
        EmitLast(keys, sorted, rank, limit, i, ids);
      } else {
        EmitRanked(keys, i + 1, sorted, rank + |ids|, limit);
        EmitRestBelow(keys, i, sorted, rank + |ids|, limit);
        BlockScores(rank, ids, keys[i], keys[i] - 1, keys[i]);
        RankedConcat(Block(rank, ids, keys[i]), Emit(keys, i + 1, sorted, rank + |ids|, limit), rank, rank + |ids|, keys[i] - 1);
        EmitUnfold(keys, sorted, rank, limit, i, ids);
      }
    }
  }

  /**
   * A group is covered by some lines when all its players are shown, or when
   * the lines ran past the limit and every one of them scores above the group.
   */
  predicate Covered(lines: seq<Line>, ids: seq<string>, score: int, rank: int, limit: int) {
    Shown(lines, ids, score) || (rank + |lines| > limit && ScoresAbove(lines, score))
  }

  /** A group covered by the rest stays covered once a block scoring above it goes in front. */
  lemma CoveredStep(block: seq<Line>, rest: seq<Line>, ids: seq<string>, score: int, rank: int, limit: int)
    requires Covered(rest, ids, score, rank + |block|, limit)
    requires ScoresAbove(block, score)
    ensures Covered(block + rest, ids, score, rank, limit)
  {
    if Shown(rest, ids, score) {
      ShownConcat(block, rest, ids, score);
    } else {
      ScoresConcat(block, rest, score, score);
    }
  }

  /**
   * Every group from `keys[i]` on is either printed in full or, once the
   * counter has passed the limit, left out below everything printed.
   */
  lemma {:induction false} EmitComplete(keys: seq<int>, i: nat, sorted: map<int, seq<string>>, rank: int, limit: int)
    requires i <= |keys| && Descending(keys)
    ensures forall j :: i <= j < |keys| ==> Covered(Emit(keys, i, sorted, rank, limit), Group(sorted, keys[j]), keys[j], rank, limit)
    decreases |keys| - i
  {
    if i < |keys| {
      var ids := Group(sorted, keys[i]);
      var block := Block(rank, ids, keys[i]);
      var lines := Emit(keys, i, sorted, rank, limit);
      BlockShown(rank, ids, keys[i]);
      if rank + |ids| > limit {
        EmitLast(keys, sorted, rank, limit, i, ids);
        forall j | i < j < |keys|
          ensures Covered(lines, Group(sorted, keys[j]), keys[j], rank, limit)
        {
          BlockScores(rank, ids, keys[i], keys[j], keys[i]);
        }
      } else {
        var rest := Emit(keys, i + 1, sorted, rank + |ids|, limit);
        EmitComplete(keys, i + 1, sorted, rank + |ids|, limit);
        ShownConcat(block, rest, ids, keys[i]);
        forall j | i < j < |keys|
          ensures Covered(block + rest, Group(sorted, keys[j]), keys[j], rank, limit)
        {
          BlockScores(rank, ids, keys[i], keys[j], keys[i]);
          CoveredStep(block, rest, Group(sorted, keys[j]), keys[j], rank, limit);
        }
        EmitUnfold(keys, sorted, rank, limit, i, ids);
      }
    }
  }
}
