/**
 * Ranking emission: the mean scores in descending order, each group's
 * players in ascending order, one shared rank per group, the rank counter
 * advanced by the group's size, and no group started once the counter has
 * passed the limit.
 */
module Ranking {

  import opened Sorting
  import opened Lexicographic
  import opened Grouping

  /** The number of ranks the leaderboard shows. */
  const RankLimit := 10

  /** One output line: `rank,player_id,mean_score`. */
  datatype Line = Line(rank: int, id: string, score: int)

  predicate Descending(keys: seq<int>) {
    forall i, j :: 0 <= i < j < |keys| ==> keys[i] > keys[j]
  }

  predicate AtLeast(a: int, b: int) {
    a >= b
  }

  lemma AtLeastTotalOrder()
    ensures TotalOrder(AtLeast)
  {
  }

  lemma HasElement(s: set<int>)
    requires s != {}
    ensures exists x :: x in s
  {
    if forall x :: x !in s {
      assert false;
    }
  }

  ghost function MaxOf(s: set<int>): (m: int)
    requires s != {}
    ensures m in s && forall x :: x in s ==> x <= m
  {
    HasElement(s);
    var x :| x in s;
    if s == {x} then
      assert forall y :: y in s ==> y in {x};
      x
    else
      var r := MaxOf(s - {x});
      assert forall y :: y in s ==> y == x || y in s - {x};
      if x < r then r else x
  }

  /** The keys of a set, largest first: a reference definition by repeated maximum. */
  ghost function DescKeys(s: set<int>): (keys: seq<int>)
    ensures Descending(keys) && Elems(keys) == s
  {
    if s == {} then
      []
    else
      var m := MaxOf(s);
      var rest := DescKeys(s - {m});
      PrependMax(m, rest, s);
      [m] + rest
  }

  /** Putting the largest key in front of the others, in descending order, gives all keys in descending order. */
  lemma PrependMax(m: int, rest: seq<int>, s: set<int>)
    requires m in s && (forall x :: x in s ==> x <= m)
    requires Descending(rest) && Elems(rest) == s - {m}
    ensures Descending([m] + rest) && Elems([m] + rest) == s
  {
    ElemsConcat([m], rest);
    assert Elems([m]) == {m};
    var keys := [m] + rest;
    forall i, j | 0 <= i < j < |keys|
      ensures keys[i] > keys[j]
    {
      assert keys[j] == rest[j - 1] && rest[j - 1] in Elems(rest);
      if i > 0 {
        assert keys[i] == rest[i - 1];
      }
    }
  }

  /** A descending sequence is determined by its set of elements. */
  lemma {:induction false} DescendingUnique(a: seq<int>, b: seq<int>)
    requires Descending(a) && Descending(b) && Elems(a) == Elems(b)
    ensures a == b
  {
    if a != [] {
      assert a[0] in Elems(b);
      var j :| 0 <= j < |b| && b[j] == a[0];
      assert b[0] in Elems(a);
      var i :| 0 <= i < |a| && a[i] == b[0];
      assert a[0] >= a[i] && b[0] >= b[j];
      ElemsConcat([a[0]], a[1..]);
      ElemsConcat([b[0]], b[1..]);
      assert a == [a[0]] + a[1..] && b == [b[0]] + b[1..];
      assert a[0] !in Elems(a[1..]) && b[0] !in Elems(b[1..]);
      assert Elems([a[0]]) == {a[0]} && Elems([b[0]]) == {b[0]};
      assert Elems(a[1..]) == Elems(b[1..]);
      DescendingUnique(a[1..], b[1..]);
    }
  }

  /**
   * Go's SortMeanScore: collect the keys of the grouping, in the map's
   * unspecified order, and sort them in descending order.
   */
  method SortMeanScore(m: MeanScore) returns (keys: seq<int>)
    ensures Descending(keys) && Elems(keys) == m.groups.Keys
    ensures keys == DescKeys(m.groups.Keys)
  {
    var collected: seq<int> := [];
    var rest := m.groups.Keys;
    while rest != {}
      invariant rest <= m.groups.Keys
      invariant Distinct(collected)
      invariant Elems(collected) == m.groups.Keys - rest
      decreases rest
    {
      HasElement(rest);
      var k :| k in rest;
      assert k !in collected;
      ElemsConcat(collected, [k]);
      assert Elems([k]) == {k};
      collected := collected + [k];
      rest := rest - {k};
    }
    keys := Sort(collected, AtLeast);
    AtLeastTotalOrder();
    SortSorted(collected, AtLeast);
    DistinctPermutation(collected, keys);
    PermutationElems(collected, keys);
    DescendingUnique(keys, DescKeys(m.groups.Keys));
  }

  /** The lines of one group: every player, in the given order, at one rank. */
  function Block(rank: int, ids: seq<string>, score: int): (lines: seq<Line>)
    ensures |lines| == |ids|
  {
    seq(|ids|, q requires 0 <= q < |ids| => Line(rank, ids[q], score))
  }

  /**
   * The lines emitted for the groups `keys[i..]`, in that order, starting at
   * rank `rank`, from groups that are already sorted: after each group the
   * rank counter advances by its size, and no further group is started once
   * the counter exceeds `limit` (RankLimit in PrintRank).
   */
  function Emit(keys: seq<int>, i: nat, sorted: map<int, seq<string>>, rank: int, limit: int): seq<Line>
    requires i <= |keys|
    decreases |keys| - i
  {
    if i == |keys| then
      []
    else
      var ids := Group(sorted, keys[i]);
      var next := rank + |ids|;
      Block(rank, ids, keys[i]) + (if next > limit then [] else Emit(keys, i + 1, sorted, next, limit))
  }

  /** Go's `m[k]`: the players under `k`, or none when `k` is not a key. */
  function Group(groups: map<int, seq<string>>, k: int): seq<string> {
    if k in groups then groups[k] else []
  }

  /** Every group sorted in ascending order of player id. */
  function SortGroups(groups: map<int, seq<string>>): map<int, seq<string>> {
    map k | k in groups :: Sort(groups[k], LessEq)
  }

  /** The leaderboard of a grouping: all groups by descending mean, from rank 1. */
  ghost function Standings(groups: map<int, seq<string>>): seq<Line>
  {
    Emit(DescKeys(groups.Keys), 0, SortGroups(groups), 1, RankLimit)
  }

  lemma AppendAssoc<T>(a: seq<T>, b: seq<T>, c: seq<T>)
    ensures (a + b) + c == a + (b + c)
  {
  }

  lemma BlockSnoc(rank: int, ids: seq<string>, j: nat, score: int)
    requires j < |ids|
    ensures Block(rank, ids[..j + 1], score) == Block(rank, ids[..j], score) + [Line(rank, ids[j], score)]
  {
    assert ids[..j + 1][..j] == ids[..j];
  }

  /** Emit of a group after which the counter has not passed the limit: its block, then the rest. */
  lemma EmitUnfold(keys: seq<int>, sorted: map<int, seq<string>>, rank: int, limit: int, i: nat, ids: seq<string>)
    requires i < |keys| && ids == Group(sorted, keys[i])
    requires rank + |ids| <= limit
    ensures Emit(keys, i, sorted, rank, limit) == Block(rank, ids, keys[i]) + Emit(keys, i + 1, sorted, rank + |ids|, limit)
  {
    var next := rank + |ids|;
    assert !(next > limit);
    var rest := Emit(keys, i + 1, sorted, next, limit);
    assert (if next > limit then [] else rest) == rest;
  }

  /** Emit of a group after which the counter has passed the limit: its block alone. */
  lemma EmitLast(keys: seq<int>, sorted: map<int, seq<string>>, rank: int, limit: int, i: nat, ids: seq<string>)
    requires i < |keys| && ids == Group(sorted, keys[i])
    requires rank + |ids| > limit
    ensures Emit(keys, i, sorted, rank, limit) == Block(rank, ids, keys[i])
  {
  }

  /**
   * The invariant of PrintRank's loop: the lines printed so far, followed by
   * what the remaining groups emit, make up the whole ranking `total`.
   */
  predicate EmittedPrefix(lines: seq<Line>, keys: seq<int>, i: nat, sorted: map<int, seq<string>>, rank: int, limit: int, total: seq<Line>)
    requires i <= |keys|
  {
    lines + Emit(keys, i, sorted, rank, limit) == total
  }

  /**
   * A group after which PrintRank goes on: its block extends the emitted
   * prefix, and the loop's counters move to the next key and the advanced rank.
   */
  lemma EmitStep(keys: seq<int>, sorted: map<int, seq<string>>, rank: int, limit: int, i: nat, ids: seq<string>, before: seq<Line>, lines: seq<Line>, total: seq<Line>, next: nat, nextRank: int)
    requires i < |keys| && ids == Group(sorted, keys[i])
    requires EmittedPrefix(before, keys, i, sorted, rank, limit, total)
    requires lines == before + Block(rank, ids, keys[i])
    requires rank + |ids| <= limit
    requires next == i + 1 && nextRank == rank + |ids|
    ensures EmittedPrefix(lines, keys, next, sorted, nextRank, limit, total)
  {
    EmitUnfold(keys, sorted, rank, limit, i, ids);
    AppendAssoc(before, Block(rank, ids, keys[i]), Emit(keys, next, sorted, nextRank, limit));
  }

  /** The inner loop of PrintRank: one line per player of a group, at one rank. */
  method AppendBlock(lines: seq<Line>, rank: int, ids: seq<string>, score: int) returns (out: seq<Line>)
    ensures out == lines + Block(rank, ids, score)
  {
    out := lines;
    var j := 0;
    while j < |ids|
      invariant 0 <= j <= |ids|
      invariant out == lines + Block(rank, ids[..j], score)
    {
      BlockSnoc(rank, ids, j, score);
      AppendAssoc(lines, Block(rank, ids[..j], score), [Line(rank, ids[j], score)]);
      out := out + [Line(rank, ids[j], score)];
      j := j + 1;
    }
    assert ids[..j] == ids;
  }

  /**
   * Go's PrintRank, with the printed lines returned in order. Each group it
   * reaches is sorted in place; groups after the cutoff keep their order.
   */
  method PrintRank(m: MeanScore) returns (lines: seq<Line>)
    modifies m
    ensures m.groups.Keys == old(m.groups).Keys
    ensures forall k :: k in m.groups ==> m.groups[k] == old(m.groups)[k] || m.groups[k] == SortGroups(old(m.groups))[k]
    ensures lines == Standings(old(m.groups))
  {
    var keys := SortMeanScore(m);
    assert forall j :: 0 <= j < |keys| ==> keys[j] in Elems(keys);
    lines := RankGroups(m, keys, SortGroups(m.groups));
  }

  /** The groups after PrintRank: the same keys, every group either as it was or sorted. */
  ghost predicate SortedOrKept(groups: map<int, seq<string>>, start: map<int, seq<string>>, sorted: map<int, seq<string>>)
  {
    && groups.Keys == start.Keys == sorted.Keys
    && (forall k :: k in groups ==> groups[k] == start[k] || groups[k] == sorted[k])
  }

  /** The groups while PrintRank runs: besides, the groups from `keys[i]` on are untouched. */
  ghost predicate Visited(groups: map<int, seq<string>>, start: map<int, seq<string>>, sorted: map<int, seq<string>>, keys: seq<int>, i: nat)
    requires i <= |keys|
  {
    && SortedOrKept(groups, start, sorted)
    && (forall j :: i <= j < |keys| ==> keys[j] in start && groups[keys[j]] == start[keys[j]])
  }

  /** Sorting the group of `keys[i]` visits it and keeps the later groups untouched. */
  lemma VisitStep(groups: map<int, seq<string>>, start: map<int, seq<string>>, sorted: map<int, seq<string>>, keys: seq<int>, i: nat, after: map<int, seq<string>>, next: nat)
    requires i < |keys| && Descending(keys)
    requires Visited(groups, start, sorted, keys, i)
    requires after == groups[keys[i] := sorted[keys[i]]] && next == i + 1
    ensures Visited(after, start, sorted, keys, next)
  {
  }

  /**
   * The loop of PrintRank over the keys in descending order: sort the group
   * in place, print its players at the current rank, advance the counter by
   * the group's size and stop once it exceeds RankLimit.
   */
  method RankGroups(m: MeanScore, keys: seq<int>, ghost sorted: map<int, seq<string>>) returns (lines: seq<Line>)
    modifies m
    requires Descending(keys)
    requires Visited(m.groups, m.groups, sorted, keys, 0)
    requires forall k :: k in m.groups ==> sorted[k] == Sort(m.groups[k], LessEq)
    ensures SortedOrKept(m.groups, old(m.groups), sorted)
    ensures lines == Emit(keys, 0, sorted, 1, RankLimit)
  {
    ghost var start := m.groups;
    ghost var total := Emit(keys, 0, sorted, 1, RankLimit);
    var rank := 1;
    lines := [];
    var i := 0;
    while i < |keys|
      invariant 0 <= i <= |keys|
      invariant Visited(m.groups, start, sorted, keys, i)
      invariant EmittedPrefix(lines, keys, i, sorted, rank, RankLimit, total)
    {
      var k := keys[i];
      ghost var groups := m.groups;
      m.groups := m.groups[k := Sort(m.groups[k], LessEq)];
      var ids := m.groups[k];
      assert ids == Group(sorted, k);
      ghost var before := lines;
      lines := AppendBlock(lines, rank, ids, k);
      ghost var previous, previousRank := i, rank;
      if rank + |ids| > RankLimit {
        EmitLast(keys, sorted, rank, RankLimit, i, ids);
        VisitStep(groups, start, sorted, keys, previous, m.groups, previous + 1);
        return;
      }
      rank := rank + |ids|;
      i := i + 1;
      EmitStep(keys, sorted, previousRank, RankLimit, previous, ids, before, lines, total, i, rank);
      VisitStep(groups, start, sorted, keys, previous, m.groups, i);
    }
  }
}
