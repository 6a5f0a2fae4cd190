/**
 * Score aggregation: the per-player table of running sums and counts, filled
 * row by row from the log, and the rounded mean of one player's scores.
 */
module Scores {

  import opened Wrappers
  import opened Decimal
  import opened Input

  function Abs(x: int): nat {
    if x < 0 then -x else x
  }

  /** Running total of one player's scores. */
  datatype Score = Score(sum: int, count: int) {

    /**
     * sum / count rounded half away from zero: the nearest integer to the
     * quotient, and on a tie the one farther from zero.
     */
    function CalcMeanScore(): (r: int)
      requires count >= 1
      ensures 2 * Abs(sum - r * count) <= count
      ensures 2 * Abs(sum - r * count) == count ==> Abs(r * count) > Abs(sum)
    {
      if sum >= 0 then
        var q := (2 * sum + count) / (2 * count);
        RoundingStep(sum, count, q);
        q
      else
        var q := (2 * -sum + count) / (2 * count);
        RoundingStep(-sum, count, q);
        assert -q * count == -(q * count);
        -q
    }
  }

  lemma RoundingStep(s: nat, c: int, q: int)
    requires c >= 1 && q == (2 * s + c) / (2 * c)
    ensures 2 * Abs(s - q * c) <= c
    ensures 2 * Abs(s - q * c) == c ==> q * c > s
  {
    var rem := (2 * s + c) % (2 * c);
    assert 2 * s + c == q * (2 * c) + rem && 0 <= rem < 2 * c;
    assert q * (2 * c) == 2 * (q * c);
  }

  /** Two integers both nearest to sum / count, with ties away from zero, coincide. */
  lemma MeanIsUnique(s: Score, r: int)
    requires s.count >= 1
    requires 2 * Abs(s.sum - r * s.count) <= s.count
    requires 2 * Abs(s.sum - r * s.count) == s.count ==> Abs(r * s.count) > Abs(s.sum)
    ensures r == s.CalcMeanScore()
  {
    NearestUnique(s.sum, s.count, s.CalcMeanScore(), r);
  }

  lemma NearestUnique(a: int, c: int, m: int, r: int)
    requires c >= 1
    requires 2 * Abs(a - m * c) <= c
    requires 2 * Abs(a - m * c) == c ==> Abs(m * c) > Abs(a)
    requires 2 * Abs(a - r * c) <= c
    requires 2 * Abs(a - r * c) == c ==> Abs(r * c) > Abs(a)
    ensures r == m
  {
    ProductFacts(m, r, c);
  }

  /** The facts about the multiples m * c and r * c that the uniqueness argument uses. */
  lemma ProductFacts(m: int, r: int, c: int)
    requires c >= 1
    ensures r - m >= 2 ==> r * c - m * c >= 2 * c
    ensures r - m <= -2 ==> m * c - r * c >= 2 * c
    ensures r - m == 1 ==> r * c == m * c + c
    ensures r - m == -1 ==> m * c == r * c + c
    ensures m >= 0 ==> m * c >= 0
    ensures r <= 0 ==> r * c <= 0
    ensures r >= 0 ==> r * c >= 0
    ensures m <= 0 ==> m * c <= 0
  {
    DifferenceFacts(m, r, c);
    SignFacts(m, c);
    SignFacts(r, c);
  }

  lemma DifferenceFacts(m: int, r: int, c: int)
    requires c >= 1
    ensures r - m >= 2 ==> r * c - m * c >= 2 * c
    ensures r - m <= -2 ==> m * c - r * c >= 2 * c
    ensures r - m == 1 ==> r * c == m * c + c
    ensures r - m == -1 ==> m * c == r * c + c
  {
    var d := r - m;
    assert r * c - m * c == d * c;
    if d >= 2 {
      assert d * c == 2 * c + (d - 2) * c;
    } else if d <= -2 {
      assert -(d * c) == 2 * c + (-d - 2) * c;
    }
  }

  lemma SignFacts(x: int, c: int)
    requires c >= 1
    ensures x >= 0 ==> x * c >= 0
    ensures x <= 0 ==> x * c <= 0
  {
    if x <= 0 {
      assert x * c == -((-x) * c);
    }
  }

  /** The rounding law on 5/2, -5/2 and 30/2. */
  lemma MeanExamples()
    ensures Score(5, 2).CalcMeanScore() == 3
    ensures Score(-5, 2).CalcMeanScore() == -3
    ensures Score(30, 2).CalcMeanScore() == 15
  {
  }

  /** Every player in the table has been seen at least once. */
  predicate AllCounted(table: map<string, Score>) {
    forall id :: id in table ==> table[id].count >= 1
  }

  /**
   * The table after one score for `id`: an absent player starts from a zero
   * total, and every other entry is left alone.
   */
  function Credit(table: map<string, Score>, id: string, score: int): (t: map<string, Score>)
    ensures t.Keys == table.Keys + {id}
    ensures id in table ==> t[id] == Score(table[id].sum + score, table[id].count + 1)
    ensures id !in table ==> t[id] == Score(score, 1)
    ensures forall k :: k in table && k != id ==> t[k] == table[k]
  {
    var s := if id in table then table[id] else Score(0, 0);
    table[id := Score(s.sum + score, s.count + 1)]
  }

  /** Go's `map[string]*Score`, updated in place by AddScore. */
  class PlayerData {
    var scores: map<string, Score>

    constructor ()
      ensures scores == map[]
    {
      scores := map[];
    }

    /** Lookup-or-insert, then add the score and count it. */
    method AddScore(id: string, score: int)
      modifies this
      ensures scores == Credit(old(scores), id, score)
    {
      if id !in scores {
        scores := scores[id := Score(0, 0)];
      }
      scores := scores[id := Score(scores[id].sum + score, scores[id].count + 1)];
    }
  }

  datatype LoadError = ReadFailed | BadScore

  /** One accepted row: a player and a parsed score. */
  datatype Event = Event(id: string, score: int)

  /** The accepted rows before the first failure, and that failure if there is one. */
  datatype Scanned = Scanned(events: seq<Event>, err: Option<LoadError>)

  predicate Accepted(row: ReadResult) {
    row.Row? && ParseInt(row.record.scoreText).Some?
  }

  function EventOf(row: ReadResult): Event
    requires Accepted(row)
  {
    Event(row.record.playerId, ParseInt(row.record.scoreText).value)
  }

  /** What reading the rows yields: every row until the first that fails, and why it failed. */
  function Scan(rows: seq<ReadResult>): (s: Scanned)
    ensures |s.events| <= |rows|
    ensures forall i :: 0 <= i < |s.events| ==> Accepted(rows[i]) && s.events[i] == EventOf(rows[i])
    ensures s.err.None? <==> |s.events| == |rows|
    ensures s.err == Some(ReadFailed) ==> rows[|s.events|].ReadFailure?
    ensures s.err == Some(BadScore) ==> rows[|s.events|].Row? && ParseInt(rows[|s.events|].record.scoreText).None?
  {
    if rows == [] then
      Scanned([], None)
    else
      var prev := Scan(rows[..|rows| - 1]);
      var row := rows[|rows| - 1];
      if prev.err.Some? then
        prev
      else if row.ReadFailure? then
        Scanned(prev.events, Some(ReadFailed))
      else
        match ParseInt(row.record.scoreText)
        case None => Scanned(prev.events, Some(BadScore))
        case Some(v) => Scanned(prev.events + [Event(row.record.playerId, v)], None)
  }

  /** Rows after the first failure are never looked at. */
  lemma {:induction false} ScanStopsAtError(rows: seq<ReadResult>, n: nat)
    requires n <= |rows| && Scan(rows[..n]).err.Some?
    ensures Scan(rows) == Scan(rows[..n])
    decreases |rows|
  {
    if n < |rows| {
      assert rows[..|rows| - 1][..n] == rows[..n];
      ScanStopsAtError(rows[..|rows| - 1], n);
    } else {
      assert rows[..n] == rows;
    }
  }

  /** The table built from a sequence of events, one Credit per event, in order. */
  function Aggregate(events: seq<Event>): map<string, Score>
  {
    if events == [] then
      map[]
    else
      var e := events[|events| - 1];
      Credit(Aggregate(events[..|events| - 1]), e.id, e.score)
  }

  /** How many events name `id`. */
  function CountOf(events: seq<Event>, id: string): nat
  {
    if events == [] then 0
    else CountOf(events[..|events| - 1], id) + (if events[|events| - 1].id == id then 1 else 0)
  }

  /** The total of the scores of the events that name `id`. */
  function SumOf(events: seq<Event>, id: string): int
  {
    if events == [] then 0
    else SumOf(events[..|events| - 1], id) + (if events[|events| - 1].id == id then events[|events| - 1].score else 0)
  }

  /** Each player's entry holds the total and the number of that player's events, and only seen players have one. */
  lemma {:induction false} AggregateTotals(events: seq<Event>)
    ensures forall id :: id in Aggregate(events) <==> CountOf(events, id) >= 1
    ensures forall id :: id !in Aggregate(events) ==> SumOf(events, id) == 0
    ensures forall id :: id in Aggregate(events) ==> Aggregate(events)[id] == Score(SumOf(events, id), CountOf(events, id))
  {
    if events != [] {
      var prefix := events[..|events| - 1];
      var e := events[|events| - 1];
      AggregateTotals(prefix);
      forall id | id in Aggregate(events)
        ensures Aggregate(events)[id] == Score(SumOf(events, id), CountOf(events, id))
      {
        if id != e.id {
          assert id in Aggregate(prefix);
          assert CountOf(events, id) == CountOf(prefix, id);
          assert SumOf(events, id) == SumOf(prefix, id);
        } else if id in Aggregate(prefix) {
          assert Aggregate(events)[id] == Score(Aggregate(prefix)[id].sum + e.score, Aggregate(prefix)[id].count + 1);
        } else {
          assert CountOf(prefix, id) == 0;
        }
      }
    }
  }

  lemma AggregateCounted(events: seq<Event>)
    ensures AllCounted(Aggregate(events))
  {
    AggregateTotals(events);
  }

  /** A row that fails ends the scan: the events are those before it, and the error is its own. */
  lemma ScanFails(rows: seq<ReadResult>, i: nat)
    requires i < |rows| && Scan(rows[..i]).err == None && !Accepted(rows[i])
    ensures Scan(rows).events == Scan(rows[..i]).events
    ensures Scan(rows).err == if rows[i].ReadFailure? then Some(ReadFailed) else Some(BadScore)
  {
    assert rows[..i + 1][..i] == rows[..i];
    ScanStopsAtError(rows, i + 1);
  }

  /** An accepted row extends the scan by its event, and the table by one Credit. */
  lemma ScanExtends(rows: seq<ReadResult>, i: nat, v: int)
    requires i < |rows| && Scan(rows[..i]).err == None
    requires rows[i].Row? && ParseInt(rows[i].record.scoreText) == Some(v)
    ensures Scan(rows[..i + 1]).err == None
    ensures Aggregate(Scan(rows[..i + 1]).events) == Credit(Aggregate(Scan(rows[..i]).events), rows[i].record.playerId, v)
  {
    assert rows[..i + 1][..i] == rows[..i];
    var before := Scan(rows[..i]).events;
    var after := before + [Event(rows[i].record.playerId, v)];
    assert Scan(rows[..i + 1]).events == after;
    assert after[..|before|] == before;
  }

  /**
   * Go's LoadScore: read every row, stop at the first read failure or
   * unparsable score, and otherwise credit the score to the player. The table
   * filled so far is returned together with the error.
   */
  method LoadScore(rows: seq<ReadResult>) returns (p: PlayerData, err: Option<LoadError>)
    ensures fresh(p)
    ensures err == Scan(rows).err
    ensures p.scores == Aggregate(Scan(rows).events)
  {
    p := new PlayerData();
    var i := 0;
    while i < |rows|
      invariant 0 <= i <= |rows|
      invariant Scan(rows[..i]).err == None
      invariant p.scores == Aggregate(Scan(rows[..i]).events)
    {
      var row := rows[i];
      if row.ReadFailure? {
        ScanFails(rows, i);
        return p, Some(ReadFailed);
      }
      var score := ParseInt(row.record.scoreText);
      if score.None? {
        ScanFails(rows, i);
        return p, Some(BadScore);
      }
      ScanExtends(rows, i, score.value);
      p.AddScore(row.record.playerId, score.value);
      i := i + 1;
    }
    assert rows[..i] == rows;
    return p, None;
  }
}
