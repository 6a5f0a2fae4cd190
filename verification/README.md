# Game-play leaderboard, modelled in Dafny

A batch tool reads a game-play log and prints a leaderboard. The log is a CSV
file: a header row `create_timestamp,player_id,score`, then one row per play.
The tool does four things:

- It adds up each player's scores and counts them in a player table
  (`PlayerData`, a map from player id to a running `Score{Sum, Count}`).
- It computes each player's mean, rounded half away from zero.
- It groups the players by mean (`MeanScore`, a map from mean to player ids).
- It prints the groups in descending order of mean. Within a group the ids
  are in ascending order, and the whole group shares one rank. After each
  group the rank counter advances by the group's size. No group is started
  once the counter exceeds `rankLimit` (10).

This project models all of `src/main.go`. Of `main` it models the steps after
the header check: loading the rows, grouping and printing (`Report`).

- `PlayerData` and `MeanScore` are Go maps updated in place by their methods.
  They become classes with a `map` field, and their methods reassign it.
- `LoadScore`, `CalcMeanScore`, `SortMeanScore` and `PrintRank` are loops.
  They become methods with loop invariants. Each is proved against a
  reference function: `Aggregate`/`Scan`, `Partition`, `DescKeys`, and
  `Emit`/`Standings`.
- `checkHeader` and `Score.CalcMeanScore` are pure, and stay functions.
- Go's map iteration order is unspecified. The loops over maps pick their
  next key with `:|`, so every proof holds for any visiting order.
  `RankingDeterministic` shows that the leaderboard does not depend on that
  order.
- `PrintRank` returns the lines it prints as a sequence of
  `Line(rank, id, score)`. The laws of the leaderboard are proved about
  `Emit` for any limit, then instantiated for `Standings` with `RankLimit`.

Modules:

| file | module | contents |
|---|---|---|
| `wrappers.dfy` | `Wrappers` | `Option` |
| `decimal.dfy` | `Decimal` | `strconv.Atoi` as `ParseInt`, and its inverse `FormatInt` |
| `input.dfy` | `Input` | CSV rows as read, and the header check |
| `scores.dfy` | `Scores` | `Score`, rounding, `PlayerData`, `LoadScore` |
| `lexicographic.dfy` | `Lexicographic` | Go's string order |
| `sorting.dfy` | `Sorting` | insertion sort, and uniqueness of sorted permutations |
| `grouping.dfy` | `Grouping` | `MeanScore`, `CalcMeanScore` |
| `ranking.dfy` | `Ranking` | `SortMeanScore`, `PrintRank`, and the reference `Emit` |
| `rankinglaws.dfy` | `RankingLaws` | laws of `Emit` |
| `leaderboard.dfy` | `Leaderboard` | laws of the leaderboard of a whole table, the load-group-print pipeline, and a worked example |

## Model

| member | source | states |
|---|---|---|
| Input.CheckHeader | src/main.go:65-67 | the header is accepted iff it has at least three fields and they are `create_timestamp`, `player_id`, `score` in that order |
| Input.CheckHeaderAsWritten | src/main.go:65-67 | the check as evaluated left to right: it panics exactly when the header is shorter than three fields and matches the expected names so far; otherwise it answers as CheckHeader does |
| Input.ShortHeaderPanics | src/main.go:66 | a header of just `create_timestamp,player_id` makes the source panic, where the corrected check rejects it |
| Decimal.ParseInt | src/main.go:96 | Atoi succeeds exactly on an optional sign followed by one or more digits, and the sign of the result follows the text |
| Decimal.ParseFormat | src/main.go:96 | parsing the decimal text of any integer gives that integer back |
| Decimal.ParseRejects | src/main.go:96-99 | empty text, a lone sign and letters are refused; signed numbers are read |
| Scores.Score.CalcMeanScore | src/main.go:81-83 | the result is within half of sum/count, and on an exact half it is the neighbour farther from zero (round half away from zero) |
| Scores.MeanIsUnique | src/main.go:81-83 | any integer with those two rounding properties equals CalcMeanScore, so the rounding contract determines the mean |
| Scores.MeanExamples | src/main.go:81-83 | 5/2 rounds to 3, -5/2 to -3, 30/2 is 15 |
| Scores.Credit | src/main.go:70-77 | an absent id gets Score(score, 1); a present one gets the score added and the count increased by one; every other entry is unchanged |
| Scores.PlayerData.AddScore | src/main.go:70-77 | the table afterwards is Credit of the table before |
| Scores.Scan | src/main.go:88-101 | the accepted rows are exactly the rows before the first failure; no error iff every row was accepted; a read failure gives ReadFailed and an unparsable score gives BadScore |
| Scores.ScanStopsAtError | src/main.go:93-98 | rows after the first failure do not affect the result |
| Scores.Aggregate | src/main.go:86-103 | definition: the table LoadScore builds, one AddScore per accepted row, in the order of the rows (its laws are AggregateTotals and AggregateCounted) |
| Scores.AggregateTotals | src/main.go:86-103 | a player has an entry iff it has at least one row, and the entry is the sum and the number of its scores |
| Scores.AggregateCounted | src/main.go:70-77 | every entry of the table has a count of at least 1 |
| Scores.LoadScore | src/main.go:86-103 | the error is the first failure among the rows, and the table holds the totals of the rows before it |
| Grouping.Enroll | src/main.go:106-111 | a missing group is created; the id goes at the end of its group; other groups are unchanged |
| Grouping.MeanScore.AddPlayer | src/main.go:106-111 | the groups afterwards are Enroll of the groups before |
| Grouping.PartitionStep | src/main.go:116-119 | adding a further player to the group of its mean keeps the groups a partition, now of one more player |
| Grouping.CalcMeanScore | src/main.go:114-121 | the groups partition the players: none is empty or repeats an id, every listed player sits under its own mean, and every player is listed |
| Grouping.GroupOfPlayer | src/main.go:114-121 | a player is in a group iff the group's key is its mean |
| Sorting.SortSorted | src/main.go:129 | the sort returns an ordered permutation of its input |
| Sorting.SortedUnique | src/main.go:142 | two ordered permutations of the same elements are equal, so any correct sort gives the same result |
| Sorting.DistinctPermutation | src/main.go:142 | sorting a group without repeated ids leaves none |
| Lexicographic.LessEqTotalOrder | src/main.go:142 | the string order used to sort ids is a total order |
| Ranking.DescendingUnique | src/main.go:129 | a strictly descending sequence is determined by its elements |
| Ranking.DescKeys | src/main.go:124-131 | the means of a grouping listed strictly descending, each exactly once |
| Ranking.SortMeanScore | src/main.go:124-131 | the result lists every mean exactly once, strictly descending, and equals the reference DescKeys |
| Ranking.AppendBlock | src/main.go:143-145 | the inner loop appends one line per id of the group, in order, all at the current rank |
| Ranking.Emit | src/main.go:140-151 | definition: the lines of the ranking loop from a given key, rank and limit; each group's players at the current rank, the counter advanced by the group's size, no group started once it exceeds the limit (its laws are EmitUnfold, EmitLast and the RankingLaws lemmas) |
| Ranking.Standings | src/main.go:134-152 | definition: what PrintRank prints for a grouping, namely Emit over the descending means and the sorted groups from rank 1 with limit RankLimit (its laws are the Leaderboard lemmas) |
| Ranking.EmitUnfold | src/main.go:146-150 | when the counter stays within the limit after a group, the group's lines are followed by the rest, starting at the advanced rank |
| Ranking.EmitLast | src/main.go:146-150 | when the counter exceeds the limit after a group, that group's lines are the last |
| Ranking.RankGroups | src/main.go:140-151 | the loop prints exactly Emit of the sorted groups from rank 1 with limit RankLimit, and sorts only groups in place |
| Ranking.PrintRank | src/main.go:134-152 | the printed lines are Standings of the groups as they were; every group is afterwards either unchanged or sorted |
| RankingLaws.BlockRanked | src/main.go:143-145 | a group with ascending ids gives lines that obey the rank rule |
| RankingLaws.RankedConcat | src/main.go:140-150 | the rank rule holds across two runs of lines when the second starts at the advanced rank and scores below the first |
| RankingLaws.EmitFromGroups | src/main.go:143-145 | every line shows a player of the group of its own score |
| RankingLaws.EmitScores | src/main.go:140-145 | over descending keys, no line scores above the first key |
| RankingLaws.EmitRanks | src/main.go:136-150 | started at a rank within the limit, every rank lies between that rank and the limit |
| RankingLaws.EmitRanked | src/main.go:140-150 | over descending keys and ascending groups, the lines obey the rank rule from the starting rank |
| RankingLaws.EmitComplete | src/main.go:140-150 | every group is printed in full, or else the counter has exceeded the limit and all printed lines score above it |
| Leaderboard.SortedGroup | src/main.go:142 | a group without repeated ids, once sorted, is strictly ascending and holds the same ids |
| Leaderboard.RankingLines | src/main.go:134-152 | every line shows a player of the table with its own mean, at a rank from 1 to RankLimit |
| Leaderboard.RankingOrdered | src/main.go:136-150 | the leaderboard obeys the rank rule from rank 1 (see below) |
| Leaderboard.RankingDistinct | src/main.go:140-145 | no player is listed twice |
| Leaderboard.RankingComplete | src/main.go:146-150 | every player is listed with its mean, unless at least RankLimit lines are shown and all score above it |
| Leaderboard.RankingGroupsWhole | src/main.go:140-150 | a group is printed whole or not at all: once any line shows a mean, every player with that mean is listed |
| Leaderboard.RankingDeterministic | src/main.go:114-131 | any two groupings of the same table give the same leaderboard, whatever order the maps were visited in |
| Leaderboard.Report | src/main.go:51-60 | loading, grouping and printing in sequence: a load error stops before any line is printed; otherwise the lines obey the rank rule from rank 1, show players of the loaded table at their own means with ranks from 1 to RankLimit, and equal the leaderboard of every grouping of that table |
| Leaderboard.ExampleTable | src/main.go:86-103 | `a` scoring 10 and 20 and `b` scoring 15 give the table a: (30, 2), b: (15, 1) |
| Leaderboard.ExampleLeaderboard | src/main.go:134-152 | for that log, every grouping prints `1,a,15` then `1,b,15` |

The rank rule (`Ranked(lines, rank)`, stated pair by pair in `PairRanked`)
has four parts:

- the first line has the starting rank;
- scores never rise;
- lines with equal scores share their rank and are in ascending id order;
- a line whose score is below the line before it has the starting rank plus
  the number of lines before it.

## Left out

- `main` is modelled only from the loading of the rows on (`Report`):
  argument handling, opening the file, reading the header row, the messages
  of `log.Fatal` and the exit status are I/O.
- CSV tokenising (quoting, the field-count check of `encoding/csv`) is left
  out. The model takes the reader's output as a sequence of rows, each either
  three fields or a read failure. The end of the sequence stands for
  `io.EOF`. A failed read of the header row is part of `main`.
- Decimal.ParseInt: does not model the range error `strconv.Atoi` gives for
  values outside 64 bits, because integers here are unbounded.
- Scores.PlayerData.AddScore: does not model overflow of the 64-bit `Sum` and
  `Count`, because integers here are unbounded.
- Scores.Score.CalcMeanScore: computes the rounded quotient exactly on
  integers rather than by `float64` division and `math.Round`. The two agree
  while the sum stays well within 2^53. In that range the quotient is an
  exact half only when it is one exactly. Any other quotient lies at least
  1/(2·count) from the nearest half, far more than the division's rounding
  error.
- The printed text is left out: the header line `rank,player_id,mean_score`
  and the `%d,%s,%d` formatting of each line. PrintRank returns the lines as
  values.
- Player ids are modelled as Dafny strings, which are sequences of Unicode
  scalar values, and ordered by code point. `encoding/csv` passes a field's
  bytes through unchecked, and `sort.Strings` orders ids byte by byte. For ids
  that are valid UTF-8 the two orders agree. Ids that are not valid UTF-8 are
  not represented.
- `PlayerData` maps ids to `*Score` pointers in the source. Here it maps them
  to `Score` values. No pointer escapes the map, so no aliasing is lost.
- Ranking.PrintRank: states only that each group is afterwards either
  unchanged or sorted, not exactly which groups were reached before the
  cutoff, because nothing reads the groups after printing.

Two behaviours of the code that a reader might not expect:

- Tied players share a rank. A tie might be expected to rank the second
  player second, as in `1,a,15` then `2,b,15`. The code prints both at the
  rank of their group, `1,a,15` then `1,b,15`, as `ExampleLeaderboard` shows.
  The next group's rank then skips past the whole tied group.
- A header with fewer than three fields is not always rejected. When the
  header check fails, `main` stops with "不正なCSVファイルです" ("invalid CSV
  file", src/main.go:46-47), so a short header was evidently meant to be
  refused that way. The check rejects a short header only when a field
  already fails to match. Otherwise it indexes past the end of the header and
  panics. See Findings.

## Findings

| source | as written | input that shows it | evidently intended | confidence | as-written member | corrected member |
|---|---|---|---|---|---|---|
| src/main.go:66 | `header[0] == … && header[1] == … && header[2] == …` indexes the header without checking its length | a header row `create_timestamp,player_id` | reject the file as an invalid CSV | high; not executed | Input.CheckHeaderAsWritten, Input.ShortHeaderPanics | Input.CheckHeader |
