/**
 * The rows of the game-play log after CSV tokenising: a header row, then
 * records of three fields, or a failure reported by the CSV reader.
 */
module Input {

  import opened Wrappers

  /** One data row: `create_timestamp,player_id,score`. */
  datatype Record = Record(timestamp: string, playerId: string, scoreText: string)

  /** What one call to the CSV reader yields before end of input. */
  datatype ReadResult = Row(record: Record) | ReadFailure

  /** The three column names the log must start with. */
  const Columns: seq<string> := ["create_timestamp", "player_id", "score"]

  /**
   * The header check as the source evaluates it: the fields are compared in
   * order and the comparison stops at the first mismatch, but a field that is
   * missing when it is reached is an index out of range, a run-time panic,
   * written here as None.
   */
  function CheckHeaderAsWritten(header: seq<string>): (r: Option<bool>)
    ensures r.None? <==> |header| < 3 && header == Columns[..|header|]
    ensures r.Some? ==> (r.value <==> |header| >= 3 && header[..3] == Columns)
  {
    if |header| < 1 then None
    else if header[0] != "create_timestamp" then Some(false)
    else if |header| < 2 then None
    else if header[1] != "player_id" then Some(false)
    else if |header| < 3 then None
    else Some(header[2] == "score")
  }

  /** A header naming the first two columns and nothing else makes the source panic instead of rejecting the file. */
  lemma ShortHeaderPanics()
    ensures CheckHeaderAsWritten(["create_timestamp", "player_id"]) == None
    ensures !CheckHeader(["create_timestamp", "player_id"])
  {
  }

  /**
   * The header check: the header starts with the three expected columns, in
   * order. A header too short to hold them is rejected.
   */
  function CheckHeader(header: seq<string>): (ok: bool)
    ensures ok <==> |header| >= 3 && header[..3] == Columns
  {
    |header| >= 3 && header[0] == "create_timestamp" && header[1] == "player_id" && header[2] == "score"
  }
}
