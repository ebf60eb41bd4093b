/** Game-log frames as sequences of rows in the order the stats endpoint
    returns them, and the five-game window taken with `head(5)`. */
module GameLog {
  import opened Text

  /** The eight columns the handlers select:
      GAME_DATE, MATCHUP, WL, PTS, REB, AST, FG3M, MIN. */
  datatype GameRow = GameRow(
    gameDate: string, matchup: string, wl: string,
    pts: int, reb: int, ast: int, fg3m: int, minutes: int)

  /** A row of the full game log: the listed columns and all the others. */
  datatype LogRow = LogRow(stats: GameRow, otherColumns: map<string, string>)

  /** The size of the recent-games window. */
  const Window: nat := 5

  function Min(a: nat, b: nat): nat { if a < b then a else b }

  /** `frame.head(n)`: the first `min(n, |rows|)` rows, in order. */
  function Head<T>(rows: seq<T>, n: nat): (w: seq<T>)
    ensures |w| == Min(n, |rows|)
    ensures w <= rows
  {
    rows[..Min(n, |rows|)]
  }

  /** `frame[[...eight columns...]]`: the listed columns of every row. */
  function Select(rows: seq<LogRow>): (r: seq<GameRow>)
    ensures |r| == |rows|
    ensures forall i :: 0 <= i < |rows| ==> r[i] == rows[i].stats
  {
    seq(|rows|, i requires 0 <= i < |rows| => rows[i].stats)
  }

  /** Selecting columns and taking the first rows commute, so
      `df[cols].head(5)` (test2.py) and `df.head(5)` then `[cols]`
      (nba-analyzer.py) show the same rows. */
  lemma SelectHead(rows: seq<LogRow>, n: nat)
    ensures Head(Select(rows), n) == Select(Head(rows, n))
  {
  }

  /** The player's current team: the text of the first row's MATCHUP before
      its first space ("LAL vs. BOS" and "LAL @ NYK" give "LAL"). */
  function CurrentTeam(window: seq<LogRow>): (team: string)
    requires |window| > 0
    ensures team <= window[0].stats.matchup && ' ' !in team
    ensures |team| < |window[0].stats.matchup| ==> window[0].stats.matchup[|team|] == ' '
  {
    FirstField(window[0].stats.matchup)
  }
}
