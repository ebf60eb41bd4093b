/** `get_matchup_context` of nba-analyzer.py: find the next opponent and the
    player's per-game splits against it. Both endpoint calls are oracles;
    `None` stands for a call that raised, which the function catches. */
module Matchup {
  import opened Wrappers
  import opened Scan

  datatype NextGame = NextGame(visitor: string, home: string)

  /** A row of a dashboard split table: its GROUP_VALUE and its other cells. */
  datatype SplitRow = SplitRow(groupValue: string, cells: map<string, string>)

  /** A pandas frame: its column names and its rows. */
  datatype Table = Table(columns: set<string>, rows: seq<SplitRow>)

  /** `pd.DataFrame()`. */
  const EmptyTable: Table := Table({}, [])

  /** `frame.empty`: no rows or no columns. */
  predicate IsEmpty(t: Table) {
    t.columns == {} || |t.rows| == 0
  }

  /** The two endpoint replies: the scheduled games, and the split tables. */
  datatype Feeds = Feeds(nextGames: Option<seq<NextGame>>, splits: Option<seq<Table>>)

  datatype Context = Context(opponent: string, history: Table)

  /** The team the player meets: the visitor when the player's team is at home,
      the home team otherwise. */
  function Opponent(game: NextGame, team: string): (opp: string)
    ensures game.home == team ==> opp == game.visitor
    ensures game.home != team ==> opp == game.home
  {
    if game.home == team then game.visitor else game.home
  }

  /** `df["GROUP_VALUE"].str.len().max()` of a table with rows. */
  function LongestGroupValue(rows: seq<SplitRow>): (n: nat)
    requires |rows| > 0
    ensures forall i :: 0 <= i < |rows| ==> |rows[i].groupValue| <= n
    ensures exists i :: 0 <= i < |rows| && |rows[i].groupValue| == n
  {
    if |rows| == 1 then |rows[0].groupValue|
    else
      var rest := LongestGroupValue(rows[1..]);
      assert forall i :: 1 <= i < |rows| ==> rows[i] == rows[1..][i - 1];
      if |rows[0].groupValue| >= rest then |rows[0].groupValue| else rest
  }

  /** The opponent-splits table: it has GROUP_VALUE and GP columns and its
      longest group value has three characters (team abbreviations). The
      maximum of an empty column is NaN, which is not 3. */
  predicate IsOpponentSplits(t: Table) {
    && "GROUP_VALUE" in t.columns && "GP" in t.columns
    && |t.rows| > 0 && LongestGroupValue(t.rows) == 3
  }

  /** `df[df["GROUP_VALUE"] == opp]`: the rows for `opp`, in order. */
  function RowsFor(rows: seq<SplitRow>, opp: string): (r: seq<SplitRow>)
    ensures |r| <= |rows|
    ensures forall x :: x in r <==> x in rows && x.groupValue == opp
  {
    if |rows| == 0 then []
    else if rows[0].groupValue == opp then [rows[0]] + RowsFor(rows[1..], opp)
    else RowsFor(rows[1..], opp)
  }

  /** Filtering keeps the relative order of the rows: it distributes over concatenation. */
  lemma {:induction false} RowsForAppend(a: seq<SplitRow>, b: seq<SplitRow>, opp: string)
    ensures RowsFor(a + b, opp) == RowsFor(a, opp) + RowsFor(b, opp)
  {
    if |a| == 0 {
      assert a + b == b;
    } else {
      assert (a + b)[1..] == a[1..] + b;
      RowsForAppend(a[1..], b, opp);
    }
  }

  /** The index of the first opponent-splits table among `dfs`. */
  function FirstOpponentSplits(dfs: seq<Table>): (r: Option<nat>)
    ensures r.Some? ==> r.value < |dfs| && IsOpponentSplits(dfs[r.value])
    ensures r.Some? ==> forall i :: 0 <= i < r.value ==> !IsOpponentSplits(dfs[i])
    ensures r.None? ==> forall i :: 0 <= i < |dfs| ==> !IsOpponentSplits(dfs[i])
  {
    var qualifies := (i: nat) => i < |dfs| && IsOpponentSplits(dfs[i]);
    var r := FirstIn(qualifies, 0, |dfs|);
    if r.Some? then
      assert forall i :: 0 <= i < r.value ==> !IsOpponentSplits(dfs[i]) by {
        forall i | 0 <= i < r.value ensures !IsOpponentSplits(dfs[i]) { assert !qualifies(i); }
      }
      r
    else
      assert forall i :: 0 <= i < |dfs| ==> !IsOpponentSplits(dfs[i]) by {
        forall i | 0 <= i < |dfs| ensures !IsOpponentSplits(dfs[i]) { assert !qualifies(i); }
      }
      r
  }

  /** Both calls answered and a next game is scheduled. */
  predicate Answered(feeds: Feeds) {
    feeds.nextGames.Some? && |feeds.nextGames.value| > 0 && feeds.splits.Some?
  }

  /** `get_matchup_context(player_id, team)`. */
  function MatchupContext(team: string, feeds: Feeds): (c: Context)
    // no next game, or a failing call: the sentinel
    ensures !Answered(feeds) ==> c == Context("Unknown", EmptyTable)
    // otherwise the opponent comes from the first scheduled game
    ensures Answered(feeds) ==> c.opponent == Opponent(feeds.nextGames.value[0], team)
    // no opponent-splits table: the opponent with an empty frame
    ensures Answered(feeds) && FirstOpponentSplits(feeds.splits.value).None? ==> c.history == EmptyTable
    // otherwise exactly the rows of the first such table that name the opponent
    ensures Answered(feeds) && FirstOpponentSplits(feeds.splits.value).Some? ==>
      var t := feeds.splits.value[FirstOpponentSplits(feeds.splits.value).value];
      && c.history.columns == t.columns
      && c.history.rows == RowsFor(t.rows, c.opponent)
      && forall x :: x in c.history.rows <==> x in t.rows && x.groupValue == c.opponent
  {
    match feeds.nextGames
    case None => Context("Unknown", EmptyTable)
    case Some(games) =>
      if |games| == 0 then Context("Unknown", EmptyTable)
      else
        var opp := Opponent(games[0], team);
        match feeds.splits
        case None => Context("Unknown", EmptyTable)
        case Some(dfs) =>
          match FirstOpponentSplits(dfs)
          case None => Context(opp, EmptyTable)
          case Some(i) => Context(opp, Table(dfs[i].columns, RowsFor(dfs[i].rows, opp)))
  }

  /** The columns `chat_handler` needs to show career numbers against the opponent. */
  const CareerColumns: set<string> := {"GP", "PTS", "REB", "AST", "FG_PCT"}

  /** What the analysis prompt shows against the opponent. */
  datatype CareerStats = CareerRows(table: Table) | NoCareerData(text: string)

  /** nba-analyzer.py `chat_handler`: the split rows when there are some with
      all five columns, else the text "No career data vs <opp>.". */
  function CareerAgainst(history: Table, opp: string): (r: CareerStats)
    ensures r.CareerRows? <==> !IsEmpty(history) && CareerColumns <= history.columns
    ensures r.NoCareerData? ==> r.text == "No career data vs " + opp + "."
    ensures r.CareerRows? ==> r.table == history
  {
    if !IsEmpty(history) && CareerColumns <= history.columns then CareerRows(history)
    else NoCareerData("No career data vs " + opp + ".")
  }

  /** Every failure of the matchup lookup ends as the text
      "No career data vs Unknown." or "No career data vs <opp>.", never as an error. */
  lemma DegradesToNoCareerData(team: string, feeds: Feeds)
    ensures var c := MatchupContext(team, feeds);
      !Answered(feeds) ==> CareerAgainst(c.history, c.opponent) == NoCareerData("No career data vs Unknown.")
    ensures var c := MatchupContext(team, feeds);
      (Answered(feeds) && FirstOpponentSplits(feeds.splits.value).None?) ==>
        CareerAgainst(c.history, c.opponent) == NoCareerData("No career data vs " + c.opponent + ".")
  {
  }
}
