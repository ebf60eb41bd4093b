/** The game-log fetchers. The player directory and the game-log endpoint are
    oracles: `candidates` is what `players.find_players_by_full_name` returned
    for the name, and `gamelog(i)` is what the request of attempt `i` returned
    or raised. `time.sleep` is recorded as an event, not performed. */
module Fetch {
  import opened Wrappers
  import opened Text
  import opened GameLog
  import opened Matchup

  datatype Candidate = Candidate(id: nat, fullName: string)

  /** One game-log request: the frame, or the message of the exception it raised. */
  datatype LogReply = LogFailed(error: string) | LogFrame(rows: seq<LogRow>)

  /** What a fetch does with the outside world, in order. */
  datatype Event = Sleep(seconds: nat) | Request(attempt: nat)

  /** A fetch result, the number of game-log requests made and the event trace. */
  datatype Run<R> = Run(result: R, attempts: nat, events: seq<Event>)

  function NotFoundMessage(name: string): string {
    "Could not find '" + name + "'."
  }

  /** What a retry loop got from the game log: the reply of its last request
      (a frame, or the error of the last of the failed attempts) and the number
      of requests made. */
  datatype Pull = Pull(got: LogReply, attempts: nat)

  /** The requests of a retry loop from 0-based attempt `attempt`: it stops at
      the first frame or after the last allowed attempt. Both fetchers'
      `for attempt in range(retries)` loops request the game log this way. */
  function PullLog(gamelog: nat -> LogReply, retries: nat, attempt: nat): (p: Pull)
    requires attempt < retries
    ensures 0 < p.attempts <= retries - attempt
    ensures p.got == gamelog(attempt + p.attempts - 1)
    ensures forall i :: attempt <= i < attempt + p.attempts - 1 ==> gamelog(i).LogFailed?
    ensures p.got.LogFailed? ==> attempt + p.attempts == retries
    decreases retries - attempt
  {
    if gamelog(attempt).LogFrame? || attempt == retries - 1 then Pull(gamelog(attempt), 1)
    else
      var rest := PullLog(gamelog, retries, attempt + 1);
      Pull(rest.got, rest.attempts + 1)
  }

  // ----- nba-analyzer.py: get_player_full_analysis_data -----

  /** The four-slot result of `get_player_full_analysis_data`. */
  datatype Analysis =
    | NotFound(message: string)      // (None, "Could not find '<name>'.", None, None)
    | Failed(message: string)        // (None, "Error: <msg>", None, None)
    | NoGames(fullName: string)      // (full_name, DataFrame(), "Unknown", DataFrame())
    | Games(fullName: string, window: seq<LogRow>, opponent: string, history: Table)
    | NoReturn                       // `retries == 0`: the loop never runs and None comes back

  const AnalyzerRetries: nat := 4

  /** The sleep before the request of 0-based attempt `i`. */
  function Backoff(attempt: nat): nat {
    (attempt * 3) + 1
  }

  /** `n` attempts from `from`, each a backoff sleep and then a request. */
  function AnalyzerSchedule(from: nat, n: nat): seq<Event>
    decreases n
  {
    if n == 0 then [] else [Sleep(Backoff(from)), Request(from)] + AnalyzerSchedule(from + 1, n - 1)
  }

  /** The iterations `attempt, attempt + 1, ...` of the retry loop. */
  function AnalyzerAttempts(name: string, candidates: seq<Candidate>, gamelog: nat -> LogReply,
                            feeds: Feeds, retries: nat, attempt: nat): (run: Run<Analysis>)
    requires attempt <= retries
    ensures attempt + run.attempts <= retries
    ensures run.events == AnalyzerSchedule(attempt, run.attempts)
    ensures run.result.NoReturn? <==> attempt == retries
    ensures run.result.NotFound? <==> attempt < retries && |candidates| == 0
    ensures run.result.NotFound? ==> run.attempts == 0 && run.result.message == NotFoundMessage(name)
    ensures run.result.Failed? ==>
      && attempt + run.attempts == retries
      && (forall i :: attempt <= i < retries ==> gamelog(i).LogFailed?)
      && run.result.message == "Error: " + gamelog(retries - 1).error
    ensures run.result.NoGames? || run.result.Games? ==>
      && run.attempts > 0
      && (forall i :: attempt <= i < attempt + run.attempts - 1 ==> gamelog(i).LogFailed?)
      && gamelog(attempt + run.attempts - 1).LogFrame?
      && run.result.fullName == candidates[0].fullName
    ensures run.result.NoGames? ==> gamelog(attempt + run.attempts - 1).rows == []
    ensures run.result.Games? ==>
      var rows := gamelog(attempt + run.attempts - 1).rows;
      && |rows| > 0
      && run.result.window == Head(rows, Window)
      && Context(run.result.opponent, run.result.history)
         == MatchupContext(CurrentTeam(run.result.window), feeds)
    decreases retries - attempt
  {
    if attempt == retries then Run(NoReturn, 0, [])
    else if |candidates| == 0 then Run(NotFound(NotFoundMessage(name)), 0, [])
    else
      var p := PullLog(gamelog, retries, attempt);
      var events := AnalyzerSchedule(attempt, p.attempts);
      assert gamelog(attempt + p.attempts - 1) == p.got;
      match p.got
      case LogFailed(e) => Run(Failed("Error: " + e), p.attempts, events)
      case LogFrame(rows) =>
        if |rows| == 0 then Run(NoGames(candidates[0].fullName), p.attempts, events)
        else
          var window := Head(rows, Window);
          var context := MatchupContext(CurrentTeam(window), feeds);
          Run(Games(candidates[0].fullName, window, context.opponent, context.history), p.attempts, events)
  }

  /** `get_player_full_analysis_data(player_name, retries)`. */
  function FetchAnalysis(name: string, directory: string -> seq<Candidate>, gamelog: nat -> LogReply,
                         feeds: Feeds, retries: nat): Run<Analysis>
  {
    AnalyzerAttempts(name, directory(name), gamelog, feeds, retries, 0)
  }

  /** The schedule alternates sleeps and requests, and the sleep before
      attempt `i` lasts `3i + 1` seconds. */
  lemma {:induction false} ScheduleShape(from: nat, n: nat)
    ensures |AnalyzerSchedule(from, n)| == 2 * n
    ensures forall i :: 0 <= i < n ==>
      AnalyzerSchedule(from, n)[2 * i] == Sleep(3 * (from + i) + 1)
      && AnalyzerSchedule(from, n)[2 * i + 1] == Request(from + i)
    decreases n
  {
    if n > 0 {
      ScheduleShape(from + 1, n - 1);
      var s := AnalyzerSchedule(from, n);
      var t := AnalyzerSchedule(from + 1, n - 1);
      assert s == [Sleep(Backoff(from)), Request(from)] + t;
      forall i | 1 <= i < n
        ensures s[2 * i] == Sleep(3 * (from + i) + 1) && s[2 * i + 1] == Request(from + i)
      {
        assert s[2 * i] == t[2 * (i - 1)];
        assert s[2 * i + 1] == t[2 * (i - 1) + 1];
      }
    }
  }

  /** The schedule of a fetch from its first attempt. */
  lemma ScheduleFromStart(n: nat)
    ensures var s := AnalyzerSchedule(0, n);
      && |s| == 2 * n && |s| % 2 == 0 && |s| / 2 == n
      && forall i :: 0 <= i < |s| / 2 ==> s[2 * i] == Sleep(3 * i + 1) && s[2 * i + 1] == Request(i)
  {
    ScheduleShape(0, n);
  }

  /** The backoff strictly grows from one attempt to the next. */
  lemma BackoffIncreases(i: nat, j: nat)
    requires i < j
    ensures Backoff(i) < Backoff(j)
  {
  }

  /** A directory miss answers at once: no sleep and no game-log request. */
  lemma NotFoundAtOnce(name: string, directory: string -> seq<Candidate>, gamelog: nat -> LogReply,
                       feeds: Feeds, retries: nat)
    requires directory(name) == [] && retries > 0
    ensures FetchAnalysis(name, directory, gamelog, feeds, retries)
      == Run(NotFound("Could not find '" + name + "'."), 0, [])
  {
  }

  /** Failing `k - 1` times and then answering, within the retry budget,
      is a success after exactly `k` requests. */
  lemma SucceedsAfterFailures(name: string, directory: string -> seq<Candidate>, gamelog: nat -> LogReply,
                              feeds: Feeds, retries: nat, k: nat)
    requires directory(name) != []
    requires 1 <= k <= retries
    requires forall i :: 0 <= i < k - 1 ==> gamelog(i).LogFailed?
    requires gamelog(k - 1).LogFrame?
    ensures var run := FetchAnalysis(name, directory, gamelog, feeds, retries);
      (run.result.Games? || run.result.NoGames?) && run.attempts == k
  {
  }

  /** When every one of the `retries` requests fails, the last error is reported
      after exactly `retries` requests. */
  lemma AllAttemptsFail(name: string, directory: string -> seq<Candidate>, gamelog: nat -> LogReply,
                        feeds: Feeds, retries: nat)
    requires directory(name) != [] && retries > 0
    requires forall i :: 0 <= i < retries ==> gamelog(i).LogFailed?
    ensures var run := FetchAnalysis(name, directory, gamelog, feeds, retries);
      run.result == Failed("Error: " + gamelog(retries - 1).error) && run.attempts == retries
  {
  }

  // ----- test2.py, Gradio.py and test3.py: get_last_5_games -----

  /** The two-slot result of `get_last_5_games`. */
  datatype LastGames =
    | Unavailable(message: string)                   // (None, message)
    | Fetched(fullName: string, rows: seq<GameRow>)  // (full_name, frame); no rows is an empty season
    | Nothing                                        // `retries == 0`: None

  const Test2Retries: nat := 3

  const BlockedMessage: string := "NBA API " + "blocked or timed out after multiple attempts."

  /** `n` failed attempts from `from` that are not the last: a one-second
      sleep, the request, and a three-second pause. */
  function PauseSchedule(from: nat, n: nat): seq<Event>
    decreases n
  {
    if n == 0 then [] else [Sleep(1), Request(from), Sleep(3)] + PauseSchedule(from + 1, n - 1)
  }

  /** Three events per attempt, and every request is one of the attempts
      `from .. from + n - 1`. */
  lemma {:induction false} PauseScheduleShape(from: nat, n: nat)
    ensures |PauseSchedule(from, n)| == 3 * n
    ensures forall i :: 0 <= i < |PauseSchedule(from, n)| && PauseSchedule(from, n)[i].Request? ==>
      from <= PauseSchedule(from, n)[i].attempt < from + n
    decreases n
  {
    if n > 0 {
      PauseScheduleShape(from + 1, n - 1);
      var s := PauseSchedule(from, n);
      var rest := PauseSchedule(from + 1, n - 1);
      assert s == [Sleep(1), Request(from), Sleep(3)] + rest;
      forall i | 3 <= i < |s| && s[i].Request? ensures from <= s[i].attempt < from + n {
        assert s[i] == rest[i - 3];
      }
    }
  }

  /** The iterations `attempt, attempt + 1, ...` of test2.py's retry loop. */
  function Test2Attempts(name: string, candidates: seq<Candidate>, gamelog: nat -> LogReply,
                         retries: nat, attempt: nat): (run: Run<LastGames>)
    requires attempt <= retries
    ensures attempt + run.attempts <= retries
    ensures run.attempts > 0 ==>
      run.events == PauseSchedule(attempt, run.attempts - 1) + [Sleep(1), Request(attempt + run.attempts - 1)]
    ensures run.attempts == 0 ==> run.events == []
    ensures run.result.Nothing? <==> attempt == retries
    ensures run.result == Unavailable(NotFoundMessage(name)) <==> attempt < retries && |candidates| == 0
    ensures attempt < retries && |candidates| == 0 ==> run.attempts == 0 && run.events == []
    ensures run.result == Unavailable(BlockedMessage) ==>
      attempt + run.attempts == retries && forall i :: attempt <= i < retries ==> gamelog(i).LogFailed?
    ensures run.result.Fetched? ==>
      && run.attempts > 0
      && (forall i :: attempt <= i < attempt + run.attempts - 1 ==> gamelog(i).LogFailed?)
      && gamelog(attempt + run.attempts - 1).LogFrame?
      && run.result == Fetched(candidates[0].fullName, Head(Select(gamelog(attempt + run.attempts - 1).rows), Window))
    ensures run.result.Unavailable? ==> run.result.message in {NotFoundMessage(name), BlockedMessage}
    decreases retries - attempt
  {
    if attempt == retries then Run(Nothing, 0, [])
    else if |candidates| == 0 then
      MessagesDiffer(name);
      Run(Unavailable(NotFoundMessage(name)), 0, [])
    else
      var p := PullLog(gamelog, retries, attempt);
      var last := attempt + p.attempts - 1;
      var events := PauseSchedule(attempt, p.attempts - 1) + [Sleep(1), Request(last)];
      assert gamelog(last) == p.got;
      match p.got
      case LogFailed(_) =>
        MessagesDiffer(name);
        Run(Unavailable(BlockedMessage), p.attempts, events)
      case LogFrame(rows) =>
        if |rows| == 0 then Run(Fetched(candidates[0].fullName, []), p.attempts, events)
        else Run(Fetched(candidates[0].fullName, Head(Select(rows), Window)), p.attempts, events)
  }

  lemma MessagesDiffer(name: string)
    ensures NotFoundMessage(name) != BlockedMessage
  {
    assert NotFoundMessage(name)[0] == 'C';
    assert BlockedMessage[0] == "NBA API "[0];
  }

  /** test2.py `get_last_5_games(player_name, retries)`: at most `retries`
      requests; a name the directory does not know is reported before any
      sleep or request; the blocked message comes only after every allowed
      request failed, the last one without a pause after it; a fetched frame
      is the first match's, cut to the most recent games; and each attempt is
      at most a sleep, a request and a pause. */
  function Test2LastGames(name: string, directory: string -> seq<Candidate>, gamelog: nat -> LogReply,
                          retries: nat): (run: Run<LastGames>)
    ensures run.attempts <= retries
    ensures run.result.Nothing? <==> retries == 0
    ensures retries > 0 && directory(name) == [] ==> run == Run(Unavailable(NotFoundMessage(name)), 0, [])
    ensures run.result == Unavailable(BlockedMessage) ==>
      && run.attempts == retries
      && (forall i :: 0 <= i < retries ==> gamelog(i).LogFailed?)
      && run.events == PauseSchedule(0, retries - 1) + [Sleep(1), Request(retries - 1)]
    ensures run.result.Fetched? ==>
      && directory(name) != []
      && run.result.fullName == directory(name)[0].fullName
      && |run.result.rows| <= Window
    ensures retries == 0 ==> run.events == []
    ensures retries > 0 ==> |run.events| < 3 * retries
    ensures forall i :: 0 <= i < |run.events| && run.events[i].Request? ==> run.events[i].attempt < retries
  {
    var run := Test2Attempts(name, directory(name), gamelog, retries, 0);
    if run.attempts == 0 then run
    else
      PauseScheduleShape(0, run.attempts - 1);
      var pauses := PauseSchedule(0, run.attempts - 1);
      assert run.events == pauses + [Sleep(1), Request(run.attempts - 1)];
      assert forall i :: 0 <= i < |pauses| ==> run.events[i] == pauses[i];
      run
  }

  /** A season without games is a success with no rows, never the failure message. */
  lemma EmptySeasonIsNotFailure(name: string, directory: string -> seq<Candidate>, gamelog: nat -> LogReply,
                                retries: nat)
    requires directory(name) != [] && retries > 0
    requires gamelog(0) == LogFrame([])
    ensures Test2LastGames(name, directory, gamelog, retries) == Run(Fetched(directory(name)[0].fullName, []), 1, [Sleep(1), Request(0)])
  {
  }

  /** Gradio.py `get_last_5_games(player_name)`: one request, no retry, and
      every problem (no match, API error, empty season) is a message. */
  function GradioLastGames(name: string, candidates: seq<Candidate>, reply: LogReply): (r: LastGames)
    ensures r.Unavailable? <==> |candidates| == 0 || reply.LogFailed? || reply.rows == []
    ensures |candidates| == 0 ==> r.message == "Could not find '" + name + "'. Try a full name like 'Stephen Curry'."
    ensures |candidates| > 0 && reply.LogFailed? ==> r.message == "NBA API Error: " + reply.error
    ensures |candidates| > 0 && reply.LogFrame? && reply.rows == [] ==> r.message == "No games played in the 2025-26 season yet."
    ensures r.Fetched? ==> r.fullName == candidates[0].fullName && r.rows == Head(Select(reply.rows), Window) && 0 < |r.rows| <= Window
  {
    if |candidates| == 0 then Unavailable("Could not find '" + name + "'. Try a full name like 'Stephen Curry'.")
    else match reply
      case LogFailed(e) => Unavailable("NBA API Error: " + e)
      case LogFrame(rows) =>
        if |rows| == 0 then Unavailable("No games played in the 2025-26 season yet.")
        else Fetched(candidates[0].fullName, Head(Select(rows), Window))
  }

  /** The fixed frame test3.py returns instead of calling the API. */
  const MockRows: seq<GameRow> := [
    GameRow("FEB 20, 2026", "LAL vs. BOS", "W", 28, 8, 9, 3, 34),
    GameRow("FEB 18, 2026", "LAL @ NYK", "L", 24, 10, 7, 2, 36),
    GameRow("FEB 16, 2026", "LAL vs. CHI", "W", 31, 7, 10, 4, 33),
    GameRow("FEB 14, 2026", "LAL @ MIA", "W", 26, 9, 8, 1, 35),
    GameRow("FEB 12, 2026", "LAL vs. PHI", "L", 22, 11, 6, 2, 32)
  ]

  /** test3.py `get_last_5_games(player_name, retries)`: never fails, title-cases
      the name, and returns the same five rows whatever the name or retries. */
  function MockLastGames(name: string, retries: nat): (r: LastGames)
    ensures r.Fetched? && r.fullName == Title(name) && |r.rows| == Window
    ensures r.rows == MockRows
  {
    Fetched(Title(name), MockRows)
  }

  /** The mock's rows depend on neither the name nor `retries`, and its name
      only on the name. */
  lemma MockIgnoresInputs(a: string, i: nat, b: string, j: nat)
    ensures MockLastGames(a, i).rows == MockLastGames(b, j).rows
    ensures MockLastGames(a, i).fullName == MockLastGames(a, j).fullName
  {
  }
}
