/** nba-analyzer.py `chat_handler` and `respond`: extraction with the
    search fallback, the four-attempt combined fetch, and the matchup-aware
    analysis prompt. */
module AnalyzerApp {
  import opened Wrappers
  import opened Text
  import opened Intent
  import opened GameLog
  import opened Matchup
  import opened Fetch
  import opened Extraction
  import opened Turns
  import SearchParser

  const AnalysisUnavailable: string := "AI analysis unavailable."

  function Heading(name: string, opponent: string): string {
    "### \U{1F3C0} Analysis: " + name + " vs. " + opponent
  }

  /** The combined fetch for the query's player. */
  function FetchFor(q: Query, w: World): Run<Analysis> {
    FetchAnalysis(q.player, w.directory, w.gamelog, w.feeds, AnalyzerRetries)
  }

  /** Everything after the query is known. A directory miss or a run of failed
      requests is a warning; a season without games raises `KeyError` where the
      seven columns are selected from the empty frame; otherwise the analysis
      call gets the recent rows and the career text against the opponent, and
      its failure is replaced by a fixed sentence. */
  function AnalyzerAnswer(q: Query, w: World): (t: Turn)
    ensures t.events == FetchFor(q, w).events
    ensures t.asked.Some? <==> FetchFor(q, w).result.Games?
    ensures FetchFor(q, w).result.NotFound? || FetchFor(q, w).result.Failed? ==>
      t.reply == Returned(Warning + FetchFor(q, w).result.message)
    ensures FetchFor(q, w).result.NoGames? ==> t.reply == Raised("KeyError")
    ensures FetchFor(q, w).result.Games? ==>
      var g := FetchFor(q, w).result;
      && t.asked == Some(MatchupPrompt(g.fullName, q, g.opponent, Select(g.window), CareerAgainst(g.history, g.opponent)))
      && 0 < |t.asked.value.recent| <= Window
      && t.reply.Returned?
      && StartsWith(t.reply.value, Heading(g.fullName, g.opponent) + "\n\n" + w.analyst(t.asked.value).GetOr(AnalysisUnavailable))
      && EndsWith(t.reply.value, "\n\n**Raw Data (Last 5):**\n```\n" + w.show.brief(t.asked.value.recent) + "\n```")
  {
    var run := FetchFor(q, w);
    match run.result
    case NoReturn => Turn(Raised("TypeError"), run.events, None)
    case NotFound(msg) => Turn(Returned(Warning + msg), run.events, None)
    case Failed(msg) => Turn(Returned(Warning + msg), run.events, None)
    case NoGames(_) => Turn(Raised("KeyError"), run.events, None)
    case Games(name, window, opp, history) =>
      var recent := Select(window);
      var p := MatchupPrompt(name, q, opp, recent, CareerAgainst(history, opp));
      var head := Heading(name, opp) + "\n\n" + w.analyst(p).GetOr(AnalysisUnavailable);
      var tail := "\n\n**Raw Data (Last 5):**\n```\n" + w.show.brief(recent) + "\n```";
      Turn(Returned(head + tail), run.events, Some(p))
  }

  /** `chat_handler(message)`. It raises only `AttributeError` (a non-dict
      extraction, before anything is fetched) or `KeyError` (an empty season);
      it makes at most four game-log requests and at most one analysis call,
      and an analysis call always ends in a reply. */
  function AnalyzerTurn(message: string, w: World): (t: Turn)
    ensures t.reply.Raised? ==> t.reply.exception in {"AttributeError", "KeyError"} && t.asked.None?
    ensures t.reply == Raised("AttributeError") ==> t.events == []
    ensures |t.events| <= 2 * AnalyzerRetries
    ensures t.asked.Some? ==> t.reply.Returned?
    ensures var oq := AnalyzerQuery(ParseReply(w.extraction, w.parse), message);
      && (oq.Raised? ==> t == Turn(Raised(oq.exception), [], None))
      && (oq.Returned? ==> t == AnalyzerAnswer(oq.value, w))
  {
    match AnalyzerQuery(ParseReply(w.extraction, w.parse), message)
    case Raised(e) => Turn(Raised(e), [], None)
    case Returned(q) =>
      BoundedBackoff(q, w);
      AnalyzerAnswer(q, w)
  }

  /** `respond(message, chat_history)`; the cleared input box is left out. The
      handler's exception escapes; otherwise the history gains exactly the
      user message and the handler's reply. */
  function AnalyzerRespond(message: string, history: Option<seq<Message>>, w: World): (r: Outcome<seq<Message>>)
    ensures var reply := AnalyzerTurn(message, w).reply;
      && (r.Raised? <==> reply.Raised?)
      && (r.Raised? ==> r.exception in {"AttributeError", "KeyError"})
      && (r.Returned? ==> r.value == history.GetOr([]) + [Message("user", message), Message("assistant", reply.value)])
  {
    var reply := AnalyzerTurn(message, w).reply;
    var r := Respond(message, history, reply);
    assert r.Returned? ==> r.value == r.value[..|r.value| - 2] + [r.value[|r.value| - 2], r.value[|r.value| - 1]];
    r
  }

  /** When the extraction call fails, the player looked up is the one the
      search pattern finds (or the empty name). */
  lemma FallbackWhenExtractionFails(message: string, w: World)
    requires w.extraction.None?
    ensures AnalyzerTurn(message, w) == AnalyzerAnswer(SearchParser.FallbackExtract(message), w)
  {
  }

  /** A name the directory does not know is answered with a warning, without a
      single sleep, game-log request or analysis call. */
  lemma UnknownPlayerWarns(q: Query, w: World)
    requires w.directory(q.player) == []
    ensures AnalyzerAnswer(q, w) == Turn(Returned(Warning + ("Could not find '" + q.player + "'.")), [], None)
  {
    NotFoundAtOnce(q.player, w.directory, w.gamelog, w.feeds, AnalyzerRetries);
  }

  /** A found player with no games this season makes the handler raise
      `KeyError`: the empty frame has none of the columns it selects. */
  lemma EmptySeasonRaises(q: Query, w: World)
    requires w.directory(q.player) != []
    requires w.gamelog(0) == LogFrame([])
    ensures AnalyzerAnswer(q, w).reply == Raised("KeyError")
    ensures AnalyzerAnswer(q, w).events == [Sleep(1), Request(0)]
  {
  }

  /** A turn makes at most four game-log requests, each after a sleep of
      1, 4, 7 and 10 seconds in turn. */
  lemma BoundedBackoff(q: Query, w: World)
    ensures var e := AnalyzerAnswer(q, w).events;
      && |e| <= 2 * AnalyzerRetries
      && |e| % 2 == 0
      && forall i :: 0 <= i < |e| / 2 ==> e[2 * i] == Sleep(3 * i + 1) && e[2 * i + 1] == Request(i)
  {
    AnswerSchedule(q, w);
    ScheduleFromStart(FetchFor(q, w).attempts);
  }

  lemma AnswerSchedule(q: Query, w: World)
    ensures FetchFor(q, w).attempts <= AnalyzerRetries
    ensures AnalyzerAnswer(q, w).events == AnalyzerSchedule(0, FetchFor(q, w).attempts)
  {
  }

  /** When every request fails, the reply is the warning with the last error. */
  lemma AllFailuresWarn(q: Query, w: World)
    requires w.directory(q.player) != []
    requires forall i :: 0 <= i < AnalyzerRetries ==> w.gamelog(i).LogFailed?
    ensures AnalyzerAnswer(q, w).reply == Returned(Warning + ("Error: " + w.gamelog(3).error))
    ensures AnalyzerAnswer(q, w).asked.None?
  {
    AllAttemptsFail(q.player, w.directory, w.gamelog, w.feeds, AnalyzerRetries);
  }
}
