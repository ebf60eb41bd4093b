/** Gradio.py `chat_handler` and `respond`: extraction with the anchored
    fallback, a single game-log request, and the offline average verdict when
    the analysis call fails. */
module GradioApp {
  import opened Wrappers
  import opened Text
  import opened Intent
  import opened GameLog
  import opened Fetch
  import opened Extraction
  import opened Turns
  import opened OverUnder
  import AnchoredParser

  function CallPhrase(c: Call): string {
    match c
    case LikelyOver => " is likely to go OVER "
    case MightUnder => " might go UNDER "
    case LikelyUnder => " is likely to go UNDER "
    case MightOver => " might go OVER "
  }

  /** The sentence written when the analysis call raises: the verdict on the
      mean of the stat's column against the line. */
  function AverageAnalysis(name: string, q: Query, rows: seq<GameRow>, show: Show): (text: string)
    requires |rows| > 0
    ensures var avg := Mean(rows, StatColumn(q.stat));
      StartsWith(text, name + CallPhrase(Verdict(q.direction, avg, q.line)))
      && EndsWith(text, " (avg " + show.tenth(avg) + ").")
  {
    var avg := Mean(rows, StatColumn(q.stat));
    var head := name + CallPhrase(Verdict(q.direction, avg, q.line));
    var tail := " (avg " + show.tenth(avg) + ").";
    head + (show.number(q.line) + " " + q.stat) + tail
  }

  /** The single fetch for the query's player. */
  function FetchFor(q: Query, w: World): LastGames {
    GradioLastGames(q.player, w.directory(q.player), w.gamelog(0))
  }

  /** Everything after the query is known. Every fetch problem comes back as a
      message in place of the frame, and the handler's `is None` test never
      catches it: building the prompt calls `to_string` on the message and
      raises `AttributeError`. */
  function GradioAnswer(q: Query, w: World): (t: Turn)
    ensures t.events == if w.directory(q.player) == [] then [] else [Request(0)]
    ensures t.reply.Raised? <==> !FetchFor(q, w).Fetched?
    ensures t.reply.Raised? ==> t.reply.exception == "AttributeError" && t.asked.None?
    ensures t.reply.Returned? ==>
      var g := FetchFor(q, w);
      && t.asked == Some(RecentPrompt(g.fullName, q, g.rows))
      && 0 < |g.rows| <= Window
      && EndsWith(t.reply.value, "\n\n**Data for " + g.fullName + ":**\n\n" + w.show.table(g.rows))
      && (w.analyst(t.asked.value).Some? ==> StartsWith(t.reply.value, w.analyst(t.asked.value).value))
      && (w.analyst(t.asked.value).None? ==> StartsWith(t.reply.value, AverageAnalysis(g.fullName, q, g.rows, w.show)))
  {
    var events := if w.directory(q.player) == [] then [] else [Request(0)];
    var got := FetchFor(q, w);
    if !got.Fetched? then Turn(Raised("AttributeError"), events, None)
    else
      var p := RecentPrompt(got.fullName, q, got.rows);
      var analysis := match w.analyst(p)
        case Some(a) => a
        case None => AverageAnalysis(got.fullName, q, got.rows, w.show);
      Turn(Returned(analysis + ("\n\n**Data for " + got.fullName + ":**\n\n" + w.show.table(got.rows))), events, Some(p))
  }

  /** `chat_handler(message, history)`. It raises only `AttributeError` or
      `KeyError`, makes at most one request, asks the analyst exactly when it
      replies, and a query whose player is found with a non-empty frame is
      always answered. */
  function GradioTurn(message: string, w: World): (t: Turn)
    ensures t.reply.Raised? ==> t.reply.exception in {"AttributeError", "KeyError"}
    ensures t.asked.Some? <==> t.reply.Returned?
    ensures |t.events| <= 1
    ensures var oq := GradioQuery(ParseRawReply(w.extraction, w.parse), message);
      oq.Returned? && w.directory(oq.value.player) != [] && w.gamelog(0).LogFrame? && w.gamelog(0).rows != [] ==>
      t.reply.Returned?
    ensures var oq := GradioQuery(ParseRawReply(w.extraction, w.parse), message);
      && (oq.Raised? ==> t == Turn(Raised(oq.exception), [], None))
      && (oq.Returned? ==> t == GradioAnswer(oq.value, w))
  {
    match GradioQuery(ParseRawReply(w.extraction, w.parse), message)
    case Raised(e) => Turn(Raised(e), [], None)
    case Returned(q) => GradioAnswer(q, w)
  }

  /** `respond(message, chat_history)`; the cleared input box is left out. The
      handler runs before the history is looked at, so its exception escapes
      whatever the history; otherwise the history gains exactly the user
      message and the handler's reply. */
  function GradioRespond(message: string, history: Option<seq<Message>>, w: World): (r: Outcome<seq<Message>>)
    ensures var reply := GradioTurn(message, w).reply;
      && (r.Raised? <==> reply.Raised?)
      && (r.Raised? ==> r.exception in {"AttributeError", "KeyError"})
      && (r.Returned? ==> r.value == history.GetOr([]) + [Message("user", message), Message("assistant", reply.value)])
  {
    var reply := GradioTurn(message, w).reply;
    var r := Respond(message, history, reply);
    assert r.Returned? ==> r.value == r.value[..|r.value| - 2] + [r.value[|r.value| - 2], r.value[|r.value| - 1]];
    r
  }

  /** A name the directory does not know, an API error and an empty season
      all make the handler raise instead of showing their message. */
  lemma FetchProblemsRaise(q: Query, w: World)
    requires w.directory(q.player) == [] || w.gamelog(0).LogFailed? || w.gamelog(0) == LogFrame([])
    ensures GradioAnswer(q, w).reply == Raised("AttributeError")
  {
  }

  /** With data and a failed analysis call, the reply opens with the verdict
      on the average of the stat's column, and a regex-parsed "3 pointers"
      query is judged on points. */
  lemma OfflineVerdict(message: string, w: World)
    requires w.extraction.None?
    requires GradioTurn(message, w).reply.Returned?
    requires GradioTurn(message, w).asked.Some? && w.analyst(GradioTurn(message, w).asked.value).None?
    ensures var q, g := AnchoredParser.FallbackExtract(message), FetchFor(AnchoredParser.FallbackExtract(message), w);
      && StatColumn(q.stat) != FG3M
      && StartsWith(GradioTurn(message, w).reply.value,
                    g.fullName + CallPhrase(Verdict(q.direction, Mean(g.rows, StatColumn(q.stat)), q.line)))
  {
    var q := AnchoredParser.FallbackExtract(message);
    ParsedStatNeverThrees(message);
    assert GradioQuery(ParseRawReply(w.extraction, w.parse), message) == Returned(q);
    var t := GradioAnswer(q, w);
    assert GradioTurn(message, w) == t;
    var g := FetchFor(q, w);
    var text := AverageAnalysis(g.fullName, q, g.rows, w.show);
    StartsWithTrans(t.reply.value, text, g.fullName + CallPhrase(Verdict(q.direction, Mean(g.rows, StatColumn(q.stat)), q.line)));
  }
}
