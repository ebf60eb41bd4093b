/** `chat_handler` and `respond` of test2.py and test3.py. The two handlers
    are the same code; they differ only in the fetch: test2.py retries the
    game-log endpoint, test3.py returns fixed mock rows. */
module RecentApp {
  import opened Wrappers
  import opened Text
  import opened Intent
  import opened GameLog
  import opened Fetch
  import opened Extraction
  import opened Turns

  const AnalysisUnavailable: string := "AI analysis unavailable. Showing raw data below."

  function DataBlock(name: string, table: string): string {
    "\n\n**Performance Data for " + name + ":**\n\n```\n" + table + "\n```"
  }

  /** Everything after the fetch. A message in place of a frame is a warning
      (an empty message shows the name slot instead, which is `None` then); a
      found player without rows is a warning of its own; otherwise the
      analysis call gets the rows, and its failure is replaced by a fixed
      sentence. A fetch that returned nothing cannot be unpacked. */
  function RecentAnswer(q: Query, got: LastGames, w: World): (t: Turn)
    ensures t.events == []
    ensures t.reply.Raised? <==> got.Nothing?
    ensures t.asked.Some? <==> got.Fetched? && got.rows != []
    ensures got.Unavailable? && got.message != "" ==> t.reply == Returned(Warning + got.message)
    ensures got.Fetched? && got.rows == [] ==>
      t.reply == Returned(Warning + "Found " + got.fullName + ", but no logs yet for 2025-26.")
    ensures t.asked.Some? ==>
      && t.asked.value == RecentPrompt(got.fullName, q, got.rows)
      && StartsWith(t.reply.value, w.analyst(t.asked.value).GetOr(AnalysisUnavailable))
      && EndsWith(t.reply.value, DataBlock(got.fullName, w.show.table(got.rows)))
  {
    match got
    case Nothing => Turn(Raised("TypeError"), [], None)
    case Unavailable(msg) => Turn(Returned(Warning + (if msg != "" then msg else "None")), [], None)
    case Fetched(name, rows) =>
      if rows == [] then Turn(Returned(Warning + "Found " + name + ", but no logs yet for 2025-26."), [], None)
      else
        var p := RecentPrompt(name, q, rows);
        Turn(Returned(w.analyst(p).GetOr(AnalysisUnavailable) + DataBlock(name, w.show.table(rows))), [], Some(p))
  }

  /** test2.py `chat_handler(message)`: the three-attempt fetch, then the
      answer. It raises only `AttributeError`, before anything is fetched; it
      makes requests only for attempts 0 to 2, at most eight events in all,
      and an analysis call always ends in a reply. */
  function RetryTurn(message: string, w: World): (t: Turn)
    ensures t.reply.Raised? ==> t.reply.exception == "AttributeError" && t.events == [] && t.asked.None?
    ensures |t.events| <= 8
    ensures forall i :: 0 <= i < |t.events| && t.events[i].Request? ==> t.events[i].attempt < Test2Retries
    ensures t.asked.Some? ==> t.reply.Returned?
    ensures var oq := NamedQuery(ParseReply(w.extraction, w.parse), message);
      && (oq.Raised? ==> t == Turn(Raised(oq.exception), [], None))
      && (oq.Returned? ==>
            var run := Test2LastGames(oq.value.player, w.directory, w.gamelog, Test2Retries);
            t == RecentAnswer(oq.value, run.result, w).(events := run.events))
  {
    match NamedQuery(ParseReply(w.extraction, w.parse), message)
    case Raised(e) => Turn(Raised(e), [], None)
    case Returned(q) =>
      var run := Test2LastGames(q.player, w.directory, w.gamelog, Test2Retries);
      RecentAnswer(q, run.result, w).(events := run.events)
  }

  /** test3.py `chat_handler(message)`: the mock fetch, then the answer. No
      time passes and nothing is requested; it raises exactly when the
      extracted value is not a dict, and otherwise always asks the analyst
      about the title-cased name and the five mock rows. */
  function MockTurn(message: string, w: World): (t: Turn)
    ensures t.events == []
    ensures var oq := NamedQuery(ParseReply(w.extraction, w.parse), message);
      && (t.reply.Raised? <==> oq.Raised?)
      && (t.reply.Raised? ==> t.reply.exception == "AttributeError")
      && (oq.Returned? ==> t.reply.Returned? && t.asked == Some(RecentPrompt(Title(oq.value.player), oq.value, MockRows)))
    ensures var oq := NamedQuery(ParseReply(w.extraction, w.parse), message);
      && (oq.Raised? ==> t == Turn(Raised(oq.exception), [], None))
      && (oq.Returned? ==> t == RecentAnswer(oq.value, MockLastGames(oq.value.player, Test2Retries), w))
  {
    match NamedQuery(ParseReply(w.extraction, w.parse), message)
    case Raised(e) => Turn(Raised(e), [], None)
    case Returned(q) =>
      MockAlwaysAnalyses(q, w);
      RecentAnswer(q, MockLastGames(q.player, Test2Retries), w)
  }

  /** `respond(message, chat_history)` of test2.py; the cleared input box is
      left out. The handler's `AttributeError` escapes; otherwise the history
      gains exactly the user message and the handler's reply. */
  function RetryRespond(message: string, history: Option<seq<Message>>, w: World): (r: Outcome<seq<Message>>)
    ensures var reply := RetryTurn(message, w).reply;
      && (r.Raised? <==> reply.Raised?)
      && (r.Raised? ==> r.exception == "AttributeError")
      && (r.Returned? ==> r.value == history.GetOr([]) + [Message("user", message), Message("assistant", reply.value)])
  {
    var reply := RetryTurn(message, w).reply;
    var r := Respond(message, history, reply);
    assert r.Returned? ==> r.value == r.value[..|r.value| - 2] + [r.value[|r.value| - 2], r.value[|r.value| - 1]];
    r
  }

  /** `respond(message, chat_history)` of test3.py; the cleared input box is
      left out. It fails only when the extracted value is not a dict, and
      otherwise the history gains the user message and the reply. */
  function MockRespond(message: string, history: Option<seq<Message>>, w: World): (r: Outcome<seq<Message>>)
    ensures var oq := NamedQuery(ParseReply(w.extraction, w.parse), message);
      && (r.Raised? <==> oq.Raised?)
      && (r.Raised? ==> r.exception == "AttributeError")
    ensures var reply := MockTurn(message, w).reply;
      r.Returned? ==> r.value == history.GetOr([]) + [Message("user", message), Message("assistant", reply.value)]
  {
    var reply := MockTurn(message, w).reply;
    var r := Respond(message, history, reply);
    assert r.Returned? ==> r.value == r.value[..|r.value| - 2] + [r.value[|r.value| - 2], r.value[|r.value| - 1]];
    r
  }

  /** In test2.py a found player with an empty season gets the "no logs yet"
      warning after one request, not the blocked-API message. */
  lemma EmptySeasonWarns(q: Query, w: World)
    requires w.directory(q.player) != []
    requires w.gamelog(0) == LogFrame([])
    ensures var run := Test2LastGames(q.player, w.directory, w.gamelog, Test2Retries);
      RecentAnswer(q, run.result, w).reply
        == Returned(Warning + "Found " + w.directory(q.player)[0].fullName + ", but no logs yet for 2025-26.")
  {
    EmptySeasonIsNotFailure(q.player, w.directory, w.gamelog, Test2Retries);
  }

  /** In test2.py three failed requests give the blocked-API warning, with
      three-second pauses between the attempts. */
  lemma BlockedWarns(q: Query, w: World)
    requires w.directory(q.player) != []
    requires forall i :: 0 <= i < Test2Retries ==> w.gamelog(i).LogFailed?
    ensures var run := Test2LastGames(q.player, w.directory, w.gamelog, Test2Retries);
      && RecentAnswer(q, run.result, w).reply == Returned(Warning + BlockedMessage)
      && run.events == [Sleep(1), Request(0), Sleep(3), Sleep(1), Request(1), Sleep(3), Sleep(1), Request(2)]
  {
    var run := Test2LastGames(q.player, w.directory, w.gamelog, Test2Retries);
    assert !run.result.Fetched? ==> run.attempts == 3;
  }

  /** test3.py never reaches a warning: it always makes the analysis call,
      with the title-cased name and the five mock rows whatever the query's
      player, and always ends with the fenced data block. */
  lemma MockAlwaysAnalyses(q: Query, w: World)
    ensures var t := RecentAnswer(q, MockLastGames(q.player, Test2Retries), w);
      && t.asked == Some(RecentPrompt(Title(q.player), q, MockRows))
      && t.reply.Returned?
      && EndsWith(t.reply.value, DataBlock(Title(q.player), w.show.table(MockRows)))
  {
  }
}
