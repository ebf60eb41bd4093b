/** What the four chat handlers share: the outside world they consult, the
    analysis prompt, the record of one chat turn, and the history update of
    `respond`. Rendering a frame with `to_string` and formatting a float are
    oracles of the world: their text is not modelled. */
module Turns {
  import opened Wrappers
  import opened Intent
  import opened GameLog
  import opened Matchup
  import opened Fetch
  import opened Extraction

  /** What the analysis call is asked: the facts each script puts in its prompt. */
  datatype Prompt =
    | MatchupPrompt(name: string, query: Query, opponent: string, recent: seq<GameRow>, career: CareerStats)
    | RecentPrompt(name: string, query: Query, recent: seq<GameRow>)

  /** Text the model leaves to pandas and to float formatting. */
  datatype Show = Show(
    table: seq<GameRow> -> string,     // the eight columns, `to_string(index=False)`
    brief: seq<GameRow> -> string,     // the seven columns without FG3M
    number: real -> string,            // `str(line)`
    tenth: real -> string)             // `f"{avg:.1f}"`

  /** The services one chat turn may consult. `extraction` is the reply of the
      extraction call (`None` when it raised), `gamelog(i)` the outcome of the
      game-log request of attempt `i`, and `analyst` the reply of the analysis
      call for a prompt (`None` when it raised). */
  datatype World = World(
    extraction: Option<string>,
    parse: string -> Option<Parsed>,
    directory: string -> seq<Candidate>,
    gamelog: nat -> LogReply,
    feeds: Feeds,
    analyst: Prompt -> Option<string>,
    show: Show)

  /** One chat turn: the reply (or the exception that escaped the handler),
      the fetch's sleeps and requests, and the prompt of the analysis call
      when one was made. */
  datatype Turn = Turn(reply: Outcome<string>, events: seq<Event>, asked: Option<Prompt>)

  /** The "⚠️ " prefix of every warning reply. */
  const Warning: string := "\U{26A0}\U{FE0F} "

  /** A chat message in the `{"role": ..., "content": ...}` format. */
  datatype Message = Message(role: string, content: string)

  /** `respond` of nba-analyzer.py, test2.py and test3.py (and Gradio.py, which
      returns the pair the other way round): a missing history starts empty,
      and the user message and the reply are appended in that order. An
      exception in the handler escapes `respond` unchanged. */
  function Respond(message: string, history: Option<seq<Message>>, reply: Outcome<string>): (r: Outcome<seq<Message>>)
    ensures r.Raised? <==> reply.Raised?
    ensures r.Raised? ==> r.exception == reply.exception
    ensures r.Returned? ==>
      && |r.value| == |history.GetOr([])| + 2
      && r.value[..|r.value| - 2] == history.GetOr([])
      && r.value[|r.value| - 2] == Message("user", message)
      && r.value[|r.value| - 1] == Message("assistant", reply.value)
  {
    match reply
    case Raised(e) => Raised(e)
    case Returned(text) =>
      Returned(history.GetOr([]) + [Message("user", message), Message("assistant", text)])
  }
}
