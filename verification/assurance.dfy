/** Chat_bot.py: the answer-assurance turn. The history is normalised to
    role/content messages, one reply is generated, a judge model evaluates it
    once, and a rejected reply is replaced by one regenerated reply that is
    never evaluated. The system prompt (with the player's PDF text in it) is a
    parameter, and each model call's outcome is an oracle value. */
module Assurance {
  import opened Wrappers
  import opened Turns

  /** A history entry as Gradio hands it over: a role/content dict, or an
      old-style [user, bot] pair. */
  datatype HistoryTurn = DictTurn(message: Message) | PairTurn(user: string, bot: string)

  function Expand(t: HistoryTurn): seq<Message> {
    match t
    case DictTurn(m) => [m]
    case PairTurn(u, b) => [Message("user", u), Message("assistant", b)]
  }

  /** How many entries of the history are old-style pairs. */
  function PairCount(h: seq<HistoryTurn>): nat {
    if |h| == 0 then 0 else PairCount(h[..|h| - 1]) + (if h[|h| - 1].PairTurn? then 1 else 0)
  }

  /** The history as role/content messages: a dict is kept, a pair becomes
      the user message and then the assistant message, in history order. Every
      entry contributes one message, and a pair one more. */
  function Normalize(h: seq<HistoryTurn>): (r: seq<Message>)
    ensures |r| == |h| + PairCount(h)
    decreases |h|
  {
    if |h| == 0 then [] else Normalize(h[..|h| - 1]) + Expand(h[|h| - 1])
  }

  /** Normalisation works entry by entry, so it distributes over concatenation. */
  lemma {:induction false} NormalizeAppend(a: seq<HistoryTurn>, b: seq<HistoryTurn>)
    ensures Normalize(a + b) == Normalize(a) + Normalize(b)
    decreases |b|
  {
    if |b| == 0 {
      assert a + b == a;
    } else {
      var b' := b[..|b| - 1];
      var t := b[|b| - 1];
      assert (a + b)[..|a + b| - 1] == a + b';
      assert Normalize(a + b) == Normalize(a + b') + Expand(t);
      NormalizeAppend(a, b');
      assert Normalize(b) == Normalize(b') + Expand(t);
    }
  }

  /** A history of dicts only is passed on unchanged. */
  lemma {:induction false} DictsKept(h: seq<HistoryTurn>)
    requires forall i :: 0 <= i < |h| ==> h[i].DictTurn?
    ensures Normalize(h) == seq(|h|, i requires 0 <= i < |h| => h[i].message)
    decreases |h|
  {
    if |h| > 0 {
      DictsKept(h[..|h| - 1]);
    }
  }

  /** The loop of `chat` that builds `formatted_history`. */
  method FormatHistory(history: seq<HistoryTurn>) returns (formatted: seq<Message>)
    ensures formatted == Normalize(history)
  {
    formatted := [];
    var i := 0;
    while i < |history|
      invariant 0 <= i <= |history|
      invariant formatted == Normalize(history[..i])
    {
      match history[i] {
        case DictTurn(m) =>
          formatted := formatted + [m];
        case PairTurn(u, b) =>
          formatted := formatted + [Message("user", u)];
          formatted := formatted + [Message("assistant", b)];
      }
      assert history[..i + 1][..i] == history[..i];
      i := i + 1;
    }
    assert history[..i] == history;
  }

  /** The messages a generation call receives: the system prompt first, the
      normalised history, the user message last. */
  function ModelInput(system: string, history: seq<Message>, message: string): (input: seq<Message>)
    ensures |input| == |history| + 2
    ensures input[0] == Message("system", system)
    ensures input[1..|input| - 1] == history
    ensures input[|input| - 1] == Message("user", message)
  {
    [Message("system", system)] + history + [Message("user", message)]
  }

  /** The system prompt of `rerun`: the original one with the judge's feedback appended. */
  function RerunPrompt(system: string, feedback: string): (p: string)
    ensures |p| == |system| + |"\n\nReject feedback: "| + |feedback|
    ensures p[..|system|] == system
    ensures p[|p| - |feedback|..] == feedback
  {
    system + "\n\nReject feedback: " + feedback
  }

  /** The judge's structured answer: exactly the two fields of `Evaluation`. */
  datatype Evaluation = Evaluation(isAcceptable: bool, feedback: string)

  /** What the judge call produced: it raised, it returned no parsed value
      (a refusal), or it returned an evaluation. */
  datatype Verdict = JudgeFailed | Refused | Judged(evaluation: Evaluation)

  /** A model call a turn makes, with what it was given. */
  datatype Call =
    | Generate(input: seq<Message>)
    | Judge(reply: string, message: string, history: seq<Message>)

  datatype ChatRun = ChatRun(reply: Outcome<string>, calls: seq<Call>)

  /** `chat(message, history)`. `first` and `second` are the outcomes of the
      two generation calls (`None` when the call raised) and `verdict` that of
      the judge call. A failing or refusing judge aborts the turn. */
  function Chat(system: string, message: string, history: seq<HistoryTurn>,
                first: Option<string>, verdict: Verdict, second: Option<string>): (run: ChatRun)
    ensures 1 <= |run.calls| <= 3
    ensures run.calls[0] == Generate(ModelInput(system, Normalize(history), message))
    ensures forall i :: 0 <= i < |run.calls| ==> (run.calls[i].Judge? <==> i == 1)
    ensures first.None? ==> run.reply.Raised? && |run.calls| == 1
    ensures first.Some? ==> |run.calls| >= 2 && run.calls[1] == Judge(first.value, message, Normalize(history))
    ensures first.Some? && verdict.Judged? && verdict.evaluation.isAcceptable ==>
      run.reply == Returned(first.value) && |run.calls| == 2
    ensures first.Some? && verdict.Judged? && !verdict.evaluation.isAcceptable ==>
      && |run.calls| == 3
      && run.calls[2] == Generate(ModelInput(RerunPrompt(system, verdict.evaluation.feedback), Normalize(history), message))
      && (second.Some? ==> run.reply == Returned(second.value))
      && (second.None? ==> run.reply.Raised?)
    ensures first.Some? && !verdict.Judged? ==> run.reply.Raised? && |run.calls| == 2
  {
    var h := Normalize(history);
    var input := ModelInput(system, h, message);
    match first
    case None => ChatRun(Raised("APIError"), [Generate(input)])
    case Some(reply) =>
      var asked := [Generate(input), Judge(reply, message, h)];
      match verdict
      case JudgeFailed => ChatRun(Raised("APIError"), asked)
      case Refused => ChatRun(Raised("AttributeError"), asked)
      case Judged(evaluation) =>
        if evaluation.isAcceptable then ChatRun(Returned(reply), asked)
        else
          var calls := [Generate(input), Judge(reply, message, h),
                        Generate(ModelInput(RerunPrompt(system, evaluation.feedback), h, message))];
          match second
          case None => ChatRun(Raised("APIError"), calls)
          case Some(retry) => ChatRun(Returned(retry), calls)
  }

  /** Counting the calls of a turn: at most two generations and one judgement. */
  function Count(calls: seq<Call>, judge: bool): nat {
    |set i | 0 <= i < |calls| && calls[i].Judge? == judge|
  }

  lemma CallBudget(system: string, message: string, history: seq<HistoryTurn>,
                   first: Option<string>, verdict: Verdict, second: Option<string>)
    ensures var calls := Chat(system, message, history, first, verdict, second).calls;
      Count(calls, false) <= 2 && Count(calls, true) <= 1
  {
    var calls := Chat(system, message, history, first, verdict, second).calls;
    var generations := set i | 0 <= i < |calls| && calls[i].Judge? == false;
    var judgements := set i | 0 <= i < |calls| && calls[i].Judge? == true;
    assert judgements <= {1};
    assert generations <= {0, 2};
    assert |{0, 2}| == 2;
    SubsetCard(generations, {0, 2});
    SubsetCard(judgements, {1});
  }

  lemma SubsetCard(a: set<nat>, b: set<nat>)
    requires a <= b
    ensures |a| <= |b|
  {
    if a != {} {
      var x :| x in a;
      SubsetCard(a - {x}, b - {x});
    }
  }

  /** The regenerated reply is returned as it is: no second judgement, and
      the judge never sees it. */
  lemma RerunNeverJudged(system: string, message: string, history: seq<HistoryTurn>,
                         reply: string, feedback: string, retry: string)
    ensures var run := Chat(system, message, history, Some(reply), Judged(Evaluation(false, feedback)), Some(retry));
      run.reply == Returned(retry) && forall c :: c in run.calls && c.Judge? ==> c.reply == reply
  {
  }

  /** A judge that fails does not count as an acceptance: the turn raises even
      when the first reply was produced. */
  lemma JudgeFailureAborts(system: string, message: string, history: seq<HistoryTurn>,
                           reply: string, second: Option<string>)
    ensures Chat(system, message, history, Some(reply), JudgeFailed, second).reply.Raised?
    ensures Chat(system, message, history, Some(reply), JudgeFailed, second).reply != Returned(reply)
  {
  }
}
