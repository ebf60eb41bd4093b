/** The primary, model-based extraction path and the rule that picks it or the
    regex fallback. The chat-completion reply and `json.loads` are oracles: the
    reply is `Some(text)` or `None` when the call raised, and `parse` returns
    `None` when `json.loads` raises. A parsed JSON object is modelled by the
    four keys the handlers read, each present or absent, plus a count of any
    other keys (they only matter for the truthiness of the dict). */
module Extraction {
  import opened Wrappers
  import opened Text
  import opened Intent
  import SearchParser
  import AnchoredParser

  datatype Details = Details(
    player: Option<string>,
    stat: Option<string>,
    line: Option<real>,
    direction: Option<string>,
    otherKeys: nat)

  /** What `json.loads` returned: an object, or some other JSON value of which
      only its truthiness matters. */
  datatype Parsed = Object(details: Details) | NonObject(truthy: bool)

  predicate IsEmptyDict(d: Details) {
    d.player.None? && d.stat.None? && d.line.None? && d.direction.None? && d.otherKeys == 0
  }

  /** Python truthiness of the parsed value: a dict is true when it has a key. */
  predicate Truthy(p: Parsed) {
    match p
    case Object(d) => !IsEmptyDict(d)
    case NonObject(t) => t
  }

  // ----- code fences -----

  /** Three backticks start at `i`. */
  predicate FenceAt(s: string, i: nat) {
    i + 3 <= |s| && s[i] == '`' && s[i + 1] == '`' && s[i + 2] == '`'
  }

  predicate NoFence(s: string) {
    forall i: nat :: i < |s| ==> !FenceAt(s, i)
  }

  /** `r` is `s` with some characters deleted and the rest kept in order. */
  predicate SubsequenceOf(r: string, s: string)
    decreases |s|
  {
    |r| == 0 || (|s| > 0 && ((r[0] == s[0] && SubsequenceOf(r[1..], s[1..])) || SubsequenceOf(r, s[1..])))
  }

  /** Deleting a prefix of `s` more keeps a subsequence a subsequence. */
  lemma {:induction false} SubsequenceOfSuffix(r: string, s: string, k: nat)
    requires k <= |s| && SubsequenceOf(r, s[k..])
    ensures SubsequenceOf(r, s)
    decreases k
  {
    if k > 0 && |r| > 0 {
      assert s[k - 1..][1..] == s[k..];
      SubsequenceOfSuffix(r, s, k - 1);
    }
  }

  /** `re.sub(r"```(?:json)?\n?|\n?```", "", s)`: scanning left to right, each
      fence is removed together with a directly following "json" and newline,
      and each newline directly followed by a fence is removed with it. Only
      deletions happen: what is left is a subsequence of `s`. */
  function RemoveFences(s: string): (r: string)
    ensures SubsequenceOf(r, s)
    decreases |s|
  {
    if |s| == 0 then ""
    else if FenceAt(s, 0) then
      var t := s[3..];
      var t := if StartsWith(t, "json") then t[4..] else t;
      var t := if StartsWith(t, "\n") then t[1..] else t;
      assert t == s[|s| - |t|..];
      SubsequenceOfSuffix(RemoveFences(t), s, |s| - |t|);
      RemoveFences(t)
    else if s[0] == '\n' && FenceAt(s, 1) then
      SubsequenceOfSuffix(RemoveFences(s[4..]), s, 4);
      RemoveFences(s[4..])
    else
      var r := [s[0]] + RemoveFences(s[1..]);
      assert r[0] == s[0] && r[1..] == RemoveFences(s[1..]);
      r
  }

  /** Text without fences is left alone. */
  lemma {:induction false} RemoveFencesKeeps(s: string)
    requires NoFence(s)
    ensures RemoveFences(s) == s
  {
    if |s| > 0 {
      assert !FenceAt(s, 0) && !FenceAt(s, 1);
      assert NoFence(s[1..]) by {
        forall i: nat | i < |s[1..]| ensures !FenceAt(s[1..], i) { assert !FenceAt(s, i + 1); }
      }
      RemoveFencesKeeps(s[1..]);
    }
  }

  /** A closing "\n```" after fence-free text is removed and nothing else. */
  lemma {:induction false} RemoveClosingFence(b: string)
    requires NoFence(b)
    ensures RemoveFences(b + "\n```") == b
  {
    var s := b + "\n```";
    if |b| == 0 {
      assert s == "\n```";
      assert s[4..] == "";
    } else {
      assert !FenceAt(s, 0) by {
        if |b| >= 3 { assert !FenceAt(b, 0); } else { assert s[|b|] == '\n'; }
      }
      assert !FenceAt(s, 1) by {
        if |b| >= 4 { assert !FenceAt(b, 1); } else { assert s[|b|] == '\n'; }
      }
      assert NoFence(b[1..]) by {
        forall i: nat | i < |b[1..]| ensures !FenceAt(b[1..], i) { assert !FenceAt(b, i + 1); }
      }
      assert s[1..] == b[1..] + "\n```";
      RemoveClosingFence(b[1..]);
    }
  }

  /** The cleanup applied to the reply before `json.loads` (nba-analyzer.py,
      test2.py, test3.py): strip it, and when it starts with a fence remove
      the fences and strip again. Either way the result is stripped. */
  function CleanReply(content: string): (r: string)
    ensures !StartsWith(Strip(content), "```") ==> r == Strip(content)
    ensures Strip(r) == r
  {
    var c := Strip(content);
    StripIdempotent(content);
    StripIdempotent(RemoveFences(c));
    if StartsWith(c, "```") then Strip(RemoveFences(c)) else c
  }

  /** A reply wrapped as "```json\n…\n```" is unwrapped to its stripped body. */
  lemma UnwrapJsonFence(body: string)
    requires NoFence(body)
    ensures CleanReply("```json\n" + body + "\n```") == Strip(body)
  {
    var w := "```json\n" + body + "\n```";
    StripKeeps(w);
    assert StartsWith(w, "```");
    assert FenceAt(w, 0);
    assert w[3..][..4] == "json";
    assert w[3..][4..][..1] == "\n";
    assert w[3..][4..][1..] == body + "\n```";
    RemoveClosingFence(body);
  }

  /** `extract_details_with_ai` of nba-analyzer.py, test2.py and test3.py: any
      failure of the call, of the reply or of the parse yields `None`; a reply
      that does not start with a fence is parsed stripped, and whatever is
      parsed is stripped text. */
  function ParseReply(reply: Option<string>, parse: string -> Option<Parsed>): (r: Option<Parsed>)
    ensures reply.None? ==> r.None?
    ensures reply.Some? && !StartsWith(Strip(reply.value), "```") ==> r == parse(Strip(reply.value))
    ensures reply.Some? ==> exists t :: Strip(t) == t && r == parse(t)
    ensures reply.Some? ==> r == parse(CleanReply(reply.value))
  {
    match reply
    case None => None
    case Some(text) => parse(CleanReply(text))
  }

  /** A reply fenced as "```json\n…\n```" is parsed as its stripped body. */
  lemma ParseFencedReply(body: string, parse: string -> Option<Parsed>)
    requires NoFence(body)
    ensures ParseReply(Some("```json\n" + body + "\n```"), parse) == parse(Strip(body))
  {
    UnwrapJsonFence(body);
  }

  /** `extract_details_with_ai` of Gradio.py: the raw reply goes to `json.loads`,
      so it agrees with the other files' `extract_details_with_ai` exactly on
      the replies their cleanup leaves alone, and a fenced reply reaches
      `json.loads` with its fences. */
  function ParseRawReply(reply: Option<string>, parse: string -> Option<Parsed>): (r: Option<Parsed>)
    ensures reply.None? ==> r.None?
    ensures reply.Some? && CleanReply(reply.value) == reply.value ==> r == ParseReply(reply, parse)
    ensures reply.Some? ==> r == parse(reply.value)
  {
    match reply
    case None => None
    case Some(text) => parse(text)
  }

  // ----- precedence -----

  /** nba-analyzer.py: `ai or fallback` falls back only on `None` or a falsy value. */
  predicate FallsBackOnFalsy(ai: Option<Parsed>) {
    ai.None? || !Truthy(ai.value)
  }

  /** test2.py and test3.py: also fall back when a dict's player is missing or empty. */
  predicate FallsBackOnNoPlayer(ai: Option<Parsed>) {
    FallsBackOnFalsy(ai) || (ai.value.Object? && ai.value.details.player.GetOr("") == "")
  }

  /** Gradio.py: also fall back when a dict's player is shorter than two characters. */
  predicate FallsBackOnShortPlayer(ai: Option<Parsed>) {
    FallsBackOnFalsy(ai) || (ai.value.Object? && |ai.value.details.player.GetOr("")| < 2)
  }

  /** The three fallback rules are nested: whatever makes the analyzer fall
      back makes test2/test3 fall back, and that makes Gradio fall back. */
  lemma FallbackRulesNest(ai: Option<Parsed>)
    ensures FallsBackOnFalsy(ai) ==> FallsBackOnNoPlayer(ai)
    ensures FallsBackOnNoPlayer(ai) ==> FallsBackOnShortPlayer(ai)
  {
  }

  /** The nesting is strict: an empty player string is used by the analyzer
      but not by test2/test3, and a one-letter player is used by test2/test3
      but not by Gradio. */
  lemma FallbackRulesDiffer()
    ensures var ai := Some(Object(Details(Some(""), None, None, None, 0)));
      !FallsBackOnFalsy(ai) && FallsBackOnNoPlayer(ai)
    ensures var ai := Some(Object(Details(Some("X"), None, None, None, 0)));
      !FallsBackOnNoPlayer(ai) && FallsBackOnShortPlayer(ai)
  {
  }

  /** `details.get(key, default)` for the four keys, with the defaults of
      nba-analyzer.py, test2.py and test3.py. */
  function WithDefaults(d: Details): (q: Query)
    ensures d.player.None? ==> q.player == "Unknown"
    ensures d.stat.None? ==> q.stat == "Points"
    ensures d.line.None? ==> q.line == 20.5
    ensures d.direction.None? ==> q.direction == "over"
    ensures d.player.Some? ==> q.player == d.player.value
    ensures d.stat.Some? ==> q.stat == d.stat.value
    ensures d.line.Some? ==> q.line == d.line.value
    ensures d.direction.Some? ==> q.direction == d.direction.value
  {
    Query(d.player.GetOr("Unknown"), d.stat.GetOr("Points"), d.line.GetOr(20.5), d.direction.GetOr("over"))
  }

  /** nba-analyzer.py `chat_handler`: the model's dict wins whenever it is
      non-empty, even with an empty or missing player; a truthy non-dict value
      has no `.get`. */
  function AnalyzerQuery(ai: Option<Parsed>, message: string): (r: Outcome<Query>)
    ensures FallsBackOnFalsy(ai) ==> r == Returned(SearchParser.FallbackExtract(message))
    ensures !FallsBackOnFalsy(ai) && ai.value.Object? ==> r == Returned(WithDefaults(ai.value.details))
    ensures r.Raised? <==> !FallsBackOnFalsy(ai) && ai.value.NonObject?
  {
    if FallsBackOnFalsy(ai) then Returned(SearchParser.FallbackExtract(message))
    else match ai.value
      case NonObject(_) => Raised("AttributeError")
      case Object(d) => Returned(WithDefaults(d))
  }

  /** test2.py and test3.py `chat_handler`: the model's dict is used only with
      a non-empty player; otherwise the regex fallback. */
  function NamedQuery(ai: Option<Parsed>, message: string): (r: Outcome<Query>)
    ensures FallsBackOnNoPlayer(ai) ==> r == Returned(SearchParser.FallbackExtract(message))
    ensures !FallsBackOnNoPlayer(ai) && ai.value.Object? ==> r == Returned(WithDefaults(ai.value.details))
    ensures r.Raised? <==> !FallsBackOnNoPlayer(ai) && ai.value.NonObject?
  {
    if FallsBackOnFalsy(ai) then Returned(SearchParser.FallbackExtract(message))
    else match ai.value
      case NonObject(_) => Raised("AttributeError")
      case Object(d) =>
        if d.player.GetOr("") == "" then Returned(SearchParser.FallbackExtract(message))
        else Returned(WithDefaults(d))
  }

  /** In test2.py and test3.py the "Unknown" player default is never reached:
      the player is the model's non-empty one or the regex fallback's. */
  lemma NamedQueryPlayer(ai: Option<Parsed>, message: string)
    requires NamedQuery(ai, message).Returned?
    ensures var p := NamedQuery(ai, message).value.player;
      p == SearchParser.FallbackExtract(message).player
      || (ai.Some? && ai.value.Object? && ai.value.details.player == Some(p) && p != "")
  {
  }

  /** Gradio.py `chat_handler`: the model's dict needs a player of at least two
      characters, and then its "stat" and "line" are read with `[]`, which
      raises `KeyError` when they are missing; "direction" defaults to "over". */
  function GradioQuery(ai: Option<Parsed>, message: string): (r: Outcome<Query>)
    ensures FallsBackOnShortPlayer(ai) ==> r == Returned(AnchoredParser.FallbackExtract(message))
    ensures r.Raised? <==> !FallsBackOnShortPlayer(ai) && (ai.value.NonObject? || ai.value.details.stat.None? || ai.value.details.line.None?)
    ensures r.Returned? && !FallsBackOnShortPlayer(ai) ==> r.value == WithDefaults(ai.value.details) && |r.value.player| >= 2
    ensures r.Raised? ==> r.exception == (if ai.value.NonObject? then "AttributeError" else "KeyError")
  {
    if FallsBackOnFalsy(ai) then Returned(AnchoredParser.FallbackExtract(message))
    else match ai.value
      case NonObject(_) => Raised("AttributeError")
      case Object(d) =>
        if |d.player.GetOr("")| < 2 then Returned(AnchoredParser.FallbackExtract(message))
        else if d.stat.None? || d.line.None? then Raised("KeyError")
        else Returned(Query(d.player.value, d.stat.value, d.line.value, d.direction.GetOr("over")))
  }
}
