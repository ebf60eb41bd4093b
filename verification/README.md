# Agentic-Court decision procedures, in Dafny

Agentic-Court is a set of chat front ends that answer NBA over/under questions
("LeBron over 25.5 points"). Each script runs the same kind of turn:

1. It extracts a query (player, stat, line, direction) with a model call. A
   regex fallback takes over when that call's answer is unusable.
2. It fetches the player's recent games from the stats API, with retries.
3. It asks a model for an analysis, with a fixed or computed fallback text.

`Chat_bot.py` is different: it answers questions from a PDF profile. It
evaluates each reply once with a judge model and regenerates it once on
rejection.

This project models those decision procedures as pure functions over
immutable datatypes and proves what they promise. Every external service is
an oracle parameter:

- the chat-completion replies (`Option<string>`, where `None` means the call raised)
- `json.loads` (`string -> Option<Parsed>`)
- the player directory (`string -> seq<Candidate>`)
- the outcome of each game-log attempt (`nat -> LogReply`)
- the schedule and splits endpoints (`Feeds`)
- the judge's verdict
- the pandas `to_string` rendering and float formatting (`Show`)

`time.sleep` is recorded as an event in a trace rather than performed. A
Python exception that escapes a handler is the value `Raised(<class name>)`.

Modules, following the scripts:

- `Text`, `Decimal`, `Scan`, `Lexemes`: ASCII character classes; the `str`
  methods the scripts use; decimal values of digit strings; bounded
  first/last search; the pieces of the regex (name run, keyword, number).
- `SearchParser`: `re.search(r"([A-Za-z ]+) (over|under) ([0-9]+\.?[0-9]*)", m, re.I)`
  and `fallback_extract` of nba-analyzer.py, test2.py and test3.py. It finds
  the leftmost match and, at that start, the greedy name group.
- `AnchoredParser`: the anchored pattern of Gradio.py, which has an optional stat word.
- `Extraction`: fence stripping, the reply cleanup, and the three precedence rules.
- `GameLog`, `Matchup`, `Fetch`: the five-game window, the current team, the
  matchup context, and the four `get_*` fetchers. nba-analyzer.py and
  test2.py retry the game-log request. Gradio.py makes a single request.
  test3.py makes none and returns fixed mock rows.
- `OverUnder`: Gradio.py's mean-versus-line verdict.
- `Turns`, `AnalyzerApp`, `GradioApp`, `RecentApp`: `chat_handler` and
  `respond` of each script. test2.py and test3.py share one handler.
- `Assurance`: Chat_bot.py's history normalisation and its
  generate/judge/rerun turn.
- `Scenarios`: worked examples on fixed messages and on test3.py's mock rows.

Some behaviours of the code are easy to misread. The model follows the code as written:

- The direction tokens are "over" and "under". Neither the model's dict nor
  Gradio.py's verdict normalises them: any direction other than the exact
  string "over" is judged as "under".
- Extraction can raise. A truthy JSON value that is not an object has no
  `.get`, so it raises `AttributeError`. In Gradio.py, a dict without "stat"
  or "line" raises `KeyError`.
- Only Gradio.py applies the minimum player length. nba-analyzer.py uses any
  non-empty dict, even one whose player is empty. test2.py and test3.py
  reject only a missing or empty player.
- Only Gradio.py's pattern has the optional stat words. The other three
  fallbacks always report "Points".
- Take the message "Steph Curry over 4.5 3 pointers" in Gradio.py with both
  model calls failing (extraction and analysis), on rows equal to test3.py's
  mock rows. The regex fallback reports the stat "3 pointers", and that key
  is missing from the column map, so points are averaged (26.2) and the reply
  is "likely to go OVER". Averaging the made threes (2.4) would give "might
  go UNDER". When the extraction call succeeds with the stat "3 Pointers",
  the made threes are averaged. For direction "over" the only sentences are
  "likely to go OVER" and "might go UNDER". See
  `Scenarios.MockThreesVerdict`, `OverUnder.ParsedStatNeverThrees` and
  `GradioApp.OfflineVerdict`.
- A failing judge call in Chat_bot.py is not caught, so the turn raises.
  The first reply is not treated as rejected, and it is not returned.
- The window is `head(5)`: the first five rows in the order the endpoint
  returns them. It is not re-sorted.

## Model

| member | source | states |
|---|---|---|
| Text.Capitalize | Gradio.py:49 | `capitalize()` upper-cases the first character and lower-cases every other one, keeping the length |
| Text.Title | test3.py:37 | `title()` upper-cases exactly the characters that start a word and lower-cases the rest |
| Text.TitleIdempotent | test3.py:37 | title-casing an already title-cased name changes nothing |
| Text.StripIsInnerSlice | nba-analyzer.py:151 | `strip()` returns a contiguous slice of its input with no whitespace at either end |
| Text.StripIdempotent | nba-analyzer.py:151 | stripping twice is stripping once |
| Text.StripKeeps | nba-analyzer.py:151 | text with no whitespace at either end is left as it is |
| Text.FirstField | nba-analyzer.py:116 | `split(" ")[0]` is a prefix without spaces, followed by a space when shorter than the text |
| Decimal.DecimalValue | nba-analyzer.py:153 | `float("<whole>.<frac>")` is the integer the digits spell with the point left out, divided by ten once per fractional digit; the whole part is its floor |
| Decimal.PointText | nba-analyzer.py:153 | dropping the point from "<whole>.<frac>" leaves the digits in order, and exactly the fraction's digits follow the point |
| Lexemes.KeywordAt | nba-analyzer.py:149 | the `(over\|under)` group matches in any letter case and is reported lower-cased, or not at all |
| Lexemes.NumberValueText | nba-analyzer.py:149-153 | the line is `float` of exactly the text the number group matched: all its digits as one integer, over a power of ten per digit after the point |
| Lexemes.NameEndUnique | nba-analyzer.py:149 | for a fixed start at most one end of the name group lets the rest of the pattern match, so backtracking cannot pick a different split |
| SearchParser.NameEndAt | nba-analyzer.py:149 | the end of the name group at a start is found exactly when the pattern matches there |
| SearchParser.SearchFrom | nba-analyzer.py:149 | the first start at or after a position where the pattern matches; none before it matches, and no match means none from there on |
| SearchParser.SearchFinds | nba-analyzer.py:149 | the search reports exactly the first occurrence of the shape |
| SearchParser.Search | nba-analyzer.py:149 | the match is the leftmost one, with the longest name group at that start; no match means the shape occurs nowhere |
| SearchParser.FallbackOnMatch | nba-analyzer.py:148-155 | wherever the shape first occurs, in any case: stripped name, lower-cased keyword that is "over" or "under", the decimal line, stat "Points" |
| SearchParser.FallbackWithoutMatch | nba-analyzer.py:149-154 | without a match: player "", stat "Points", line 20.5, direction "over" |
| AnchoredParser.NameEnd | Gradio.py:40-44 | the anchored pattern (a space after the number is required) matches from the start exactly when an end is returned, and that end is unique |
| AnchoredParser.ShapeFromIsShapeAt | Gradio.py:40-44 | an anchored match is also a match of the unanchored pattern at position 0 |
| AnchoredParser.StatWordAt | Gradio.py:41 | the optional stat group matches one of the four stat words in any case, keeping the message's own letters, or none of them |
| AnchoredParser.FallbackOnMatch | Gradio.py:45-50 | on a match: stripped name, lower-cased keyword, the decimal line, and the capitalised stat word or "Points" without one |
| AnchoredParser.FallbackWithoutMatch | Gradio.py:51 | without a match at the start: player "", stat "Points", line 20.5, direction "over" |
| AnchoredParser.AgreesWithSearch | Gradio.py:40-50 | whenever the anchored pattern matches, the unanchored one reads the same player, line and direction |
| Extraction.RemoveFences | test2.py:86 | the substitution only deletes: its result is a subsequence of its input |
| Extraction.RemoveFencesKeeps | test2.py:86 | the fence substitution leaves text without fences unchanged |
| Extraction.RemoveClosingFence | test2.py:86 | a closing newline-and-fence after fence-free text is removed and nothing else is |
| Extraction.CleanReply | test2.py:83-86 | content that does not start with a fence reaches the parse only stripped, and the cleaned content is always stripped |
| Extraction.UnwrapJsonFence | test2.py:83-88 | a "```json\n…\n```" wrapper is removed and the body is parsed stripped |
| Extraction.ParseReply | test2.py:73-91 | a failed call yields `None`; a reply that does not start with a fence is parsed stripped; what is parsed is always stripped text |
| Extraction.ParseFencedReply | test2.py:83-88 | a reply fenced as "```json\n…\n```" is parsed as its stripped body |
| Extraction.ParseRawReply | Gradio.py:54-77 | a failed call yields `None`; the result agrees with the other scripts' extraction exactly on replies their cleanup leaves alone; a fenced reply reaches the parse with its fences |
| Extraction.FallbackRulesNest | nba-analyzer.py:160 | the analyzer's fallback condition implies test2/test3's, which implies Gradio's |
| Extraction.FallbackRulesDiffer | test2.py:116 | the nesting is strict: an empty player is kept by the analyzer only, and a one-letter player is dropped by Gradio only |
| Extraction.WithDefaults | nba-analyzer.py:161-164 | each missing key becomes "Unknown", "Points", 20.5 or "over", and each present key keeps its value |
| Extraction.AnalyzerQuery | nba-analyzer.py:160-164 | the model's dict is used whenever it is non-empty, even with an empty player; the fallback is used on `None` or a falsy value; a truthy non-dict raises |
| Extraction.NamedQuery | test2.py:116-122 | the fallback is used for a falsy value or a missing or empty player; otherwise the dict with defaults; a truthy non-dict raises |
| Extraction.NamedQueryPlayer | test3.py:83-86 | the "Unknown" default is never reached: the player is the fallback's or the model's non-empty one |
| Extraction.GradioQuery | Gradio.py:84-91 | the fallback is used below two characters of player; a non-dict raises `AttributeError` and a dict without "stat" or "line" raises `KeyError`; a used dict has a player of at least two characters |
| GameLog.Head | nba-analyzer.py:114 | `head(n)` is the first min(n, length) rows in source order |
| GameLog.Select | test2.py:60-62 | selecting the eight columns keeps every row and its order |
| GameLog.SelectHead | test2.py:60-62 | selecting columns then taking five rows equals taking five rows then selecting columns |
| GameLog.CurrentTeam | nba-analyzer.py:116-117 | the team is the first row's MATCHUP before its first space |
| Matchup.Opponent | nba-analyzer.py:57 | the visitor when the player's team is at home, otherwise the home team |
| Matchup.LongestGroupValue | nba-analyzer.py:73 | the length of the longest GROUP_VALUE: no value is longer and one value has it |
| Matchup.FirstOpponentSplits | nba-analyzer.py:69-75 | the first frame with GROUP_VALUE and GP whose longest group value has length 3, and no earlier frame qualifies; none when no frame does |
| Matchup.RowsFor | nba-analyzer.py:80 | a row is kept exactly when its GROUP_VALUE equals the opponent |
| Matchup.RowsForAppend | nba-analyzer.py:80 | the filter keeps the rows' relative order |
| Matchup.MatchupContext | nba-analyzer.py:44-86 | no next game or a failing call gives ("Unknown", empty); no qualifying table gives (opponent, empty); otherwise exactly the rows of the first qualifying table that name the opponent |
| Matchup.CareerAgainst | nba-analyzer.py:173-176 | career rows are shown exactly when the frame is non-empty and has all of GP, PTS, REB, AST and FG_PCT; otherwise "No career data vs <opp>." |
| Matchup.DegradesToNoCareerData | nba-analyzer.py:84-86 | every failure of the matchup lookup ends as the "No career data" text, never as an error |
| Fetch.PullLog | nba-analyzer.py:90-126 | the retry loop stops at the first frame or after the last allowed attempt: every earlier request failed, and a failure is reported only when the attempts ran out |
| Fetch.AnalyzerAttempts | nba-analyzer.py:90-126 | at most `retries` requests; the trace is a backoff sleep then a request per attempt; failure reports the last error after all attempts failed; success follows failures only; not found returns at once |
| Fetch.ScheduleShape | nba-analyzer.py:100 | the trace alternates sleep and request, and the sleep before attempt i lasts 3i+1 seconds |
| Fetch.BackoffIncreases | nba-analyzer.py:100 | the backoff strictly increases from attempt to attempt |
| Fetch.NotFoundAtOnce | nba-analyzer.py:93-95 | a directory miss returns "Could not find '<name>'." with no sleep and no request |
| Fetch.SucceedsAfterFailures | nba-analyzer.py:90-126 | k−1 failures and then an answer, within the budget, give a result after exactly k requests |
| Fetch.AllAttemptsFail | nba-analyzer.py:123-126 | all attempts failing gives "Error: <last message>" after exactly `retries` requests |
| Fetch.Test2Attempts | test2.py:35-70 | at most `retries` requests; a 1 s sleep before each request and a 3 s pause after each failure but the last; not found at once; an empty season is a success with no rows; three failures give the blocked message; a directory miss makes no request and records no event |
| Fetch.PauseScheduleShape | test2.py:46-68 | each failed attempt is three events, and every request is for one of the attempts counted |
| Fetch.Test2LastGames | test2.py:35-70 | at most `retries` requests, none past the last attempt and fewer than three events per attempt; a directory miss is reported before any event; the blocked message only after every attempt failed; a fetched frame is the first match's, at most five rows |
| Fetch.MessagesDiffer | test2.py:40 | the not-found message is never the blocked message, so the two failures stay distinguishable |
| Fetch.EmptySeasonIsNotFailure | test2.py:57-58 | an empty log on the first attempt is a success with no rows after one request |
| Fetch.GradioLastGames | Gradio.py:20-33 | a message in place of the frame exactly for not found, an API error or an empty season, with those three texts; otherwise the full name and the first one to five rows |
| Fetch.MockLastGames | test3.py:22-37 | never fails; the title-cased name and exactly the five fixed mock rows |
| Fetch.MockIgnoresInputs | test3.py:22-37 | the rows depend on neither the name nor `retries`, and the name does not depend on `retries` |
| OverUnder.StatColumn | Gradio.py:114 | keys are matched exactly; only "Rebounds", "Assists" and "3 Pointers" select other columns than points |
| OverUnder.MeanBounds | Gradio.py:115 | the mean lies between the column's smallest and largest value |
| OverUnder.Verdict | Gradio.py:116-125 | the "over" sentences are chosen exactly for direction "over" |
| OverUnder.VerdictFollowsAverage | Gradio.py:116-125 | the side named is the side of the line the average is on; "likely" exactly when the average is strictly on the asked side |
| OverUnder.TieGoesAgainstAsked | Gradio.py:117-124 | an average equal to the line always gets the "might" sentence for the side opposite to the one asked |
| OverUnder.ParsedStatNeverThrees | Gradio.py:49 | the regex path's stat never selects FG3M, because capitalising "3 pointers" does not give "3 Pointers" |
| OverUnder.CapitalizedIsNotKey | Gradio.py:49 | no capitalised text equals "3 Pointers" |
| Turns.Respond | test3.py:123-131 | exactly two entries are appended, user then assistant, after the kept history; a missing history starts empty; an exception escapes |
| AnalyzerApp.AnalyzerAnswer | nba-analyzer.py:166-195 | a warning for not found and for failures; `KeyError` for an empty season; otherwise one analysis call on one to five recent rows and the career text, with "AI analysis unavailable." on its failure |
| AnalyzerApp.AnalyzerTurn | nba-analyzer.py:159-195 | the handler raises only `AttributeError`, before any fetch, or `KeyError`; at most four game-log requests; an analysis call always ends in a reply |
| AnalyzerApp.AnalyzerRespond | nba-analyzer.py:199-215 | a handler exception escapes and is one of those two; otherwise the history (empty when missing) gains exactly the user message and then the reply |
| AnalyzerApp.FallbackWhenExtractionFails | nba-analyzer.py:160 | without a model reply, the player looked up is the search fallback's |
| AnalyzerApp.UnknownPlayerWarns | nba-analyzer.py:168-169 | an unknown name gives "⚠️ Could not find '<name>'." with no sleep, request or analysis call |
| AnalyzerApp.EmptySeasonRaises | nba-analyzer.py:171 | an empty season makes the handler raise `KeyError` after one request |
| AnalyzerApp.BoundedBackoff | nba-analyzer.py:90-100 | a turn makes at most four game-log requests, preceded by sleeps of 1, 4, 7 and 10 seconds |
| AnalyzerApp.AllFailuresWarn | nba-analyzer.py:123-126 | four failed game-log requests give "⚠️ Error: <last message>" and no analysis call |
| GradioApp.AverageAnalysis | Gradio.py:112-125 | the fallback sentence names the player and the verdict on the column mean, and ends with the average |
| GradioApp.GradioAnswer | Gradio.py:94-127 | every fetch problem raises `AttributeError` because the `is None` test never catches the message; otherwise one analysis call, its reply or the average verdict first, then the data block |
| GradioApp.GradioTurn | Gradio.py:80-127 | the handler raises only `AttributeError` or `KeyError`; at most one request; the analyst is asked exactly when the turn replies; a player found with a non-empty frame always gets a reply |
| GradioApp.GradioRespond | Gradio.py:130-135 | the handler runs first and its exception escapes; otherwise the history (empty when missing) gains exactly the user message and then the reply |
| GradioApp.FetchProblemsRaise | Gradio.py:94-102 | not found, an API error and an empty season all raise instead of showing their message |
| GradioApp.OfflineVerdict | Gradio.py:112-125 | with the regex query and a failed analysis call, the reply opens with the verdict on the points mean |
| RecentApp.RecentAnswer | test2.py:124-153 | "⚠️ <message>" for a fetch message; the "no logs yet" warning for an empty season; otherwise one analysis call, its reply or the fixed text first, and the fenced data block last |
| RecentApp.RetryTurn | test2.py:113-153 | the handler raises only `AttributeError`, before any event; requests only for attempts 0 to 2 and at most eight events; an analysis call always ends in a reply |
| RecentApp.MockTurn | test3.py:80-120 | no sleep and no request; it raises exactly when the extracted value is not a dict, and otherwise always asks the analyst about the title-cased name and the five mock rows |
| RecentApp.RetryRespond | test2.py:156-164 | the handler's `AttributeError` escapes; otherwise the history (empty when missing) gains exactly the user message and then the reply |
| RecentApp.MockRespond | test3.py:123-131 | it fails exactly when the extracted value is not a dict; otherwise the history gains exactly the user message and then the reply |
| RecentApp.EmptySeasonWarns | test2.py:129-130 | a found player with an empty season gets "⚠️ Found <name>, but no logs yet for 2025-26." |
| RecentApp.BlockedWarns | test2.py:65-70 | three failures give the blocked warning after the trace 1 s, request, 3 s, 1 s, request, 3 s, 1 s, request |
| RecentApp.MockAlwaysAnalyses | test3.py:93-97 | test3.py never reaches a warning: it always asks for an analysis of the five mock rows and ends with the data block |
| Assurance.Normalize | Chat_bot.py:77-84 | the output has one message per entry plus one more per pair, that is #dicts + 2·#pairs |
| Assurance.NormalizeAppend | Chat_bot.py:78-84 | normalisation works entry by entry, so order is preserved |
| Assurance.DictsKept | Chat_bot.py:80-81 | a history of dicts only is passed on unchanged |
| Assurance.FormatHistory | Chat_bot.py:77-84 | the loop builds exactly the normalised history |
| Assurance.ModelInput | Chat_bot.py:86 | the system prompt first, then the history, then the user message last |
| Assurance.RerunPrompt | Chat_bot.py:69 | the original system prompt is kept as a prefix and the feedback ends the new one |
| Assurance.Chat | Chat_bot.py:75-96 | the first call generates from the normalised input; the judge is always the second call, on the first reply; an accepted reply is returned unchanged; a rejection leads to one regeneration with the feedback prompt, returned as it is; a judge failure raises |
| Assurance.CallBudget | Chat_bot.py:88-96 | a turn makes at most two generation calls and one judge call |
| Assurance.RerunNeverJudged | Chat_bot.py:95-96 | the regenerated reply is returned and the judge never sees it |
| Assurance.JudgeFailureAborts | Chat_bot.py:55-66 | a failing judge call makes the turn raise, and the first reply is not returned |
| Scenarios.SearchReadsBet | nba-analyzer.py:148-155 | "LeBron over 25.5 points" is read as LeBron, Points, 25.5, over |
| Scenarios.AnchoredReadsBet | Gradio.py:36-50 | Gradio.py's pattern reads the same message the same way |
| Scenarios.AnchoredNeedsTrailingSpace | Gradio.py:40-44 | "LeBron over 25.5" gives Gradio.py no player, while the search pattern still finds LeBron |
| Scenarios.MockSums | test3.py:30-33 | the mock rows' points add up to 131 and their made threes to 12 |
| Scenarios.MockMeans | test3.py:30-33 | the mock rows average 26.2 points and 2.4 made threes |
| Scenarios.MockThreesVerdict | Gradio.py:114-120 | on the mock rows, "over 4.5 3 Pointers" would be "might go UNDER", but the parser's "3 pointers" is judged on points as "likely to go OVER" |

## Left out

- Gradio UI construction and launch, `.env` and API-key loading, `sys.exit`, and console `print`s: plumbing with no decisions.
- Chat_bot.py's PDF loading and the prompt texts: the system prompt is a parameter.
- Data_retrival.py and mytest.py: a one-shot download with PDF layout, and an interactive loop around a model call. Neither has decision logic.
- The model services, `json.loads` and the stats endpoints are oracles. The model does not say what they answer.
- pandas rendering (`to_string`), `str(float)` and `:.1f` formatting are opaque functions. Prompts are records of the facts put into them, not their text.
- Letter case and whitespace are ASCII only. Python's Unicode case mappings and the Unicode whitespace that `strip()` removes are not modelled.
- Python floats are reals: binary rounding of the line and of the mean is not modelled.
- JSON values of other types in the four keys: the line is a number, and the other three keys are strings. Comparisons between a string line and a float mean would raise and are not modelled.
- A successful model call whose content is `None` is not modelled: replies are strings.
- Columns of the game log other than the eight selected ones appear only as opaque extra fields. An endpoint frame that lacks a selected column is not modelled.
- Fetch.AnalyzerAttempts: the directory lookup and the row selection are assumed not to raise inside the retry loop. Only the game-log request can fail.
- Fetch.AnalyzerAttempts: the two matchup requests (`PlayerNextNGames` and `PlayerDashboardByGeneralSplits`) are the `Feeds` oracle. They are not recorded in the event trace, so a successful turn makes up to two stats requests beyond the game-log requests counted there.
- Fetch.Test2Attempts: the directory lookup inside the `try` is assumed not to raise. If it did, the attempt would be retried and could end as the blocked message.
- Fetch.GradioLastGames: the directory lookup outside the `try` is assumed not to raise. If it did, the exception would escape `chat_handler`.
- Turns.Respond: the cleared input box (`""`) that `respond` returns alongside the history is left out of the result. So is the order of the pair, which Gradio.py returns the other way round.
- AnalyzerApp.AnalyzerAnswer: the `'Error'` substitute for an empty fetch message is not modelled, since both fetch messages are non-empty.
- Assurance.Chat: the exception raised by a failing model call is named generically ("APIError"). The client library's exception classes are not modelled.
