/** The regex fallback of Gradio.py:
    `re.match(r"([A-Za-z ]+) (over|under) ([0-9]+\.?[0-9]*) (points|rebounds|assists|3 pointers)?", message, re.I)`.
    It is anchored at the start of the message and needs a space after the
    number even when no stat word follows; the stat word, when present, goes
    through `capitalize()`. */
module AnchoredParser {
  import opened Wrappers
  import opened Text
  import opened Lexemes
  import opened Scan
  import opened Intent
  import SearchParser

  /** After a name group ending at `e`: keyword tail, the number, then a space. */
  predicate AnchoredTail(m: string, e: nat) {
    && KeywordTail(m, e)
    && var q := NumberEnd(m, NumberStart(m, e));
       q < |m| && m[q] == ' '
  }

  /** The pattern matches at the start of `m` with name group `m[..e]`. */
  predicate ShapeFrom(m: string, e: nat) {
    0 < e <= |m| && (forall k :: 0 <= k < e ==> NameChar(m[k])) && AnchoredTail(m, e)
  }

  /** The anchored match is a match of the unanchored pattern at start 0. */
  lemma ShapeFromIsShapeAt(m: string, e: nat)
    requires ShapeFrom(m, e)
    ensures SearchParser.ShapeAt(m, 0, e)
  {
  }

  /** The end of the name group when the pattern matches. */
  function NameEnd(m: string): (r: Option<nat>)
    ensures r.Some? ==> ShapeFrom(m, r.value)
    ensures r.Some? ==> forall e: nat :: ShapeFrom(m, e) ==> e == r.value
    ensures r.None? ==> forall e: nat :: !ShapeFrom(m, e)
  {
    var hi := RunEnd(m, 0, NameChar);
    var tail := (e: nat) => AnchoredTail(m, e);
    var r := LastIn(tail, 0, hi);
    assert forall e: nat :: ShapeFrom(m, e) ==> e <= hi by {
      forall e: nat | ShapeFrom(m, e) ensures e <= hi { RunEndIsLongest(m, 0, e, NameChar); }
    }
    if r.Some? then
      assert ShapeFrom(m, r.value);
      assert forall e: nat :: ShapeFrom(m, e) ==> e == r.value by {
        forall e: nat | ShapeFrom(m, e) ensures e == r.value { NameEndUnique(m, 0, e, r.value); }
      }
      r
    else
      assert forall e: nat :: !ShapeFrom(m, e) by {
        forall e: nat ensures !ShapeFrom(m, e) {
          if 0 < e <= hi { assert !tail(e); }
        }
      }
      r
  }

  /** The alternatives of the optional stat group, in the order they are tried. */
  const StatWords: seq<string> := ["points", "rebounds", "assists", "3 pointers"]

  /** The optional stat group at `i`: the matched text as written in `m`, or
      `None` when no alternative matches. */
  function StatWordAt(m: string, i: nat): (r: Option<string>)
    ensures r.Some? ==> LowerStr(r.value) in StatWords && i + |r.value| <= |m| && r.value == m[i..i + |r.value|]
    ensures r.None? <==> forall w :: w in StatWords ==> !MatchesAt(m, i, w)
  {
    if MatchesAt(m, i, "points") then Some(m[i..i + 6])
    else if MatchesAt(m, i, "rebounds") then Some(m[i..i + 8])
    else if MatchesAt(m, i, "assists") then Some(m[i..i + 7])
    else if MatchesAt(m, i, "3 pointers") then Some(m[i..i + 10])
    else None
  }

  /** The stat reported for a match whose number ends at `q`. */
  function StatAfter(m: string, q: nat): string {
    match StatWordAt(m, q + 1)
    case Some(t) => Capitalize(t)
    case None => "Points"
  }

  /** `fallback_extract` of Gradio.py. */
  function FallbackExtract(m: string): Query {
    match NameEnd(m)
    case None => NoMatch
    case Some(e) =>
      var p := NumberStart(m, e);
      Query(Strip(m[..e]), StatAfter(m, NumberEnd(m, p)), NumberValue(m, p), KeywordAt(m, e + 1))
  }

  /** On a match the parser reports the stripped name, the capitalised stat word
      (or "Points" without one), the number and the lower-cased keyword. */
  lemma FallbackOnMatch(m: string, e: nat)
    requires ShapeFrom(m, e)
    ensures var q, p := FallbackExtract(m), NumberStart(m, e);
      && q.player == Strip(m[..e])
      && q.direction == LowerStr(m[e + 1..p - 1])
      && (q.direction == "over" || q.direction == "under")
      && q.line == NumberValue(m, p)
      && q.stat == match StatWordAt(m, NumberEnd(m, p) + 1)
                   case Some(t) => Capitalize(t)
                   case None => "Points"
  {
    var r := NameEnd(m);
    assert r == Some(e);
    KeywordText(m, e);
    var p := NumberStart(m, e);
    var q := FallbackExtract(m);
    assert q.player == Strip(m[..e]);
    assert q.direction == KeywordAt(m, e + 1);
    assert q.line == NumberValue(m, p);
    assert q.stat == StatAfter(m, NumberEnd(m, p));
  }

  /** Without a match at the start the parser returns the fixed defaults. */
  lemma FallbackWithoutMatch(m: string)
    requires forall e: nat :: !ShapeFrom(m, e)
    ensures FallbackExtract(m) == NoMatch
  {
  }

  /** Whenever the anchored parser matches, the unanchored parser of the other
      handlers reads the same player, line and direction from the message. */
  lemma AgreesWithSearch(m: string)
    requires NameEnd(m).Some?
    ensures var a, b := FallbackExtract(m), SearchParser.FallbackExtract(m);
      a.player == b.player && a.line == b.line && a.direction == b.direction
  {
    var e := NameEnd(m).value;
    SearchParser.FallbackOnMatch(m, 0, e);
  }
}
