/** The regex fallback of nba-analyzer.py, test2.py and test3.py:
    `re.search(r"([A-Za-z ]+) (over|under) ([0-9]+\.?[0-9]*)", message, re.I)`,
    reported as player = stripped name group, direction = lower-cased keyword,
    line = float of the number group, stat always "Points". */
module SearchParser {
  import opened Wrappers
  import opened Text
  import opened Lexemes
  import opened Scan
  import opened Intent

  /** The pattern matches at start `s` with name group `m[s..e]`. */
  predicate ShapeAt(m: string, s: nat, e: nat) {
    s < e <= |m| && (forall k :: s <= k < e ==> NameChar(m[k])) && KeywordTail(m, e)
  }

  /** The match a backtracking engine reports: the leftmost start and, at that
      start, the longest name group. */
  ghost predicate Chosen(m: string, s: nat, e: nat) {
    && ShapeAt(m, s, e)
    && (forall s': nat, e': nat :: s' < s ==> !ShapeAt(m, s', e'))
    && (forall e': nat :: e < e' ==> !ShapeAt(m, s, e'))
  }

  datatype Span = Span(start: nat, nameEnd: nat)

  /** The end of the name group when the pattern matches at `s`. */
  function NameEndAt(m: string, s: nat): (r: Option<nat>)
    requires s <= |m|
    ensures r.Some? ==> ShapeAt(m, s, r.value)
    ensures r.Some? ==> forall e: nat :: ShapeAt(m, s, e) ==> e == r.value
    ensures r.None? ==> forall e: nat :: !ShapeAt(m, s, e)
  {
    var hi := RunEnd(m, s, NameChar);
    var tail := (e: nat) => KeywordTail(m, e);
    var r := LastIn(tail, s, hi);
    assert forall e: nat :: ShapeAt(m, s, e) ==> e <= hi by {
      forall e: nat | ShapeAt(m, s, e) ensures e <= hi { RunEndIsLongest(m, s, e, NameChar); }
    }
    if r.Some? then
      assert ShapeAt(m, s, r.value);
      assert forall e: nat :: ShapeAt(m, s, e) ==> e == r.value by {
        forall e: nat | ShapeAt(m, s, e) ensures e == r.value { NameEndUnique(m, s, e, r.value); }
      }
      r
    else
      assert forall e: nat :: !ShapeAt(m, s, e) by {
        forall e: nat ensures !ShapeAt(m, s, e) {
          if s < e <= hi { assert !tail(e); }
        }
      }
      r
  }

  /** The first start at or after `s` where the pattern matches. */
  function SearchFrom(m: string, s: nat): (r: Option<Span>)
    requires s <= |m|
    ensures r.Some? ==> s <= r.value.start && ShapeAt(m, r.value.start, r.value.nameEnd)
    ensures r.Some? ==> forall e: nat :: ShapeAt(m, r.value.start, e) ==> e == r.value.nameEnd
    ensures r.Some? ==> forall s': nat, e': nat :: s <= s' < r.value.start ==> !ShapeAt(m, s', e')
    ensures r.None? ==> forall s': nat, e': nat :: s <= s' ==> !ShapeAt(m, s', e')
    decreases |m| - s
  {
    match NameEndAt(m, s)
    case Some(e) => Some(Span(s, e))
    case None =>
      if s == |m| then None
      else
        var r := SearchFrom(m, s + 1);
        NoShapeBefore(m, s, if r.Some? then r.value.start else |m|);
        r
  }

  /** No start in `[s, t)` matches once `s` does not and none after it before `t` does. */
  lemma NoShapeBefore(m: string, s: nat, t: nat)
    requires forall e: nat :: !ShapeAt(m, s, e)
    requires forall s': nat, e': nat :: s + 1 <= s' < t ==> !ShapeAt(m, s', e')
    ensures forall s': nat, e': nat :: s <= s' < t ==> !ShapeAt(m, s', e')
  {
  }

  /** `re.search`: try each start from the left, the first that matches wins. */
  function Search(m: string): (r: Option<Span>)
    ensures r.Some? ==> Chosen(m, r.value.start, r.value.nameEnd)
    ensures r.None? ==> forall s: nat, e: nat :: !ShapeAt(m, s, e)
  {
    SearchFrom(m, 0)
  }

  /** `fallback_extract` of nba-analyzer.py (also test2.py and test3.py). */
  function FallbackExtract(m: string): Query {
    match Search(m)
    case None => NoMatch
    case Some(sp) =>
      Query(Strip(m[sp.start..sp.nameEnd]), "Points",
            NumberValue(m, NumberStart(m, sp.nameEnd)), KeywordAt(m, sp.nameEnd + 1))
  }

  /** Wherever the shape first occurs, in any letter case, the parser reports
      its stripped name, its lower-cased keyword, its number and "Points". */
  lemma FallbackOnMatch(m: string, s: nat, e: nat)
    requires ShapeAt(m, s, e)
    requires forall s': nat, e': nat :: s' < s ==> !ShapeAt(m, s', e')
    ensures var q := FallbackExtract(m);
      && q.player == Strip(m[s..e])
      && q.direction == LowerStr(m[e + 1..NumberStart(m, e) - 1])
      && (q.direction == "over" || q.direction == "under")
      && q.line == NumberValue(m, NumberStart(m, e))
      && q.stat == "Points"
  {
    SearchFinds(m, s, e);
    ExtractAt(m, s, e);
  }

  /** What the parser reports once the search found the span `m[s..e]`. */
  lemma ExtractAt(m: string, s: nat, e: nat)
    requires s <= e && KeywordTail(m, e)
    requires Search(m) == Some(Span(s, e))
    ensures var q := FallbackExtract(m);
      && q.player == Strip(m[s..e])
      && q.direction == LowerStr(m[e + 1..NumberStart(m, e) - 1])
      && (q.direction == "over" || q.direction == "under")
      && q.line == NumberValue(m, NumberStart(m, e))
      && q.stat == "Points"
  {
    KeywordText(m, e);
    var q := FallbackExtract(m);
    assert q.player == Strip(m[s..e]);
    assert q.direction == KeywordAt(m, e + 1);
  }

  /** The search reports the first occurrence of the shape. */
  lemma SearchFinds(m: string, s: nat, e: nat)
    requires ShapeAt(m, s, e)
    requires forall s': nat, e': nat :: s' < s ==> !ShapeAt(m, s', e')
    ensures Search(m) == Some(Span(s, e))
  {
    var r := Search(m);
    assert r.Some?;
    assert r.value.start == s;
    NameEndUnique(m, s, e, r.value.nameEnd);
  }

  /** Without the shape anywhere the parser returns the fixed defaults. */
  lemma FallbackWithoutMatch(m: string)
    requires forall s: nat, e: nat :: !ShapeAt(m, s, e)
    ensures FallbackExtract(m) == NoMatch
  {
  }
}
