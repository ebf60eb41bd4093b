/** The pieces shared by the two fallback patterns
    `([A-Za-z ]+) (over|under) ([0-9]+\.?[0-9]*)` (nba-analyzer.py, test2.py,
    test3.py) and its anchored variant with a trailing stat word (Gradio.py),
    both compiled with `re.I`. */
module Lexemes {
  import opened Text
  import opened Decimal

  /** The class `[A-Za-z ]` of the name group. */
  predicate NameChar(c: char) { IsLetter(c) || c == ' ' }

  /** The end of the longest run of `p`-characters of `m` starting at `i`. */
  function RunEnd(m: string, i: nat, p: char -> bool): (r: nat)
    requires i <= |m|
    ensures i <= r <= |m|
    ensures forall k :: i <= k < r ==> p(m[k])
    ensures r == |m| || !p(m[r])
    decreases |m| - i
  {
    if i < |m| && p(m[i]) then RunEnd(m, i + 1, p) else i
  }

  /** Any run of `p`-characters from `i` ends no later than `RunEnd`. */
  lemma RunEndIsLongest(m: string, i: nat, e: nat, p: char -> bool)
    requires i <= e <= |m|
    requires forall k :: i <= k < e ==> p(m[k])
    ensures e <= RunEnd(m, i, p)
  {
  }

  /** The lower-case word `w` occurs at `i` of `m`, ignoring case. */
  predicate MatchesAt(m: string, i: nat, w: string) {
    i + |w| <= |m| && LowerStr(m[i..i + |w|]) == w
  }

  /** The keyword group `(over|under)` at `i`, lower-cased, or "" when neither matches. */
  function KeywordAt(m: string, i: nat): (kw: string)
    ensures kw == "over" || kw == "under" || kw == ""
    ensures kw != "" ==> MatchesAt(m, i, kw)
    ensures kw == "" <==> !MatchesAt(m, i, "over") && !MatchesAt(m, i, "under")
  {
    if MatchesAt(m, i, "over") then "over"
    else if MatchesAt(m, i, "under") then "under"
    else ""
  }

  /** A keyword is made of letters, so the name class covers it. */
  lemma KeywordIsNameText(m: string, i: nat)
    requires KeywordAt(m, i) != ""
    ensures forall k :: i <= k < i + |KeywordAt(m, i)| ==> NameChar(m[k])
  {
    var kw := KeywordAt(m, i);
    forall k | i <= k < i + |kw|
      ensures NameChar(m[k])
    {
      assert Lower(m[k]) == LowerStr(m[i..i + |kw|])[k - i] == kw[k - i];
    }
  }

  /** What must follow a name group ending at `e`: a space, a keyword, a space and a digit. */
  predicate KeywordTail(m: string, e: nat) {
    var kw := KeywordAt(m, e + 1);
    && e < |m| && m[e] == ' ' && kw != ""
    && e + 2 + |kw| < |m| && m[e + 1 + |kw|] == ' ' && IsDigit(m[e + 2 + |kw|])
  }

  /** Where the number group starts after a name group ending at `e`. */
  function NumberStart(m: string, e: nat): nat {
    e + 2 + |KeywordAt(m, e + 1)|
  }

  /** The greedy end of `[0-9]+\.?[0-9]*` from `p`: all digits, then a point
      and all digits after it if there is a point. */
  function NumberEnd(m: string, p: nat): (q: nat)
    requires p <= |m|
    ensures p <= q <= |m|
  {
    var d := RunEnd(m, p, IsDigit);
    if d < |m| && m[d] == '.' then RunEnd(m, d + 1, IsDigit) else d
  }

  /** `float` of the number group starting at `p`. */
  function NumberValue(m: string, p: nat): (x: real)
    requires p <= |m|
    ensures x >= 0.0
  {
    var d := RunEnd(m, p, IsDigit);
    var whole := m[p..d];
    assert AllDigits(whole) by {
      forall k | 0 <= k < |whole| ensures IsDigit(whole[k]) { assert whole[k] == m[p + k]; }
    }
    if d < |m| && m[d] == '.' then
      var q := RunEnd(m, d + 1, IsDigit);
      var frac := m[d + 1..q];
      assert AllDigits(frac) by {
        forall k | 0 <= k < |frac| ensures IsDigit(frac[k]) { assert frac[k] == m[d + 1 + k]; }
      }
      DecimalValue(whole, frac)
    else
      DecimalValue(whole, "")
  }

  /** The number group is the text `m[p..NumberEnd(m, p)]`, and its value is
      that text read as a float: all its digits as one integer over a power of
      ten per digit after the point. */
  lemma NumberValueText(m: string, p: nat)
    requires p <= |m|
    ensures AllDigits(DropPoint(m[p..NumberEnd(m, p)]))
    ensures NumberValue(m, p) == FloatText(m[p..NumberEnd(m, p)])
  {
    var d := RunEnd(m, p, IsDigit);
    var whole := m[p..d];
    assert AllDigits(whole) by {
      forall k | 0 <= k < |whole| ensures IsDigit(whole[k]) { assert whole[k] == m[p + k]; }
    }
    if d < |m| && m[d] == '.' {
      var q := RunEnd(m, d + 1, IsDigit);
      var frac := m[d + 1..q];
      assert AllDigits(frac) by {
        forall k | 0 <= k < |frac| ensures IsDigit(frac[k]) { assert frac[k] == m[d + 1 + k]; }
      }
      assert m[p..q] == whole + "." + frac;
      PointText(whole, frac);
      assert NumberValue(m, p) == DecimalValue(whole, frac);
    } else {
      DigitsText(whole);
      assert whole + "" == whole;
      assert NumberValue(m, p) == DecimalValue(whole, "");
    }
  }

  /** A run of `p`-characters from `i` that stops at a non-`p` character at `n` ends at `n`. */
  lemma RunEndAt(m: string, i: nat, n: nat, p: char -> bool)
    requires i <= n < |m|
    requires forall k :: i <= k < n ==> p(m[k])
    requires !p(m[n])
    ensures RunEnd(m, i, p) == n
  {
    RunEndIsLongest(m, i, n, p);
  }

  /** The space, keyword and space of a keyword tail are name characters. */
  lemma TailIsNameText(m: string, e: nat)
    requires KeywordTail(m, e)
    ensures forall k :: e <= k < NumberStart(m, e) ==> NameChar(m[k])
  {
    var b := e + 1 + |KeywordAt(m, e + 1)|;
    KeywordIsNameText(m, e + 1);
    forall k | e <= k < b + 1
      ensures NameChar(m[k])
    {
      if k == e || k == b {
      } else {
        assert e + 1 <= k < b;
      }
    }
  }

  /** The name run before a keyword tail continues through the tail. */
  lemma NameRunThroughTail(m: string, s: nat, e: nat)
    requires s < e && KeywordTail(m, e)
    requires forall k :: s <= k < e ==> NameChar(m[k])
    ensures forall k :: s <= k < NumberStart(m, e) ==> NameChar(m[k])
  {
    TailIsNameText(m, e);
  }

  /** After a name group ending at `e`, the space, keyword and space are all in
      the name class and the digit is not: the name run from any earlier start
      through `e` ends exactly where the number starts. */
  lemma TailEndsNameRun(m: string, s: nat, e: nat)
    requires s < e && KeywordTail(m, e)
    requires forall k :: s <= k < e ==> NameChar(m[k])
    ensures RunEnd(m, s, NameChar) == NumberStart(m, e)
  {
    var n := NumberStart(m, e);
    NameRunThroughTail(m, s, e);
    assert IsDigit(m[n]);
    RunEndAt(m, s, n, NameChar);
  }

  /** The keyword group of a tail is the lower-cased text between the two spaces. */
  lemma KeywordText(m: string, e: nat)
    requires KeywordTail(m, e)
    ensures var kw := KeywordAt(m, e + 1);
      && (kw == "over" || kw == "under")
      && e + 1 <= NumberStart(m, e) - 1 <= |m|
      && kw == LowerStr(m[e + 1..NumberStart(m, e) - 1])
  {
    var kw := KeywordAt(m, e + 1);
    assert MatchesAt(m, e + 1, kw);
    assert NumberStart(m, e) - 1 == e + 1 + |kw|;
  }

  /** Which keyword precedes a number is read off one letter: the fifth
      character before the number is the `o` of "over" or the `n` of "under". */
  lemma KeywordFromNumberStart(m: string, e: nat)
    requires KeywordTail(m, e)
    ensures NumberStart(m, e) >= 5
    ensures KeywordAt(m, e + 1) == if Lower(m[NumberStart(m, e) - 5]) == 'o' then "over" else "under"
  {
    var kw := KeywordAt(m, e + 1);
    if kw == "over" {
      assert Lower(m[e + 1]) == LowerStr(m[e + 1..e + 5])[0] == 'o';
    } else {
      assert Lower(m[e + 2]) == LowerStr(m[e + 1..e + 6])[1] == 'n';
    }
  }

  /** For a fixed start there is at most one name group that a keyword tail
      can follow, so the greedy backtracking of `[A-Za-z ]+` has a single
      candidate: " over " and " under " cannot end at the same place. */
  lemma NameEndUnique(m: string, s: nat, e1: nat, e2: nat)
    requires s < e1 && KeywordTail(m, e1) && forall k :: s <= k < e1 ==> NameChar(m[k])
    requires s < e2 && KeywordTail(m, e2) && forall k :: s <= k < e2 ==> NameChar(m[k])
    ensures e1 == e2
  {
    TailEndsNameRun(m, s, e1);
    TailEndsNameRun(m, s, e2);
    KeywordFromNumberStart(m, e1);
    KeywordFromNumberStart(m, e2);
  }
}
