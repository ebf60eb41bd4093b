/** The character classes and the few `str` methods the handlers rely on:
    `lower`, `upper`, `capitalize`, `title`, `strip`, `startswith` and
    `split(" ")[0]`. Letters and case are ASCII; whitespace is ASCII whitespace
    as `str.isspace` sees it. */
module Text {

  predicate IsLetter(c: char) { 'A' <= c <= 'Z' || 'a' <= c <= 'z' }

  predicate IsDigit(c: char) { '0' <= c <= '9' }

  predicate IsWhitespace(c: char) {
    c == ' ' || '\U{9}' <= c <= '\U{D}' || '\U{1C}' <= c <= '\U{1F}'
  }

  function Lower(c: char): (d: char)
    ensures IsLetter(d) <==> IsLetter(c)
    ensures !('A' <= d <= 'Z')
    ensures !IsLetter(c) ==> d == c
  {
    if 'A' <= c <= 'Z' then (c as int + 32) as char else c
  }

  function Upper(c: char): (d: char)
    ensures IsLetter(d) <==> IsLetter(c)
    ensures !('a' <= d <= 'z')
    ensures !IsLetter(c) ==> d == c
  {
    if 'a' <= c <= 'z' then (c as int - 32) as char else c
  }

  lemma UpperLower(c: char)
    ensures Upper(Lower(c)) == Upper(c)
    ensures Lower(Upper(c)) == Lower(c)
    ensures Upper(Upper(c)) == Upper(c)
    ensures Lower(Lower(c)) == Lower(c)
  {
  }

  function LowerStr(s: string): (r: string)
    ensures |r| == |s|
    ensures forall i :: 0 <= i < |s| ==> r[i] == Lower(s[i])
  {
    seq(|s|, i requires 0 <= i < |s| => Lower(s[i]))
  }

  /** `str.capitalize`: the first character upper-cased, every other one lower-cased. */
  function Capitalize(s: string): (r: string)
    ensures |r| == |s|
    ensures |s| > 0 ==> r[0] == Upper(s[0])
    ensures forall i :: 0 < i < |s| ==> r[i] == Lower(s[i])
  {
    if |s| == 0 then "" else [Upper(s[0])] + LowerStr(s[1..])
  }

  /** Whether `str.title` upper-cases position `i` of `s`: it starts a word,
      that is, it does not follow a cased character. */
  predicate StartsWord(s: string, i: nat)
    requires i < |s|
  {
    i == 0 || !IsLetter(s[i - 1])
  }

  /** `str.title`: upper-case every character that starts a word, lower-case the rest. */
  function Title(s: string): (r: string)
    ensures |r| == |s|
    ensures forall i :: 0 <= i < |s| ==> r[i] == if StartsWord(s, i) then Upper(s[i]) else Lower(s[i])
  {
    seq(|s|, i requires 0 <= i < |s| => if StartsWord(s, i) then Upper(s[i]) else Lower(s[i]))
  }

  /** Title-casing is idempotent: the word starts of `Title(s)` are those of `s`. */
  lemma TitleIdempotent(s: string)
    ensures Title(Title(s)) == Title(s)
  {
    var t := Title(s);
    forall i | 0 <= i < |s|
      ensures Title(t)[i] == t[i]
    {
      if i > 0 {
        assert IsLetter(t[i - 1]) <==> IsLetter(s[i - 1]);
      }
      UpperLower(s[i]);
    }
  }

  /** The first index at or after `i` that does not hold whitespace, or `|s|`. */
  function TextStart(s: string, i: nat): (n: nat)
    requires i <= |s|
    ensures i <= n <= |s|
    ensures forall k :: i <= k < n ==> IsWhitespace(s[k])
    ensures n < |s| ==> !IsWhitespace(s[n])
    decreases |s| - i
  {
    if i < |s| && IsWhitespace(s[i]) then TextStart(s, i + 1) else i
  }

  /** The index just past the last character of `s[lo..j]` that is not
      whitespace, or `lo` when there is none. */
  function TextEnd(s: string, lo: nat, j: nat): (n: nat)
    requires lo <= j <= |s|
    ensures lo <= n <= j
    ensures forall k :: n <= k < j ==> IsWhitespace(s[k])
    ensures n > lo ==> !IsWhitespace(s[n - 1])
    decreases j
  {
    if j > lo && IsWhitespace(s[j - 1]) then TextEnd(s, lo, j - 1) else j
  }

  /** `str.strip()`. */
  function Strip(s: string): string {
    var i := TextStart(s, 0);
    s[i..TextEnd(s, i, |s|)]
  }

  /** `Strip` removes exactly the whitespace at both ends: the result is a
      slice of `s` that neither starts nor ends with whitespace, and everything
      cut off is whitespace. */
  lemma StripIsInnerSlice(s: string)
    ensures var r, i := Strip(s), TextStart(s, 0);
      && i + |r| <= |s| && r == s[i..i + |r|]
      && (forall k :: 0 <= k < i ==> IsWhitespace(s[k]))
      && (forall k :: i + |r| <= k < |s| ==> IsWhitespace(s[k]))
      && (|r| > 0 ==> !IsWhitespace(r[0]) && !IsWhitespace(r[|r| - 1]))
  {
    var i := TextStart(s, 0);
    var j := TextEnd(s, i, |s|);
    var r := Strip(s);
    assert |r| == j - i;
    if |r| > 0 {
      assert r[0] == s[i] && r[|r| - 1] == s[j - 1];
    }
  }

  /** Stripping twice strips nothing more. */
  lemma StripIdempotent(s: string)
    ensures Strip(Strip(s)) == Strip(s)
  {
    var r := Strip(s);
    if |r| > 0 {
      StripIsInnerSlice(s);
      StripKeeps(r);
    } else {
      assert TextStart(r, 0) == 0;
    }
  }

  /** A string that neither starts nor ends with whitespace is its own `strip()`. */
  lemma StripKeeps(s: string)
    requires |s| > 0 && !IsWhitespace(s[0]) && !IsWhitespace(s[|s| - 1])
    ensures Strip(s) == s
  {
    assert TextStart(s, 0) == 0;
    assert TextEnd(s, 0, |s|) == |s|;
  }

  predicate StartsWith(s: string, prefix: string) {
    |prefix| <= |s| && s[..|prefix|] == prefix
  }

  lemma StartsWithTrans(s: string, t: string, u: string)
    requires StartsWith(s, t) && StartsWith(t, u)
    ensures StartsWith(s, u)
  {
    assert s[..|u|] == s[..|t|][..|u|];
  }

  predicate EndsWith(s: string, suffix: string) {
    |suffix| <= |s| && s[|s| - |suffix|..] == suffix
  }

  /** `s.split(" ")[0]`: the text before the first space, or all of `s`. */
  function FirstField(s: string): (r: string)
    ensures r <= s
    ensures ' ' !in r
    ensures |r| < |s| ==> s[|r|] == ' '
  {
    if |s| == 0 || s[0] == ' ' then "" else [s[0]] + FirstField(s[1..])
  }
}
