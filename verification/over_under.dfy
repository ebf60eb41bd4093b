/** Gradio.py's offline verdict, used when the analysis call raises: the mean
    of one column of the recent games compared with the line. */
module OverUnder {
  import opened GameLog
  import opened Text
  import Lexemes
  import AnchoredParser

  /** The four columns a stat name can select. */
  datatype Column = PTS | REB | AST | FG3M

  /** The lookup table `{"Points": "PTS", ...}.get(stat_type, "PTS")`: keys are
      compared exactly, and any other stat name falls back to points. */
  function StatColumn(stat: string): (c: Column)
    ensures c == REB <==> stat == "Rebounds"
    ensures c == AST <==> stat == "Assists"
    ensures c == FG3M <==> stat == "3 Pointers"
  {
    if stat == "Points" then PTS
    else if stat == "Rebounds" then REB
    else if stat == "Assists" then AST
    else if stat == "3 Pointers" then FG3M
    else PTS
  }

  function Value(row: GameRow, c: Column): int {
    match c
    case PTS => row.pts
    case REB => row.reb
    case AST => row.ast
    case FG3M => row.fg3m
  }

  function Sum(rows: seq<GameRow>, c: Column): int
    decreases |rows|
  {
    if |rows| == 0 then 0 else Sum(rows[..|rows| - 1], c) + Value(rows[|rows| - 1], c)
  }

  /** `frame[column].mean()` over a non-empty frame. */
  function Mean(rows: seq<GameRow>, c: Column): real
    requires |rows| > 0
  {
    Sum(rows, c) as real / |rows| as real
  }

  lemma {:induction false} SumBounds(rows: seq<GameRow>, c: Column, lo: int, hi: int)
    requires forall i :: 0 <= i < |rows| ==> lo <= Value(rows[i], c) <= hi
    ensures lo * |rows| <= Sum(rows, c) <= hi * |rows|
    decreases |rows|
  {
    if |rows| > 0 {
      var init := rows[..|rows| - 1];
      assert forall i :: 0 <= i < |init| ==> init[i] == rows[i];
      SumBounds(init, c, lo, hi);
      assert lo <= Value(rows[|rows| - 1], c) <= hi;
      assert lo * |rows| == lo * |init| + lo;
      assert hi * |rows| == hi * |init| + hi;
    }
  }

  /** The mean lies between the smallest and the largest value of the column. */
  lemma MeanBounds(rows: seq<GameRow>, c: Column, lo: int, hi: int)
    requires |rows| > 0
    requires forall i :: 0 <= i < |rows| ==> lo <= Value(rows[i], c) <= hi
    ensures lo as real <= Mean(rows, c) <= hi as real
  {
    SumBounds(rows, c, lo, hi);
    var n := |rows|;
    assert (lo * n) as real == lo as real * n as real;
    assert (hi * n) as real == hi as real * n as real;
    QuotientBounds(Sum(rows, c) as real, n as real, lo as real, hi as real);
  }

  lemma QuotientBounds(s: real, n: real, lo: real, hi: real)
    requires n > 0.0 && lo * n <= s <= hi * n
    ensures lo <= s / n <= hi
  {
    assert (s / n) * n == s;
  }

  /** The four sentences of the fallback verdict. */
  datatype Call =
    | LikelyOver    // "is likely to go OVER"
    | MightUnder    // "might go UNDER"
    | LikelyUnder   // "is likely to go UNDER"
    | MightOver     // "might go OVER"

  /** Only the exact direction "over" takes the first branch; every other
      direction string is treated as "under". Ties never favour the asked side. */
  function Verdict(direction: string, avg: real, line: real): (c: Call)
    ensures c.LikelyOver? || c.MightUnder? <==> direction == "over"
  {
    if direction == "over" then (if avg > line then LikelyOver else MightUnder)
    else (if avg < line then LikelyUnder else MightOver)
  }

  /** The side the sentence names is the side of the line the average lies on
      (or on it), and the call is "likely" exactly when that side is the one
      asked about, strictly. */
  lemma VerdictFollowsAverage(direction: string, avg: real, line: real)
    ensures var c := Verdict(direction, avg, line);
      && (c.LikelyOver? || c.MightOver? ==> avg >= line)
      && (c.LikelyUnder? || c.MightUnder? ==> avg <= line)
      && (c.LikelyOver? <==> direction == "over" && avg > line)
      && (c.LikelyUnder? <==> direction != "over" && avg < line)
  {
  }

  /** An average exactly on the line always gets the "might" sentence on the
      side opposite to the one asked. */
  lemma TieGoesAgainstAsked(direction: string, line: real)
    ensures Verdict(direction, line, line) == if direction == "over" then MightUnder else MightOver
  {
  }

  /** Gradio.py's parser reports a "3 pointers" stat as `capitalize()` makes it,
      "3 pointers", which is not the key "3 Pointers": the regex path never
      selects the FG3M column. */
  lemma ParsedStatNeverThrees(m: string)
    ensures StatColumn(AnchoredParser.FallbackExtract(m).stat) != FG3M
  {
    var st := AnchoredParser.FallbackExtract(m).stat;
    match AnchoredParser.NameEnd(m)
    case None =>
      assert st == "Points";
    case Some(e) =>
      var q := Lexemes.NumberEnd(m, Lexemes.NumberStart(m, e));
      assert st == AnchoredParser.StatAfter(m, q);
      StatAfterNotKey(m, q);
  }

  lemma StatAfterNotKey(m: string, q: nat)
    ensures AnchoredParser.StatAfter(m, q) != "3 Pointers"
  {
    match AnchoredParser.StatWordAt(m, q + 1)
    case None =>
    case Some(t) => CapitalizedIsNotKey(t);
  }

  /** `capitalize()` lower-cases everything after the first character, so it
      never yields the upper-case P of "3 Pointers". */
  lemma CapitalizedIsNotKey(t: string)
    ensures Capitalize(t) != "3 Pointers"
  {
    if |t| == 10 {
      assert Capitalize(t)[2] == Lower(t[2]);
    }
  }
}
