/** Worked examples: the regex fallbacks on fixed messages, and the offline
    verdict on test3.py's mock rows. */
module Scenarios {
  import opened Wrappers
  import opened Text
  import opened Decimal
  import opened Intent
  import opened Lexemes
  import opened GameLog
  import opened Fetch
  import opened OverUnder
  import SearchParser
  import AnchoredParser

  const Bet: string := "LeBron over 25.5 points"

  lemma NameIsLeBron()
    ensures Strip(Bet[0..6]) == "LeBron"
  {
    assert Bet[0..6] == "LeBron";
    StripKeeps("LeBron");
  }

  lemma KeywordIsOver()
    ensures KeywordAt(Bet, 7) == "over"
  {
    assert Bet[7..11] == "over";
    assert LowerStr("over") == "over";
  }

  lemma LineIs25Point5()
    ensures NumberValue(Bet, 12) == 25.5
    ensures NumberEnd(Bet, 12) == 16
  {
    BetNumberRuns();
    Value25Point5();
  }

  lemma BetNumberRuns()
    ensures RunEnd(Bet, 12, IsDigit) == 14 && RunEnd(Bet, 15, IsDigit) == 16
    ensures Bet[14] == '.' && Bet[12..14] == "25" && Bet[15..16] == "5"
  {
    assert RunEnd(Bet, 14, IsDigit) == 14;
    assert RunEnd(Bet, 16, IsDigit) == 16;
  }

  lemma Value25Point5()
    ensures DecimalValue("25", "5") == 25.5
  {
    assert DigitsValue("2") == 2;
    assert DigitsValue("25") == 25;
    assert DigitsValue("5") == 5;
    assert Pow10(1) == 10;
  }

  lemma BetShape()
    ensures SearchParser.ShapeAt(Bet, 0, 6)
    ensures NumberStart(Bet, 6) == 12
  {
    KeywordIsOver();
    assert forall k :: 0 <= k < 6 ==> NameChar(Bet[k]);
  }

  /** The search pattern reads "LeBron over 25.5 points" as LeBron, over 25.5 points. */
  lemma SearchReadsBet()
    ensures SearchParser.FallbackExtract(Bet) == Query("LeBron", "Points", 25.5, "over")
  {
    BetShape();
    SearchParser.FallbackOnMatch(Bet, 0, 6);
    NameIsLeBron();
    KeywordIsOver();
    LineIs25Point5();
  }

  /** Adding a row adds its value to the column's sum. */
  lemma SumSnoc(rows: seq<GameRow>, row: GameRow, c: Column)
    ensures Sum(rows + [row], c) == Sum(rows, c) + Value(row, c)
  {
    assert (rows + [row])[..|rows|] == rows;
  }

  /** The mock rows' points add up to 131 and their made threes to 12. */
  lemma MockSums()
    ensures Sum(MockRows, PTS) == 131 && Sum(MockRows, FG3M) == 12
  {
    var r0, r1, r2, r3, r4 := MockRows[0], MockRows[1], MockRows[2], MockRows[3], MockRows[4];
    assert r0.pts == 28 && r0.fg3m == 3;
    assert r1.pts == 24 && r1.fg3m == 2;
    assert r2.pts == 31 && r2.fg3m == 4;
    assert r3.pts == 26 && r3.fg3m == 1;
    assert r4.pts == 22 && r4.fg3m == 2;
    var s0: seq<GameRow> := [];
    var s1 := s0 + [r0];
    var s2 := s1 + [r1];
    var s3 := s2 + [r2];
    var s4 := s3 + [r3];
    var s5 := s4 + [r4];
    assert s5 == MockRows;
    SumSnoc(s0, r0, PTS); SumSnoc(s1, r1, PTS); SumSnoc(s2, r2, PTS); SumSnoc(s3, r3, PTS); SumSnoc(s4, r4, PTS);
    SumSnoc(s0, r0, FG3M); SumSnoc(s1, r1, FG3M); SumSnoc(s2, r2, FG3M); SumSnoc(s3, r3, FG3M); SumSnoc(s4, r4, FG3M);
  }

  /** The five mock rows average 26.2 points and 2.4 made threes. */
  lemma MockMeans()
    ensures Mean(MockRows, PTS) == 26.2
    ensures Mean(MockRows, FG3M) == 2.4
  {
    MockSums();
    assert |MockRows| == 5;
  }

  /** On the mock rows, "over 4.5 3 pointers" judged on made threes would be
      "might go UNDER", but a regex-parsed query is judged on points, where
      the call is "likely to go OVER". */
  lemma MockThreesVerdict()
    ensures Verdict("over", Mean(MockRows, StatColumn("3 Pointers")), 4.5) == MightUnder
    ensures Verdict("over", Mean(MockRows, StatColumn("3 pointers")), 4.5) == LikelyOver
  {
    MockMeans();
  }

  lemma PointsWordAt()
    ensures MatchesAt(Bet, 17, "points") && Bet[17..23] == "points"
  {
    assert Bet[17..23] == "points";
    assert LowerStr("points") == "points";
  }

  lemma CapitalizePoints()
    ensures Capitalize("points") == "Points"
  {
    assert "points"[1..] == "oints";
    assert LowerStr("oints") == "oints";
  }

  lemma StatIsPoints()
    ensures AnchoredParser.StatAfter(Bet, 16) == "Points"
  {
    PointsWordAt();
    assert AnchoredParser.StatWordAt(Bet, 17) == Some("points");
    CapitalizePoints();
  }

  lemma BetAnchoredShape()
    ensures AnchoredParser.ShapeFrom(Bet, 6)
  {
    BetShape();
    LineIs25Point5();
  }

  /** The anchored pattern of Gradio.py reads the same message, with the stat
      word capitalised. */
  lemma AnchoredReadsBet()
    ensures AnchoredParser.FallbackExtract(Bet) == Query("LeBron", "Points", 25.5, "over")
  {
    BetAnchoredShape();
    AnchoredParser.FallbackOnMatch(Bet, 6);
    BetShape();
    LineIs25Point5();
    NameIsLeBron();
    KeywordIsOver();
    StatIsPoints();
  }

  const Bare: string := "LeBron over 25.5"

  lemma BareShape()
    ensures SearchParser.ShapeAt(Bare, 0, 6)
    ensures NumberStart(Bare, 6) == 12 && NumberEnd(Bare, 12) == |Bare|
    ensures KeywordAt(Bare, 7) == "over"
  {
    assert Bare[7..11] == "over";
    assert LowerStr("over") == "over";
    assert forall k :: 0 <= k < 6 ==> NameChar(Bare[k]);
    assert RunEnd(Bare, 14, IsDigit) == 14;
    assert RunEnd(Bare, 12, IsDigit) == 14;
    assert RunEnd(Bare, 16, IsDigit) == 16;
    assert RunEnd(Bare, 15, IsDigit) == 16;
  }

  /** Without text after the number the anchored pattern does not match, so
      Gradio.py's fallback has no player, while the other handlers' search
      pattern still finds LeBron. */
  lemma AnchoredNeedsTrailingSpace()
    ensures AnchoredParser.FallbackExtract(Bare) == NoMatch
    ensures SearchParser.FallbackExtract(Bare).player == Strip(Bare[0..6])
  {
    BareShape();
    SearchParser.FallbackOnMatch(Bare, 0, 6);
    forall e: nat
      ensures !AnchoredParser.ShapeFrom(Bare, e)
    {
      if AnchoredParser.ShapeFrom(Bare, e) {
        NameEndUnique(Bare, 0, e, 6);
      }
    }
    AnchoredParser.FallbackWithoutMatch(Bare);
  }
}
