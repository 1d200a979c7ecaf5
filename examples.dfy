/**
 * `parse_output` on concrete tool output.
 *
 * Each lemma below does one concrete computation (a spelling, a letter that
 * is absent, a match) or puts earlier ones together; the general lemmas of
 * the other modules do the reasoning.
 */
module Examples {
  import opened Wrappers
  import opened Lexical
  import opened Decimal
  import opened Patterns
  import opened Search
  import opened Extract

  // ---------------------------------------------------------------------------
  // Putting the five extractions together.
  // ---------------------------------------------------------------------------

  /** `parse_output` assembled from the five extractions. */
  lemma Assemble(t: string, e: Option<real>, s: seq<real>, l: Option<real>, k: Option<nat>, th: Option<real>)
    requires ExecTime(t) == Ok(e)
    requires ParseFloats(ScoreTokens(t)) == Ok(s)
    requires FloatOfMatch(Latency, SearchFirst(Latency, t)) == Ok(l)
    requires TotalTokens(t) == Ok(k)
    requires FloatOfMatch(Throughput, SearchFirst(Throughput, t)) == Ok(th)
    ensures ParseOutput(t) == Ok(Metrics(e, s, l, k, th))
  {
  }

  /** The first failing conversion, at the latency field, is what `parse_output` raises. */
  lemma LatencyRaises(t: string, e: ParseError)
    requires ExecTime(t).Ok? && ParseFloats(ScoreTokens(t)).Ok?
    requires FloatOfMatch(Latency, SearchFirst(Latency, t)) == Err(e)
    ensures ParseOutput(t) == Err(e)
  {
  }

  /** The first failing conversion, at the throughput field, is what `parse_output` raises. */
  lemma ThroughputRaises(t: string, e: ParseError)
    requires ExecTime(t).Ok? && ParseFloats(ScoreTokens(t)).Ok?
    requires FloatOfMatch(Latency, SearchFirst(Latency, t)).Ok? && TotalTokens(t).Ok?
    requires FloatOfMatch(Throughput, SearchFirst(Throughput, t)) == Err(e)
    ensures ParseOutput(t) == Err(e)
  {
  }

  /** `float()` of `w.f` spelled with `k` fraction digits. */
  lemma Spelled(s: string, w: nat, f: nat, k: nat, p: nat, v: real)
    requires p == Pow10(k) && f < p && s == ShowNat(w) + "." + Padded(f, k)
    requires v == w as real + f as real / p as real
    ensures IsDecimalToken(s) && ParseFloat(s) == Ok(v)
  {
    FloatOfFraction(w, f, k);
  }

  /** `int()` of the numeral of `n`. */
  lemma SpelledNat(s: string, n: nat)
    requires s == ShowNat(n) && |s| <= MaxStrDigits
    ensures |s| >= 1 && AllDigits(s) && ParseNat(s) == Ok(n)
  {
  }

  // ---------------------------------------------------------------------------
  // Regrouping a text made of three lines. Stated on symbolic pieces so that
  // the concrete examples only have to check each line on its own.
  // ---------------------------------------------------------------------------

  lemma NotInEither(c: char, x: string, y: string)
    requires c !in x && c !in y
    ensures c !in x + y
  {
  }

  lemma FirstOfThree(a: string, b: string, c: string, p1: string, p2: string, p3: string, p4: string)
    requires a == p1 + p2 + p3 + p4 + "\n"
    ensures a + b + c == "" + p1 + p2 + p3 + p4 + ("\n" + b + c)
  {
  }

  lemma SecondOfThree(a: string, b: string, c: string, p1: string, p2: string, p3: string, p4: string)
    requires b == p1 + p2 + p3 + p4 + "\n"
    ensures a + b + c == a + p1 + p2 + p3 + p4 + ("\n" + c)
  {
  }

  lemma ThirdOfThree(a: string, b: string, c: string, p1: string, p2: string, p3: string, p4: string)
    requires c == p1 + p2 + p3 + p4 + "\n"
    ensures a + b + c == a + b + p1 + p2 + p3 + p4 + "\n"
  {
  }

  lemma FirstOfThreeShort(a: string, b: string, c: string, p1: string, p2: string, p3: string)
    requires a == p1 + p2 + p3 + "\n"
    ensures a + b + c == "" + p1 + p2 + p3 + ("\n" + b + c)
  {
  }

  lemma SecondOfThreeShort(a: string, b: string, c: string, p1: string, p2: string)
    requires b == p1 + p2 + "\n"
    ensures a + b + c == a + p1 + p2 + ("\n" + c)
  {
  }

  lemma ThirdOfThreeShort(a: string, b: string, c: string, p1: string, p2: string)
    requires c == p1 + p2 + "\n"
    ensures a + b + c == a + b + p1 + p2 + "\n"
  {
  }

  /** Cutting the second line in two. */
  lemma CutSecond(a: string, b: string, c: string, x: string, y: string)
    requires b == x + y
    ensures a + b + c == "" + (a + x) + (y + c)
  {
  }

  /** Cutting the second and the third line. */
  lemma CutSecondAndThird(a: string, b: string, c: string, x: string, y: string, z: string, w: string)
    requires b == x + y && c == z + w
    ensures a + b + c == (a + x) + (y + z) + w
  {
  }

  /** Cutting the third line, keeping its head with the lines before it. */
  lemma CutThird(a: string, b: string, c: string, z: string, w: string)
    requires c == z + w
    ensures a + b + c == "" + (a + b + z) + w && a + b + c == (a + b + z) + w + ""
  {
  }

  // ---------------------------------------------------------------------------
  // `real 2m15.5s`
  // ---------------------------------------------------------------------------

  const TimeText := "real 2m15.5s"

  lemma FifteenAndAHalf()
    ensures IsDecimalToken("15.5") && ParseFloat("15.5") == Ok(15.5)
  {
    SpellFifteenAndAHalf();
    Spelled("15.5", 15, 5, 1, 10, 15.5);
  }

  lemma SpellFifteenAndAHalf()
    ensures "15.5" == ShowNat(15) + "." + Padded(5, 1) && Pow10(1) == 10
  {
  }

  lemma Two()
    ensures |"2"| >= 1 && AllDigits("2") && ParseNat("2") == Ok(2)
  {
    SpelledNat("2", 2);
  }

  lemma TimeTextPieces()
    ensures TimeText == "" + TimeLit + " " + "2" + "m" + "15.5" + "s" + ""
  {
  }

  lemma TimeTextAt()
    ensures MatchAt(Time, TimeText, 0) == Some(Match(0, 12, ["2", "15.5"]))
  {
    TimeTextPieces();
    FifteenAndAHalf();
    Two();
    assert RunOf(" ", 0, 1, Space);
    TimeMatchOf(TimeText, "", " ", "2", "15.5", "");
  }

  lemma TimeTextMatch()
    ensures SearchFirst(Time, TimeText) == Some(Match(0, 12, ["2", "15.5"]))
  {
    TimeTextAt();
    assert IsLeftmost(Time, TimeText, 0);
  }

  lemma TimeSecondsExample()
    ensures TimeSeconds(Match(0, 12, ["2", "15.5"])) == Ok(135.5)
  {
    FifteenAndAHalf();
    Two();
  }

  lemma TimeTextTime()
    ensures ExecTime(TimeText) == Ok(Some(135.5))
  {
    TimeTextMatch();
    TimeSecondsExample();
  }

  lemma TimeTextLetters()
    ensures 'o' !in TimeText
  {
  }

  /** Without an `o`, none of the other four patterns matches. */
  lemma OnlyTimeKnown(t: string)
    requires 'o' !in t
    ensures ParseFloats(ScoreTokens(t)) == Ok([])
    ensures FloatOfMatch(Latency, SearchFirst(Latency, t)) == Ok(None)
    ensures TotalTokens(t) == Ok(None)
    ensures FloatOfMatch(Throughput, SearchFirst(Throughput, t)) == Ok(None)
  {
    NoMatchWithout(Rouge, t, 1);
    NoMatchWithout(Latency, t, 1);
    NoMatchWithout(Tokens, t, 1);
    NoMatchWithout(Throughput, t, 1);
  }

  /** The output of `time`: two minutes and 15.5 seconds is 135.5 seconds, and nothing else is found. */
  lemma TimeOnly()
    ensures ParseOutput(TimeText) == Ok(Metrics(Some(135.5), [], None, None, None))
  {
    TimeTextTime();
    TimeTextLetters();
    OnlyTimeKnown(TimeText);
    Assemble(TimeText, Some(135.5), [], None, None, None);
  }

  // ---------------------------------------------------------------------------
  // Three score lines.
  // ---------------------------------------------------------------------------

  const Line1 := "rouge1 : 10.2\n"
  const Line2 := "rouge2 : 5.1\n"
  const Line3 := "rougeLsum : 20.0\n"
  const ScoreText := Line1 + Line2 + Line3

  lemma TenPointTwo()
    ensures IsDecimalToken("10.2") && ParseFloat("10.2") == Ok(10.2)
  {
    SpellTenPointTwo();
    Spelled("10.2", 10, 2, 1, 10, 10.2);
  }

  lemma SpellTenPointTwo()
    ensures "10.2" == ShowNat(10) + "." + Padded(2, 1) && Pow10(1) == 10
  {
  }

  lemma FivePointOne()
    ensures IsDecimalToken("5.1") && ParseFloat("5.1") == Ok(5.1)
  {
    SpellFivePointOne();
    Spelled("5.1", 5, 1, 1, 10, 5.1);
  }

  lemma SpellFivePointOne()
    ensures "5.1" == ShowNat(5) + "." + Padded(1, 1) && Pow10(1) == 10
  {
  }

  lemma TwentyPointZero()
    ensures IsDecimalToken("20.0") && ParseFloat("20.0") == Ok(20.0)
  {
    SpellTwentyPointZero();
    Spelled("20.0", 20, 0, 1, 10, 20.0);
  }

  lemma SpellTwentyPointZero()
    ensures "20.0" == ShowNat(20) + "." + Padded(0, 1) && Pow10(1) == 10
  {
  }

  lemma ScoreTags()
    ensures RunOf("1", 0, 1, Label) && RunOf("2", 0, 1, Label) && RunOf("Lsum", 0, 4, Label)
  {
    assert "Lsum"[0] == 'L' && "Lsum"[1] == 's' && "Lsum"[2] == 'u' && "Lsum"[3] == 'm';
  }

  lemma ScoreLine1At()
    ensures MatchAt(Rouge, ScoreText, 0) == Some(Match(0, 13, ["10.2"]))
  {
    ScoreLine1AtPieces();
    ScoreTags();
    TenPointTwo();
    RougeMatchOf(ScoreText, "", "1", "10.2", "\n" + Line2 + Line3);
  }

  lemma ScoreLine1AtPieces()
    ensures ScoreText == "" + RougeLit + "1" + RougeSep + "10.2" + ("\n" + Line2 + Line3)
  {
    Line1Pieces();
    FirstOfThree(Line1, Line2, Line3, RougeLit, "1", RougeSep, "10.2");
  }

  lemma Line1Pieces()
    ensures Line1 == RougeLit + "1" + RougeSep + "10.2" + "\n"
  {
  }

  lemma ScoreLine2At()
    ensures MatchAt(Rouge, ScoreText, 14) == Some(Match(14, 26, ["5.1"]))
  {
    ScoreLine2AtPieces();
    ScoreTags();
    FivePointOne();
    RougeMatchOf(ScoreText, Line1, "2", "5.1", "\n" + Line3);
  }

  lemma ScoreLine2AtPieces()
    ensures ScoreText == Line1 + RougeLit + "2" + RougeSep + "5.1" + ("\n" + Line3)
  {
    Line2Pieces();
    SecondOfThree(Line1, Line2, Line3, RougeLit, "2", RougeSep, "5.1");
  }

  lemma Line2Pieces()
    ensures Line2 == RougeLit + "2" + RougeSep + "5.1" + "\n"
  {
  }

  lemma ScoreLine3At()
    ensures MatchAt(Rouge, ScoreText, 27) == Some(Match(27, 43, ["20.0"]))
  {
    ScoreLine3AtPieces();
    ScoreTags();
    TwentyPointZero();
    RougeMatchOf(ScoreText, Line1 + Line2, "Lsum", "20.0", "\n");
  }

  lemma ScoreLine3AtPieces()
    ensures ScoreText == Line1 + Line2 + RougeLit + "Lsum" + RougeSep + "20.0" + "\n"
  {
    Line3Pieces();
    ThirdOfThree(Line1, Line2, Line3, RougeLit, "Lsum", RougeSep, "20.0");
  }

  lemma Line3Pieces()
    ensures Line3 == RougeLit + "Lsum" + RougeSep + "20.0" + "\n"
  {
  }

  lemma ScoreNewlines()
    ensures |ScoreText| == 44 && ScoreText[13] == '\n' && ScoreText[26] == '\n' && ScoreText[43] == '\n'
  {
  }

  lemma ScoreStep1()
    ensures EveryMatch(Rouge, ScoreText, 0) == [Match(0, 13, ["10.2"])] + EveryMatch(Rouge, ScoreText, 13)
  {
    ScoreLine1At();
    RougeEveryMatchStep(ScoreText, 0, Match(0, 13, ["10.2"]));
  }

  lemma ScoreStep2()
    ensures EveryMatch(Rouge, ScoreText, 13) == [Match(14, 26, ["5.1"])] + EveryMatch(Rouge, ScoreText, 26)
  {
    ScoreLine2At();
    ScoreNewlines();
    MismatchNoMatch(Rouge, ScoreText, 13, 0);
    RougeEveryMatchAfterGap(ScoreText, 13, Match(14, 26, ["5.1"]));
  }

  lemma ScoreStep3()
    ensures EveryMatch(Rouge, ScoreText, 26) == [Match(27, 43, ["20.0"])] + EveryMatch(Rouge, ScoreText, 43)
  {
    ScoreLine3At();
    ScoreNewlines();
    MismatchNoMatch(Rouge, ScoreText, 26, 0);
    RougeEveryMatchAfterGap(ScoreText, 26, Match(27, 43, ["20.0"]));
  }

  lemma ScoreStepEnd()
    ensures EveryMatch(Rouge, ScoreText, 43) == []
  {
    ScoreNewlines();
    MismatchNoMatch(Rouge, ScoreText, 43, 0);
    MismatchNoMatch(Rouge, ScoreText, 44, 0);
    EveryMatchSkip(Rouge, ScoreText, 43, 44);
  }

  lemma ScoreMatches()
    ensures EveryMatch(Rouge, ScoreText, 0) ==
      [Match(0, 13, ["10.2"]), Match(14, 26, ["5.1"]), Match(27, 43, ["20.0"])]
  {
    ScoreStep1();
    ScoreStep2();
    ScoreStep3();
    ScoreStepEnd();
    ThreeSteps(EveryMatch(Rouge, ScoreText, 0), EveryMatch(Rouge, ScoreText, 13), EveryMatch(Rouge, ScoreText, 26),
      EveryMatch(Rouge, ScoreText, 43), Match(0, 13, ["10.2"]), Match(14, 26, ["5.1"]), Match(27, 43, ["20.0"]));
  }

  /** Three steps of an enumeration that then ends list exactly three matches. */
  lemma ThreeSteps(x0: seq<Match>, x1: seq<Match>, x2: seq<Match>, x3: seq<Match>, m1: Match, m2: Match, m3: Match)
    requires x0 == [m1] + x1 && x1 == [m2] + x2 && x2 == [m3] + x3 && x3 == []
    ensures x0 == [m1, m2, m3]
  {
  }

  /** The tokens `findall` returns are the groups of the three matches. */
  lemma ThreeScoreTokens(t: string, m1: Match, m2: Match, m3: Match)
    requires EveryMatch(Rouge, t, 0) == [m1, m2, m3]
    requires |m1.groups| == |m2.groups| == |m3.groups| == 1
    ensures ScoreTokens(t) == [m1.groups[0], m2.groups[0], m3.groups[0]]
  {
    RougeFindAllIsEveryMatch(t);
    var r := ScoreTokens(t);
    assert |r| == 3;
    assert r[0] == m1.groups[0] && r[1] == m2.groups[0] && r[2] == m3.groups[0];
  }

  /** Three tokens `float()` accepts convert to their three values. */
  lemma ParseThree(a: string, b: string, c: string, x: real, y: real, z: real)
    requires IsDecimalToken(a) && IsDecimalToken(b) && IsDecimalToken(c)
    requires ParseFloat(a) == Ok(x) && ParseFloat(b) == Ok(y) && ParseFloat(c) == Ok(z)
    ensures ParseFloats([a, b, c]) == Ok([x, y, z])
  {
    var toks := [a, b, c];
    assert IsFloatLiteral(toks[0]) && IsFloatLiteral(toks[1]) && IsFloatLiteral(toks[2]);
    assert FirstRejected(AsFloats(toks)) == 3;
    var r := ParseFloats(toks);
    assert r.value[0] == x && r.value[1] == y && r.value[2] == z;
    assert r.value == [x, y, z];
  }

  lemma ScoreTokensExample()
    ensures ScoreTokens(ScoreText) == ["10.2", "5.1", "20.0"]
  {
    ScoreMatches();
    ThreeScoreTokens(ScoreText, Match(0, 13, ["10.2"]), Match(14, 26, ["5.1"]), Match(27, 43, ["20.0"]));
  }

  lemma ScoreValues()
    ensures ParseFloats(["10.2", "5.1", "20.0"]) == Ok([10.2, 5.1, 20.0])
  {
    TenPointTwo();
    FivePointOne();
    TwentyPointZero();
    ParseThree("10.2", "5.1", "20.0", 10.2, 5.1, 20.0);
  }

  lemma ScoreTextLetters()
    ensures 'a' !in ScoreText && 't' !in ScoreText
  {
    ScoreLineLetters();
    NotInEither('a', Line1, Line2);
    NotInEither('a', Line1 + Line2, Line3);
    NotInEither('t', Line1, Line2);
    NotInEither('t', Line1 + Line2, Line3);
  }

  lemma ScoreLineLetters()
    ensures 'a' !in Line1 && 't' !in Line1
    ensures 'a' !in Line2 && 't' !in Line2
    ensures 'a' !in Line3 && 't' !in Line3
  {
  }

  /** Without an `a` or a `t`, only the score pattern can match. */
  lemma OnlyScoresKnown(t: string)
    requires 'a' !in t && 't' !in t
    ensures ExecTime(t) == Ok(None)
    ensures FloatOfMatch(Latency, SearchFirst(Latency, t)) == Ok(None)
    ensures TotalTokens(t) == Ok(None)
    ensures FloatOfMatch(Throughput, SearchFirst(Throughput, t)) == Ok(None)
  {
    NoMatchWithout(Time, t, 2);
    NoMatchWithout(Latency, t, 0);
    NoMatchWithout(Tokens, t, 0);
    NoMatchWithout(Throughput, t, 0);
  }

  /** Three score lines: their values in text order, and no other metric. */
  lemma ScoresOnly()
    ensures ParseOutput(ScoreText) == Ok(Metrics(None, [10.2, 5.1, 20.0], None, None, None))
  {
    ScoreTokensExample();
    ScoreValues();
    ScoreTextLetters();
    OnlyScoresKnown(ScoreText);
    Assemble(ScoreText, None, [10.2, 5.1, 20.0], None, None, None);
  }

  // ---------------------------------------------------------------------------
  // Latency, token count and throughput together.
  // ---------------------------------------------------------------------------

  const LatencyLine := "total latency: 3.25 sec\n"
  const TokensLine := "total output tokens: 512\n"
  const ThroughputLine := "tokens per second: 157.6\n"
  const RunText := LatencyLine + TokensLine + ThroughputLine

  lemma ThreePointTwoFive()
    ensures IsDecimalToken("3.25") && ParseFloat("3.25") == Ok(3.25)
  {
    SpellThreePointTwoFive();
    Spelled("3.25", 3, 25, 2, 100, 3.25);
  }

  lemma SpellThreePointTwoFive()
    ensures "3.25" == ShowNat(3) + "." + Padded(25, 2) && Pow10(2) == 100
  {
  }

  lemma OneFiftySevenPointSix()
    ensures IsDecimalToken("157.6") && ParseFloat("157.6") == Ok(157.6)
  {
    SpellOneFiftySevenPointSix();
    Spelled("157.6", 157, 6, 1, 10, 157.6);
  }

  lemma SpellOneFiftySevenPointSix()
    ensures "157.6" == ShowNat(157) + "." + Padded(6, 1) && Pow10(1) == 10
  {
  }

  lemma FiveTwelve()
    ensures |"512"| >= 1 && AllDigits("512") && ParseNat("512") == Ok(512)
  {
    SpelledNat("512", 512);
  }

  lemma RunLatencyAt()
    ensures MatchAt(Latency, RunText, 0) == Some(Match(0, 23, ["3.25"]))
  {
    RunLatencyAtPieces();
    ThreePointTwoFive();
    LatencyMatchOf(RunText, "", "3.25", "\n" + TokensLine + ThroughputLine);
  }

  lemma RunLatencyAtPieces()
    ensures RunText == "" + LatencyLit + "3.25" + LatencyUnit + ("\n" + TokensLine + ThroughputLine)
  {
    LatencyLinePieces();
    FirstOfThreeShort(LatencyLine, TokensLine, ThroughputLine, LatencyLit, "3.25", LatencyUnit);
  }

  lemma LatencyLinePieces()
    ensures LatencyLine == LatencyLit + "3.25" + LatencyUnit + "\n"
  {
  }

  lemma RunLatencyMatch()
    ensures SearchFirst(Latency, RunText) == Some(Match(0, 23, ["3.25"]))
  {
    RunLatencyAt();
    assert IsLeftmost(Latency, RunText, 0);
  }

  lemma RunTokensAt()
    ensures MatchAt(Tokens, RunText, 24) == Some(Match(24, 48, ["512"]))
  {
    RunTokensAtPieces();
    FiveTwelve();
    TokensMatchOf(RunText, LatencyLine, "512", "\n" + ThroughputLine);
  }

  lemma RunTokensAtPieces()
    ensures RunText == LatencyLine + TokensLit + "512" + ("\n" + ThroughputLine)
  {
    TokensLinePieces();
    SecondOfThreeShort(LatencyLine, TokensLine, ThroughputLine, TokensLit, "512");
  }

  lemma TokensLinePieces()
    ensures TokensLine == TokensLit + "512" + "\n"
  {
  }

  lemma RunTokensNotBefore()
    ensures forall j: nat :: j < 24 ==> MatchAt(Tokens, RunText, j).None?
  {
    RunTokensCut();
    NoMatchInPiece(Tokens, "", LatencyLine + "total o", "utput tokens: 512\n" + ThroughputLine, 7);
  }

  lemma RunTokensCut()
    ensures 'u' !in LatencyLine + "total o"
    ensures RunText == "" + (LatencyLine + "total o") + ("utput tokens: 512\n" + ThroughputLine)
  {
    RunTokensCutLetters();
    NotInEither('u', LatencyLine, "total o");
    TokensLineCut();
    CutSecond(LatencyLine, TokensLine, ThroughputLine, "total o", "utput tokens: 512\n");
  }

  lemma RunTokensCutLetters()
    ensures 'u' !in LatencyLine && 'u' !in "total o"
  {
  }

  lemma TokensLineCut()
    ensures TokensLine == "total o" + "utput tokens: 512\n"
  {
  }

  lemma RunTokensMatch()
    ensures SearchFirst(Tokens, RunText) == Some(Match(24, 48, ["512"]))
  {
    RunTokensAt();
    RunTokensNotBefore();
    assert IsLeftmost(Tokens, RunText, 24);
  }

  lemma RunThroughputAt()
    ensures MatchAt(Throughput, RunText, 49) == Some(Match(49, 73, ["157.6"]))
  {
    RunThroughputAtPieces();
    OneFiftySevenPointSix();
    ThroughputMatchOf(RunText, LatencyLine + TokensLine, "157.6", "\n");
  }

  lemma RunThroughputAtPieces()
    ensures RunText == LatencyLine + TokensLine + ThroughputLit + "157.6" + "\n"
  {
    ThroughputLinePieces();
    ThirdOfThreeShort(LatencyLine, TokensLine, ThroughputLine, ThroughputLit, "157.6");
  }

  lemma ThroughputLinePieces()
    ensures ThroughputLine == ThroughputLit + "157.6" + "\n"
  {
  }

  lemma RunThroughputNotInFirstLine()
    ensures forall j: nat :: j < 24 ==> MatchAt(Throughput, RunText, j).None?
  {
    RunThroughputFirstPieces();
    NoMatchInPiece(Throughput, "", LatencyLine + "to", "tal output tokens: 512\n" + ThroughputLine, 2);
  }

  lemma RunThroughputFirstPieces()
    ensures 'k' !in LatencyLine + "to"
    ensures RunText == "" + (LatencyLine + "to") + ("tal output tokens: 512\n" + ThroughputLine)
  {
    RunThroughputFirstLetters();
    NotInEither('k', LatencyLine, "to");
    TokensLineCutEarly();
    CutSecond(LatencyLine, TokensLine, ThroughputLine, "to", "tal output tokens: 512\n");
  }

  lemma RunThroughputFirstLetters()
    ensures 'k' !in LatencyLine && 'k' !in "to"
  {
  }

  lemma TokensLineCutEarly()
    ensures TokensLine == "to" + "tal output tokens: 512\n"
  {
  }

  lemma RunThroughputNotInSecondLine()
    ensures forall j: nat :: 24 <= j < 49 ==> MatchAt(Throughput, RunText, j).None?
  {
    RunThroughputSecondCut();
    NoMatchInPiece(Throughput, LatencyLine + "total output ", "tokens: 512\n" + "tokens per se", "cond: 157.6\n", 13);
  }

  lemma RunThroughputSecondCut()
    ensures 'c' !in "tokens: 512\n" + "tokens per se"
    ensures RunText == (LatencyLine + "total output ") + ("tokens: 512\n" + "tokens per se") + "cond: 157.6\n"
  {
    RunThroughputSecondLetters();
    NotInEither('c', "tokens: 512\n", "tokens per se");
    TokensLineCutLate();
    ThroughputLineCut();
    CutSecondAndThird(LatencyLine, TokensLine, ThroughputLine, "total output ", "tokens: 512\n", "tokens per se", "cond: 157.6\n");
  }

  lemma RunThroughputSecondLetters()
    ensures 'c' !in "tokens: 512\n" && 'c' !in "tokens per se"
  {
  }

  lemma TokensLineCutLate()
    ensures TokensLine == "total output " + "tokens: 512\n"
  {
  }

  lemma ThroughputLineCut()
    ensures ThroughputLine == "tokens per se" + "cond: 157.6\n"
  {
  }

  lemma RunThroughputMatch()
    ensures SearchFirst(Throughput, RunText) == Some(Match(49, 73, ["157.6"]))
  {
    RunThroughputAt();
    RunThroughputNotInFirstLine();
    RunThroughputNotInSecondLine();
    assert IsLeftmost(Throughput, RunText, 49);
  }

  lemma RunNoTimeBeforeR()
    ensures forall j: nat :: j < 58 ==> MatchAt(Time, RunText, j).None?
  {
    var x, y := LatencyLine + TokensLine + "tokens pe", "r second: 157.6\n";
    RunRLetters();
    NotInEither('r', LatencyLine, TokensLine);
    NotInEither('r', LatencyLine + TokensLine, "tokens pe");
    ThroughputLineAtR();
    CutThird(LatencyLine, TokensLine, ThroughputLine, "tokens pe", "r second: 157.6\n");
    NoMatchInPiece(Time, "", x, y, 0);
  }

  lemma RunNoTimeAfterR()
    ensures forall j: nat :: 58 < j < |RunText| ==> MatchAt(Time, RunText, j).None?
  {
    var x, y := LatencyLine + TokensLine + "tokens per", " second: 157.6\n";
    RunRLetters();
    ThroughputLineAfterR();
    CutThird(LatencyLine, TokensLine, ThroughputLine, "tokens per", " second: 157.6\n");
    NoMatchInPiece(Time, x, y, "", 0);
  }

  lemma RunRLetters()
    ensures 'r' !in LatencyLine && 'r' !in TokensLine && 'r' !in "tokens pe" && 'r' !in " second: 157.6\n"
  {
  }

  lemma ThroughputLineAtR()
    ensures ThroughputLine == "tokens pe" + "r second: 157.6\n"
  {
  }

  lemma ThroughputLineAfterR()
    ensures ThroughputLine == "tokens per" + " second: 157.6\n"
  {
  }

  lemma RunNoTimeAtR()
    ensures |RunText| == 74 && MatchAt(Time, RunText, 58).None? && MatchAt(Time, RunText, 74).None?
  {
    assert RunText[59] == ' ';
    MismatchNoMatch(Time, RunText, 58, 1);
    MismatchNoMatch(Time, RunText, 74, 0);
  }

  lemma RunNoTimeAnywhere()
    ensures NoMatchFrom(Time, RunText, 0)
  {
    RunNoTimeBeforeR();
    RunNoTimeAfterR();
    RunNoTimeAtR();
    NoMatchAround(Time, RunText, 58);
  }

  lemma RunNoTime()
    ensures ExecTime(RunText) == Ok(None)
  {
    RunNoTimeAnywhere();
  }

  lemma RunTextLetters()
    ensures 'g' !in RunText
  {
    RunLineLetters();
    NotInEither('g', LatencyLine, TokensLine);
    NotInEither('g', LatencyLine + TokensLine, ThroughputLine);
  }

  lemma RunLineLetters()
    ensures 'g' !in LatencyLine && 'g' !in TokensLine && 'g' !in ThroughputLine
  {
  }

  lemma RunNoScores()
    ensures ParseFloats(ScoreTokens(RunText)) == Ok([])
  {
    RunTextLetters();
    NoMatchWithout(Rouge, RunText, 3);
  }

  lemma RunLatency()
    ensures FloatOfMatch(Latency, SearchFirst(Latency, RunText)) == Ok(Some(3.25))
  {
    RunLatencyMatch();
    ThreePointTwoFive();
  }

  lemma RunTokens()
    ensures TotalTokens(RunText) == Ok(Some(512))
  {
    RunTokensMatch();
    FiveTwelve();
  }

  lemma RunThroughput()
    ensures FloatOfMatch(Throughput, SearchFirst(Throughput, RunText)) == Ok(Some(157.6))
  {
    RunThroughputMatch();
    OneFiftySevenPointSix();
  }

  /** Latency, token count and throughput lines together: each field holds its own line's value. */
  lemma RunMetrics()
    ensures ParseOutput(RunText) == Ok(Metrics(None, [], Some(3.25), Some(512), Some(157.6)))
  {
    RunNoTime();
    RunNoScores();
    RunLatency();
    RunTokens();
    RunThroughput();
    Assemble(RunText, None, [], Some(3.25), Some(512), Some(157.6));
  }

  // ---------------------------------------------------------------------------
  // Captures `float()` rejects.
  // ---------------------------------------------------------------------------

  const BadLatencyText := "total latency: 1.2.3 sec"

  lemma TwoDotsToken()
    ensures IsDecimalToken("1.2.3") && ParseFloat("1.2.3") == Err(InvalidFloat("1.2.3"))
  {
    var s := "1.2.3";
    forall j | 0 <= j < |s| ensures InClass(DigitOrDot, s[j]) {
      assert j == 0 || j == 1 || j == 2 || j == 3 || j == 4;
    }
    TwoDotsRejected(s, 1, 3);
  }

  lemma BadLatencyMatch()
    ensures FloatOfMatch(Latency, SearchFirst(Latency, BadLatencyText)) == Err(InvalidFloat("1.2.3"))
  {
    TwoDotsToken();
    assert BadLatencyText == "" + LatencyLit + "1.2.3" + LatencyUnit + "";
    LatencyMatchOf(BadLatencyText, "", "1.2.3", "");
    assert IsLeftmost(Latency, BadLatencyText, 0);
  }

  lemma BadLatencyLetters()
    ensures 'r' !in BadLatencyText
  {
  }

  /** Without an `r`, neither the time nor the score pattern matches. */
  lemma BeforeLatencyKnown(t: string)
    requires 'r' !in t
    ensures ExecTime(t) == Ok(None)
    ensures ParseFloats(ScoreTokens(t)) == Ok([])
  {
    NoMatchWithout(Time, t, 0);
    NoMatchWithout(Rouge, t, 0);
  }

  /** A latency with two dots is a ValueError of `float()`, not a missing field. */
  lemma BadLatencyRaises()
    ensures ParseOutput(BadLatencyText) == Err(InvalidFloat("1.2.3"))
  {
    BadLatencyMatch();
    BadLatencyLetters();
    BeforeLatencyKnown(BadLatencyText);
    LatencyRaises(BadLatencyText, InvalidFloat("1.2.3"));
  }

  const DotThroughputText := "tokens per second: ."

  lemma DotThroughputMatch()
    ensures FloatOfMatch(Throughput, SearchFirst(Throughput, DotThroughputText)) == Err(InvalidFloat("."))
  {
    DotsOnlyRejected(".");
    assert DotThroughputText == "" + ThroughputLit + "." + "";
    ThroughputMatchOf(DotThroughputText, "", ".", "");
    assert IsLeftmost(Throughput, DotThroughputText, 0);
  }

  lemma DotThroughputLetters()
    ensures 'a' !in DotThroughputText && 'g' !in DotThroughputText
  {
  }

  /** Without an `a` or a `g`, the fields computed before throughput are all empty. */
  lemma BeforeThroughputKnown(t: string)
    requires 'a' !in t && 'g' !in t
    ensures ExecTime(t) == Ok(None)
    ensures ParseFloats(ScoreTokens(t)) == Ok([])
    ensures FloatOfMatch(Latency, SearchFirst(Latency, t)) == Ok(None)
    ensures TotalTokens(t) == Ok(None)
  {
    NoMatchWithout(Time, t, 2);
    NoMatchWithout(Rouge, t, 3);
    NoMatchWithout(Latency, t, 3);
    NoMatchWithout(Tokens, t, 3);
  }

  /** A throughput of a lone dot is a ValueError of `float()`. */
  lemma DotThroughputRaises()
    ensures ParseOutput(DotThroughputText) == Err(InvalidFloat("."))
  {
    DotThroughputMatch();
    DotThroughputLetters();
    BeforeThroughputKnown(DotThroughputText);
    ThroughputRaises(DotThroughputText, InvalidFloat("."));
  }
}
