/**
 * `parse_output`: the five metrics of one tool run, each found by its own
 * pattern in the same captured text.
 */
module Extract {
  import opened Wrappers
  import opened Lexical
  import opened Decimal
  import opened Patterns
  import opened Search

  /** The 5-tuple `parse_output` returns; `None` marks a metric whose pattern did not match. */
  datatype Metrics = Metrics(
    execTime: Option<real>,
    scores: seq<real>,
    latency: Option<real>,
    totalTokens: Option<nat>,
    tokensPerSecond: Option<real>)

  /** One conversion `parse_output` applies to what a pattern captured. */
  datatype Conversion =
    | ToInt(digits: string)   // `int()` of a `\d+` capture
    | ToFloat(token: string)  // `float()` of a `[\d.]+` capture
    | Widen(n: nat)           // the int `minutes * 60` made a float to add `seconds`

  /** Whether Python performs the conversion without raising. */
  predicate Accepted(c: Conversion) {
    match c
    case ToInt(s) => |s| <= MaxStrDigits
    case ToFloat(s) => IsFloatLiteral(s)
    case Widen(n) => n < FloatOverflow
  }

  /** The exception a conversion raises when it is not accepted. */
  function Rejection(c: Conversion): (e: ParseError) {
    match c
    case ToInt(s) => TooManyDigits(s)
    case ToFloat(s) => InvalidFloat(s)
    case Widen(n) => IntTooLarge(n)
  }

  /** Number of leading conversions that succeed: all of them accepted, the next one rejected. */
  function FirstRejected(cs: seq<Conversion>): (n: nat)
    ensures n <= |cs|
    ensures forall k :: 0 <= k < n ==> Accepted(cs[k])
    ensures n < |cs| ==> !Accepted(cs[n])
  {
    if cs == [] || !Accepted(cs[0]) then 0 else 1 + FirstRejected(cs[1..])
  }

  /** Performing the conversions in order: nothing raised, or the exception of the first that fails. */
  function Outcome(cs: seq<Conversion>): (r: Result<(), ParseError>) {
    var n := FirstRejected(cs);
    if n == |cs| then Ok(()) else Err(Rejection(cs[n]))
  }

  /** Whether a computation raised, and what. */
  function Status<T>(r: Result<T, ParseError>): (s: Result<(), ParseError>) {
    match r
    case Ok(_) => Ok(())
    case Err(e) => Err(e)
  }

  /** `float()` applied to each token in turn. */
  function AsFloats(toks: seq<string>): (cs: seq<Conversion>)
    ensures |cs| == |toks| && forall k :: 0 <= k < |toks| ==> cs[k] == ToFloat(toks[k])
  {
    seq(|toks|, k requires 0 <= k < |toks| => ToFloat(toks[k]))
  }

  /**
   * `[float(x) for x in toks]`: the value of every token in order, or the
   * ValueError of the first token `float()` rejects.
   */
  function ParseFloats(toks: seq<string>): (r: Result<seq<real>, ParseError>)
    requires AllDecimalTokens(toks)
    ensures r.Ok? <==> FirstRejected(AsFloats(toks)) == |toks|
    ensures r.Ok? ==> |r.value| == |toks| && forall k :: 0 <= k < |toks| ==> r.value[k] == DecimalValue(toks[k])
    ensures r.Err? ==> FirstRejected(AsFloats(toks)) < |toks| && r.error == InvalidFloat(toks[FirstRejected(AsFloats(toks))])
  {
    if toks == [] then Ok([])
    else
      assert AsFloats(toks)[1..] == AsFloats(toks[1..]);
      match ParseFloat(toks[0])
      case Err(e) => Err(e)
      case Ok(v) =>
        match ParseFloats(toks[1..])
        case Err(e) => Err(e)
        case Ok(vs) => Ok([v] + vs)
  }

  /**
   * `minutes * 60 + seconds` of an execution-time match (benchmark.py:54-56):
   * `int()` of the minutes, `float()` of the seconds, then the int product made
   * a float for the addition; the first of them to fail raises.
   */
  function TimeSeconds(m: Match): (r: Result<real, ParseError>)
    requires WellCaptured(Time, m)
  {
    var minutes :- ParseNat(m.groups[0]);
    var seconds :- ParseFloat(m.groups[1]);
    var whole :- IntToFloat(minutes * 60);
    Ok(whole + seconds)
  }

  /** `float(match.group(1)) if match else None` for a one-group decimal pattern. */
  function FloatOfMatch(p: Pattern, m: Option<Match>): (r: Result<Option<real>, ParseError>)
    requires p == Latency || p == Throughput || p == Rouge
    requires m.Some? ==> WellCaptured(p, m.value)
  {
    match m
    case None => Ok(None)
    case Some(mt) =>
      var v :- ParseFloat(mt.groups[0]);
      Ok(Some(v))
  }

  /** `re.findall` of the score pattern: the captured decimal of each match. */
  function ScoreTokens(t: string): (r: seq<string>)
    ensures |r| == |FindAll(Rouge, t, 0)|
    ensures forall k :: 0 <= k < |r| ==> r[k] == FindAll(Rouge, t, 0)[k].groups[0]
    ensures AllDecimalTokens(r)
  {
    var ms := FindAll(Rouge, t, 0);
    seq(|ms|, k requires 0 <= k < |ms| => ms[k].groups[0])
  }

  /** The execution time: `None` without a time match (benchmark.py:52-58). */
  function ExecTime(t: string): (r: Result<Option<real>, ParseError>) {
    match SearchFirst(Time, t)
    case None => Ok(None)
    case Some(m) =>
      var v :- TimeSeconds(m);
      Ok(Some(v))
  }

  /** `int(match.group(1)) if match else None` for the token count (benchmark.py:66-67). */
  function TotalTokens(t: string): (r: Result<Option<nat>, ParseError>) {
    match SearchFirst(Tokens, t)
    case None => Ok(None)
    case Some(m) =>
      var n :- ParseNat(m.groups[0]);
      Ok(Some(n))
  }

  /**
   * `parse_output(output)`. The fields are computed in the source's order;
   * the exception of the first conversion that fails propagates.
   */
  function ParseOutput(t: string): (r: Result<Metrics, ParseError>) {
    var execTime :- ExecTime(t);
    var scores :- ParseFloats(ScoreTokens(t));
    var latency :- FloatOfMatch(Latency, SearchFirst(Latency, t));
    var tokens :- TotalTokens(t);
    var throughput :- FloatOfMatch(Throughput, SearchFirst(Throughput, t));
    Ok(Metrics(execTime, scores, latency, tokens, throughput))
  }

  // ---------------------------------------------------------------------------
  // What parse_output computes, field by field.
  // ---------------------------------------------------------------------------

  predicate AllDecimalTokens(toks: seq<string>) {
    forall k :: 0 <= k < |toks| ==> IsDecimalToken(toks[k])
  }

  lemma DecimalTokensConcat(a: seq<string>, b: seq<string>)
    requires AllDecimalTokens(a) && AllDecimalTokens(b)
    ensures AllDecimalTokens(a + b)
  {
    forall k | 0 <= k < |a + b| ensures IsDecimalToken((a + b)[k]) {
      if k < |a| { assert (a + b)[k] == a[k]; } else { assert (a + b)[k] == b[k - |a|]; }
    }
  }

  /** The conversions the source applies to a match of `p`. */
  function MatchConversions(p: Pattern, m: Match): (cs: seq<Conversion>)
    requires p != Rouge && WellCaptured(p, m)
  {
    if p == Time then [ToInt(m.groups[0]), ToFloat(m.groups[1]), Widen(DigitsValue(m.groups[0]) * 60)]
    else if p == Tokens then [ToInt(m.groups[0])]
    else [ToFloat(m.groups[0])]
  }

  /** The conversions the source applies to the leftmost match of `p`, if there is one. */
  function LeftmostConversions(p: Pattern, t: string): (cs: seq<Conversion>)
    requires p != Rouge
  {
    match SearchFirst(p, t)
    case None => []
    case Some(m) => MatchConversions(p, m)
  }

  /**
   * Every conversion `parse_output` performs, in the source's order: the
   * minutes, seconds and product of the time match, every score, the latency,
   * the token count, the throughput.
   */
  function Conversions(t: string): (cs: seq<Conversion>) {
    LeftmostConversions(Time, t) + AsFloats(ScoreTokens(t)) + LeftmostConversions(Latency, t)
      + LeftmostConversions(Tokens, t) + LeftmostConversions(Throughput, t)
  }

  /** Text in which none of the five patterns matches. */
  predicate NoPattern(t: string) {
    forall p :: NoMatchFrom(p, t, 0)
  }

  /** Text with no recognisable pattern, the empty text included, yields `(None, [], None, None, None)`. */
  lemma NoPatternAllAbsent(t: string)
    requires NoPattern(t)
    ensures ParseOutput(t) == Ok(Metrics(None, [], None, None, None))
  {
    assert NoMatchFrom(Time, t, 0) && NoMatchFrom(Rouge, t, 0) && NoMatchFrom(Latency, t, 0);
    assert NoMatchFrom(Tokens, t, 0) && NoMatchFrom(Throughput, t, 0);
  }

  lemma EmptyTextAllAbsent()
    ensures ParseOutput("") == Ok(Metrics(None, [], None, None, None))
  {
    forall p: Pattern ensures NoMatchFrom(p, "", 0) {
      assert MatchAt(p, "", 0).None?;
    }
    NoPatternAllAbsent("");
  }

  /** Converting two token lists in sequence is converting their concatenation. */
  lemma {:induction false} ParseFloatsConcat(a: seq<string>, b: seq<string>)
    requires AllDecimalTokens(a) && AllDecimalTokens(b)
    ensures AllDecimalTokens(a + b)
    ensures ParseFloats(a + b) ==
      match ParseFloats(a)
      case Err(e) => Err(e)
      case Ok(va) =>
        match ParseFloats(b)
        case Err(e) => Err(e)
        case Ok(vb) => Ok(va + vb)
  {
    DecimalTokensConcat(a, b);
    if a == [] {
      assert a + b == b;
      if ParseFloats(b).Ok? {
        assert [] + ParseFloats(b).value == ParseFloats(b).value;
      }
    } else {
      assert (a + b)[0] == a[0] && (a + b)[1..] == a[1..] + b;
      assert ParseFloats(a + b) ==
        match ParseFloat(a[0])
        case Err(e) => Err(e)
        case Ok(v) =>
          match ParseFloats(a[1..] + b)
          case Err(e) => Err(e)
          case Ok(vs) => Ok([v] + vs);
      ParseFloatsConcat(a[1..], b);
      if ParseFloat(a[0]).Ok? && ParseFloats(a[1..]).Ok? && ParseFloats(b).Ok? {
        var v, va, vb := ParseFloat(a[0]).value, ParseFloats(a[1..]).value, ParseFloats(b).value;
        assert [v] + (va + vb) == ([v] + va) + vb;
      }
    }
  }

  /** The index with every earlier conversion accepted and itself rejected (or past the end) is the first rejected. */
  lemma FirstRejectedAt(cs: seq<Conversion>, n: nat)
    requires n <= |cs|
    requires forall k :: 0 <= k < n ==> Accepted(cs[k])
    requires n < |cs| ==> !Accepted(cs[n])
    ensures FirstRejected(cs) == n
  {
  }

  /** Performing `a` and then `b` raises what `a` raises, or else what `b` raises. */
  lemma OutcomeConcat(a: seq<Conversion>, b: seq<Conversion>)
    ensures Outcome(a + b) == if Outcome(a).Err? then Outcome(a) else Outcome(b)
  {
    var n, m := FirstRejected(a), FirstRejected(b);
    if n < |a| {
      assert (a + b)[n] == a[n];
      assert forall k :: 0 <= k < n ==> (a + b)[k] == a[k];
      FirstRejectedAt(a + b, n);
    } else {
      assert forall k :: 0 <= k < |a| ==> (a + b)[k] == a[k];
      assert forall k :: |a| <= k < |a| + m ==> (a + b)[k] == b[k - |a|];
      assert |a| + m < |a + b| ==> (a + b)[|a| + m] == b[m];
      FirstRejectedAt(a + b, |a| + m);
    }
  }

  /** One conversion raises exactly when it is not accepted. */
  lemma OutcomeOfOne(c: Conversion)
    ensures Outcome([c]) == if Accepted(c) then Ok(()) else Err(Rejection(c))
  {
    if Accepted(c) {
      FirstRejectedAt([c], 1);
    } else {
      FirstRejectedAt([c], 0);
    }
  }

  /** Three conversions raise at the first of them that is not accepted. */
  lemma OutcomeOfThree(c0: Conversion, c1: Conversion, c2: Conversion)
    ensures Outcome([c0, c1, c2]) ==
      if !Accepted(c0) then Err(Rejection(c0))
      else if !Accepted(c1) then Err(Rejection(c1))
      else if !Accepted(c2) then Err(Rejection(c2))
      else Ok(())
  {
    var cs := [c0, c1, c2];
    if !Accepted(c0) {
      FirstRejectedAt(cs, 0);
    } else if !Accepted(c1) {
      FirstRejectedAt(cs, 1);
    } else if !Accepted(c2) {
      FirstRejectedAt(cs, 2);
    } else {
      FirstRejectedAt(cs, 3);
    }
  }

  /** `minutes * 60 + seconds` raises at the first failing step of its three conversions. */
  lemma TimeSecondsConverts(m: Match)
    requires WellCaptured(Time, m)
    ensures Status(TimeSeconds(m)) == Outcome(MatchConversions(Time, m))
  {
    OutcomeOfThree(ToInt(m.groups[0]), ToFloat(m.groups[1]), Widen(DigitsValue(m.groups[0]) * 60));
  }

  /**
   * The execution time raises at the first failing step of `int()` of the
   * minutes, `float()` of the seconds and the float of `minutes * 60`.
   */
  lemma ExecTimeConverts(t: string)
    ensures Status(ExecTime(t)) == Outcome(LeftmostConversions(Time, t))
  {
    if SearchFirst(Time, t).Some? {
      TimeSecondsConverts(SearchFirst(Time, t).value);
    }
  }

  /** A one-group decimal field raises exactly as `float()` on its token does. */
  lemma FloatOfMatchConverts(p: Pattern, t: string)
    requires p == Latency || p == Throughput
    ensures Status(FloatOfMatch(p, SearchFirst(p, t))) == Outcome(LeftmostConversions(p, t))
  {
    if SearchFirst(p, t).Some? {
      FloatOfCaptureConverts(p, SearchFirst(p, t).value);
    }
  }

  /** `float()` of the one group of a match raises exactly when its conversion is rejected. */
  lemma FloatOfCaptureConverts(p: Pattern, m: Match)
    requires p == Latency || p == Throughput
    requires WellCaptured(p, m)
    ensures Status(FloatOfMatch(p, Some(m))) == Outcome(MatchConversions(p, m))
  {
    OutcomeOfOne(ToFloat(m.groups[0]));
  }

  /** The token count raises exactly as `int()` on its digits does. */
  lemma TotalTokensConverts(t: string)
    ensures Status(TotalTokens(t)) == Outcome(LeftmostConversions(Tokens, t))
  {
    if SearchFirst(Tokens, t).Some? {
      OutcomeOfOne(ToInt(SearchFirst(Tokens, t).value.groups[0]));
    }
  }

  /** The scores raise exactly as `float()` on the first rejected score token does. */
  lemma ScoresConvert(t: string)
    ensures Status(ParseFloats(ScoreTokens(t))) == Outcome(AsFloats(ScoreTokens(t)))
  {
  }

  /**
   * Extraction succeeds exactly when every conversion the source performs is
   * accepted; otherwise it raises the exception of the first rejected one in
   * the source's order. A missing pattern never makes it raise.
   */
  lemma ParseOutputRaises(t: string)
    ensures var cs := Conversions(t);
      && (ParseOutput(t).Ok? <==> FirstRejected(cs) == |cs|)
      && (ParseOutput(t).Err? ==> ParseOutput(t).error == Rejection(cs[FirstRejected(cs)]))
  {
    var time, scores := LeftmostConversions(Time, t), AsFloats(ScoreTokens(t));
    var latency, tokens := LeftmostConversions(Latency, t), LeftmostConversions(Tokens, t);
    var throughput := LeftmostConversions(Throughput, t);
    ExecTimeConverts(t);
    ScoresConvert(t);
    FloatOfMatchConverts(Latency, t);
    TotalTokensConverts(t);
    FloatOfMatchConverts(Throughput, t);
    OutcomeConcat(time, scores);
    OutcomeConcat(time + scores, latency);
    OutcomeConcat(time + scores + latency, tokens);
    OutcomeConcat(time + scores + latency + tokens, throughput);
    assert Status(ParseOutput(t)) == Outcome(Conversions(t));
  }

  /**
   * Minutes within the digit limit whose product with 60 is beyond the range
   * of a double make `parse_output` raise OverflowError whatever else the text
   * holds, as with `real 3` followed by 306 zeros and `m0s`.
   */
  lemma TimeOverflowRaises(t: string)
    requires SearchFirst(Time, t).Some?
    requires var g := SearchFirst(Time, t).value.groups;
      |g[0]| <= MaxStrDigits && IsFloatLiteral(g[1]) && DigitsValue(g[0]) * 60 >= FloatOverflow
    ensures ParseOutput(t) == Err(IntTooLarge(DigitsValue(SearchFirst(Time, t).value.groups[0]) * 60))
  {
    TimeSecondsConverts(SearchFirst(Time, t).value);
  }

  /**
   * A token count longer than the digit limit, as `total output tokens: `
   * followed by 4301 ones, makes `parse_output` raise the ValueError of `int()`
   * once the fields computed before it have succeeded.
   */
  lemma LongTokenCountRaises(t: string)
    requires ExecTime(t).Ok? && ParseFloats(ScoreTokens(t)).Ok?
    requires FloatOfMatch(Latency, SearchFirst(Latency, t)).Ok?
    requires SearchFirst(Tokens, t).Some? && |SearchFirst(Tokens, t).value.groups[0]| > MaxStrDigits
    ensures ParseOutput(t) == Err(TooManyDigits(SearchFirst(Tokens, t).value.groups[0]))
  {
  }

  /** A successful extraction is made of the five field computations, each successful. */
  lemma ParseOutputOk(t: string)
    requires ParseOutput(t).Ok?
    ensures ExecTime(t).Ok? && ParseFloats(ScoreTokens(t)).Ok?
    ensures FloatOfMatch(Latency, SearchFirst(Latency, t)).Ok? && TotalTokens(t).Ok?
    ensures FloatOfMatch(Throughput, SearchFirst(Throughput, t)).Ok?
    ensures ParseOutput(t).value == Metrics(
      ExecTime(t).value, ParseFloats(ScoreTokens(t)).value,
      FloatOfMatch(Latency, SearchFirst(Latency, t)).value, TotalTokens(t).value,
      FloatOfMatch(Throughput, SearchFirst(Throughput, t)).value)
  {
  }

  /**
   * Execution time is `minutes * 60 + seconds` of the leftmost time match, and
   * `None` exactly when the time pattern matches nowhere (benchmark.py:52-58).
   */
  lemma ExecTimeField(t: string)
    requires ParseOutput(t).Ok?
    ensures ParseOutput(t).value.execTime.None? <==> NoMatchFrom(Time, t, 0)
    ensures forall i: nat :: IsLeftmost(Time, t, i) ==>
      var g := MatchAt(Time, t, i).value.groups;
      |g[0]| <= MaxStrDigits && IsFloatLiteral(g[1]) && DigitsValue(g[0]) * 60 < FloatOverflow &&
      ParseOutput(t).value.execTime.Some? &&
      ParseOutput(t).value.execTime.value == DigitsValue(g[0]) as real * 60.0 + DecimalValue(g[1])
  {
    ParseOutputOk(t);
  }

  /**
   * The scores are the values of the decimals captured at every position where
   * the score pattern matches, in text order (benchmark.py:60-61).
   */
  lemma ScoresField(t: string)
    requires ParseOutput(t).Ok?
    ensures var s, ms := ParseOutput(t).value.scores, EveryMatch(Rouge, t, 0);
      |s| == |ms| &&
      forall k :: 0 <= k < |ms| ==> IsFloatLiteral(ms[k].groups[0]) && s[k] == DecimalValue(ms[k].groups[0])
  {
    ParseOutputOk(t);
    RougeFindAllIsEveryMatch(t);
  }

  /** Latency is the value the leftmost latency match captures, or `None` (benchmark.py:63-64). */
  lemma LatencyField(t: string)
    requires ParseOutput(t).Ok?
    ensures ParseOutput(t).value.latency.None? <==> NoMatchFrom(Latency, t, 0)
    ensures forall i: nat :: IsLeftmost(Latency, t, i) ==>
      var g := MatchAt(Latency, t, i).value.groups;
      IsFloatLiteral(g[0]) && ParseOutput(t).value.latency == Some(DecimalValue(g[0]))
  {
    ParseOutputOk(t);
  }

  /** Total tokens is the number the leftmost token-count match captures, or `None` (benchmark.py:66-67). */
  lemma TotalTokensField(t: string)
    requires ParseOutput(t).Ok?
    ensures ParseOutput(t).value.totalTokens.None? <==> NoMatchFrom(Tokens, t, 0)
    ensures forall i: nat :: IsLeftmost(Tokens, t, i) ==>
      var g := MatchAt(Tokens, t, i).value.groups;
      |g[0]| <= MaxStrDigits && ParseOutput(t).value.totalTokens == Some(DigitsValue(g[0]))
  {
    ParseOutputOk(t);
  }

  /** Throughput is the value the leftmost throughput match captures, or `None` (benchmark.py:69-70). */
  lemma ThroughputField(t: string)
    requires ParseOutput(t).Ok?
    ensures ParseOutput(t).value.tokensPerSecond.None? <==> NoMatchFrom(Throughput, t, 0)
    ensures forall i: nat :: IsLeftmost(Throughput, t, i) ==>
      var g := MatchAt(Throughput, t, i).value.groups;
      IsFloatLiteral(g[0]) && ParseOutput(t).value.tokensPerSecond == Some(DecimalValue(g[0]))
  {
    ParseOutputOk(t);
  }
}
