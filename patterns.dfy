/**
 * The five regular expressions of `parse_output`, each written out as an
 * anchored matcher `MatchAt(p, t, i)` that plays the part of the regex engine
 * trying the pattern at position `i`. Every `+` run in these patterns is
 * followed by a character outside its class or ends the pattern, so backtracking
 * never shortens a run: the greedy engine's match is built from maximal runs.
 * The `...Shape` predicates state the patterns as regular expressions (any split
 * of the text that fits them); the lemmas below connect the two.
 */
module Patterns {
  import opened Wrappers
  import opened Lexical
  import opened Decimal

  datatype Pattern =
    | Time        // real\s+(\d+)m([\d.]+)s
    | Rouge       // rouge[12Lsum]+ : ([\d.]+)
    | Latency     // total latency: ([\d.]+) sec
    | Tokens      // total output tokens: (\d+)
    | Throughput  // tokens per second: ([\d.]+)

  /** A match object: its span `[start, end)` and the text of each group. */
  datatype Match = Match(start: nat, end: nat, groups: seq<string>)

  const TimeLit := "real"
  const RougeLit := "rouge"
  const RougeSep := " : "
  const LatencyLit := "total latency: "
  const LatencyUnit := " sec"
  const TokensLit := "total output tokens: "
  const ThroughputLit := "tokens per second: "

  /** The groups of a match of `p` hold what their classes allow. */
  predicate WellCaptured(p: Pattern, m: Match) {
    match p
    case Time =>
      |m.groups| == 2 && |m.groups[0]| >= 1 && AllDigits(m.groups[0]) && IsDecimalToken(m.groups[1])
    case Tokens =>
      |m.groups| == 1 && |m.groups[0]| >= 1 && AllDigits(m.groups[0])
    case _ =>
      |m.groups| == 1 && IsDecimalToken(m.groups[0])
  }

  /** The match the regex engine finds for `p` anchored at position `i`, if any. */
  function MatchAt(p: Pattern, t: string, i: nat): (r: Option<Match>)
    requires i <= |t|
    ensures r.Some? ==> r.value.start == i < r.value.end <= |t| && WellCaptured(p, r.value)
  {
    match p
    case Time => TimeAt(t, i)
    case Rouge => RougeAt(t, i)
    case Latency => LatencyAt(t, i)
    case Tokens => TokensAt(t, i)
    case Throughput => ThroughputAt(t, i)
  }

  function TimeAt(t: string, i: nat): (r: Option<Match>)
    requires i <= |t|
    ensures r.Some? ==> r.value.start == i < r.value.end <= |t| && WellCaptured(Time, r.value)
  {
    if !LitAt(t, i, TimeLit) then None else
    var a := RunEnd(t, i + |TimeLit|, Space);
    var b := RunEnd(t, a, Digit);
    if a == i + |TimeLit| || b == a || b == |t| || t[b] != 'm' then None else
    var c := RunEnd(t, b + 1, DigitOrDot);
    if c == b + 1 || c == |t| || t[c] != 's' then None else
    RunSlice(t, a, b, Digit);
    RunSlice(t, b + 1, c, DigitOrDot);
    Some(Match(i, c + 1, [t[a..b], t[b + 1..c]]))
  }

  function RougeAt(t: string, i: nat): (r: Option<Match>)
    requires i <= |t|
    ensures r.Some? ==> r.value.start == i < r.value.end <= |t| && WellCaptured(Rouge, r.value)
  {
    if !LitAt(t, i, RougeLit) then None else
    var a := RunEnd(t, i + |RougeLit|, Label);
    if a == i + |RougeLit| || !LitAt(t, a, RougeSep) then None else
    var b := RunEnd(t, a + |RougeSep|, DigitOrDot);
    if b == a + |RougeSep| then None else
    RunSlice(t, a + |RougeSep|, b, DigitOrDot);
    Some(Match(i, b, [t[a + |RougeSep|..b]]))
  }

  function LatencyAt(t: string, i: nat): (r: Option<Match>)
    requires i <= |t|
    ensures r.Some? ==> r.value.start == i < r.value.end <= |t| && WellCaptured(Latency, r.value)
  {
    if !LitAt(t, i, LatencyLit) then None else
    var a := RunEnd(t, i + |LatencyLit|, DigitOrDot);
    if a == i + |LatencyLit| || !LitAt(t, a, LatencyUnit) then None else
    RunSlice(t, i + |LatencyLit|, a, DigitOrDot);
    Some(Match(i, a + |LatencyUnit|, [t[i + |LatencyLit|..a]]))
  }

  function TokensAt(t: string, i: nat): (r: Option<Match>)
    requires i <= |t|
    ensures r.Some? ==> r.value.start == i < r.value.end <= |t| && WellCaptured(Tokens, r.value)
  {
    if !LitAt(t, i, TokensLit) then None else
    var a := RunEnd(t, i + |TokensLit|, Digit);
    if a == i + |TokensLit| then None else
    RunSlice(t, i + |TokensLit|, a, Digit);
    Some(Match(i, a, [t[i + |TokensLit|..a]]))
  }

  function ThroughputAt(t: string, i: nat): (r: Option<Match>)
    requires i <= |t|
    ensures r.Some? ==> r.value.start == i < r.value.end <= |t| && WellCaptured(Throughput, r.value)
  {
    if !LitAt(t, i, ThroughputLit) then None else
    var a := RunEnd(t, i + |ThroughputLit|, DigitOrDot);
    if a == i + |ThroughputLit| then None else
    RunSlice(t, i + |ThroughputLit|, a, DigitOrDot);
    Some(Match(i, a, [t[i + |ThroughputLit|..a]]))
  }

  // ---------------------------------------------------------------------------
  // The patterns as regular expressions: every split of the text that fits.
  // ---------------------------------------------------------------------------

  /** `real`, `\s+` on `[i+4, a)`, `(\d+)` on `[a, b)`, `m`, `([\d.]+)` on `[b+1, c)`, `s`. */
  predicate TimeShape(t: string, i: nat, a: nat, b: nat, c: nat) {
    && LitAt(t, i, TimeLit)
    && i + |TimeLit| < a < b && b + 1 < c < |t|
    && RunOf(t, i + |TimeLit|, a, Space) && RunOf(t, a, b, Digit) && t[b] == 'm'
    && RunOf(t, b + 1, c, DigitOrDot) && t[c] == 's'
  }

  /** `rouge`, `[12Lsum]+` on `[i+5, a)`, ` : `, `([\d.]+)` on `[a+3, b)`. */
  predicate RougeShape(t: string, i: nat, a: nat, b: nat) {
    && LitAt(t, i, RougeLit)
    && i + |RougeLit| < a && LitAt(t, a, RougeSep) && RunOf(t, i + |RougeLit|, a, Label)
    && a + |RougeSep| < b <= |t| && RunOf(t, a + |RougeSep|, b, DigitOrDot)
  }

  /** `total latency: `, `([\d.]+)` on `[i+15, a)`, ` sec`. */
  predicate LatencyShape(t: string, i: nat, a: nat) {
    && LitAt(t, i, LatencyLit)
    && i + |LatencyLit| < a && LitAt(t, a, LatencyUnit) && RunOf(t, i + |LatencyLit|, a, DigitOrDot)
  }

  /** `total output tokens: `, `(\d+)` on `[i+21, a)`. */
  predicate TokensShape(t: string, i: nat, a: nat) {
    && LitAt(t, i, TokensLit)
    && i + |TokensLit| < a <= |t| && RunOf(t, i + |TokensLit|, a, Digit)
  }

  /** `tokens per second: `, `([\d.]+)` on `[i+19, a)`. */
  predicate ThroughputShape(t: string, i: nat, a: nat) {
    && LitAt(t, i, ThroughputLit)
    && i + |ThroughputLit| < a <= |t| && RunOf(t, i + |ThroughputLit|, a, DigitOrDot)
  }

  /** Any way the time pattern fits at `i` is the one match the engine returns. */
  lemma TimeShapeMatches(t: string, i: nat, a: nat, b: nat, c: nat)
    requires i <= |t| && TimeShape(t, i, a, b, c)
    ensures MatchAt(Time, t, i) == Some(Match(i, c + 1, [t[a..b], t[b + 1..c]]))
  {
    assert !InClass(Space, t[a]) by { assert IsDigit(t[a]); }
    RunEndUnique(t, i + |TimeLit|, a, Space);
    RunEndUnique(t, a, b, Digit);
    RunEndUnique(t, b + 1, c, DigitOrDot);
  }

  /** The engine's time match is a split the pattern allows. */
  lemma TimeMatchFits(t: string, i: nat)
    requires i <= |t| && MatchAt(Time, t, i).Some?
    ensures var m := MatchAt(Time, t, i).value;
      var c := m.end - 1;
      var b := c - |m.groups[1]| - 1;
      var a := b - |m.groups[0]|;
      a >= 0 && TimeShape(t, i, a, b, c) && m.groups == [t[a..b], t[b + 1..c]]
  {
  }

  /** Any way the score pattern fits at `i` is covered by the engine's match, whose capture is the longest. */
  lemma RougeShapeMatches(t: string, i: nat, a: nat, b: nat)
    requires i <= |t| && RougeShape(t, i, a, b)
    ensures MatchAt(Rouge, t, i).Some?
    ensures var m := MatchAt(Rouge, t, i).value;
      b <= m.end && m.groups == [t[a + |RougeSep|..m.end]] &&
      (b == |t| || !InClass(DigitOrDot, t[b]) ==> m.end == b)
  {
    RougeLabelEnds(t, i, a);
    RunEndMaximal(t, a + |RougeSep|, b, DigitOrDot);
    if b == |t| || !InClass(DigitOrDot, t[b]) {
      RunEndUnique(t, a + |RougeSep|, b, DigitOrDot);
    }
  }

  /** The label run of a score line stops at the separator. */
  lemma RougeLabelEnds(t: string, i: nat, a: nat)
    requires i + |RougeLit| <= a && LitAt(t, a, RougeSep) && RunOf(t, i + |RougeLit|, a, Label)
    ensures RunEnd(t, i + |RougeLit|, Label) == a
  {
    assert t[a] == RougeSep[0];
    RunEndUnique(t, i + |RougeLit|, a, Label);
  }

  /** The engine's score match is a split the pattern allows. */
  lemma RougeMatchFits(t: string, i: nat)
    requires i <= |t| && MatchAt(Rouge, t, i).Some?
    ensures var m := MatchAt(Rouge, t, i).value;
      var a := m.end - |m.groups[0]| - |RougeSep|;
      a >= 0 && RougeShape(t, i, a, m.end) && m.groups == [t[a + |RougeSep|..m.end]] &&
      (m.end == |t| || !InClass(DigitOrDot, t[m.end]))
  {
  }

  /** Any way the latency pattern fits at `i` is the one match the engine returns. */
  lemma LatencyShapeMatches(t: string, i: nat, a: nat)
    requires i <= |t| && LatencyShape(t, i, a)
    ensures MatchAt(Latency, t, i) == Some(Match(i, a + |LatencyUnit|, [t[i + |LatencyLit|..a]]))
  {
    assert !InClass(DigitOrDot, t[a]) by { assert t[a] == LatencyUnit[0]; }
    RunEndUnique(t, i + |LatencyLit|, a, DigitOrDot);
  }

  /** The engine's latency match is a split the pattern allows. */
  lemma LatencyMatchFits(t: string, i: nat)
    requires i <= |t| && MatchAt(Latency, t, i).Some?
    ensures var m := MatchAt(Latency, t, i).value;
      var a := m.end - |LatencyUnit|;
      a >= 0 && LatencyShape(t, i, a) && m.groups == [t[i + |LatencyLit|..a]]
  {
  }

  /** Any way the token-count pattern fits at `i` is covered by the engine's match, whose capture is the longest. */
  lemma TokensShapeMatches(t: string, i: nat, a: nat)
    requires i <= |t| && TokensShape(t, i, a)
    ensures MatchAt(Tokens, t, i).Some?
    ensures var m := MatchAt(Tokens, t, i).value;
      a <= m.end && m.groups == [t[i + |TokensLit|..m.end]] &&
      (a == |t| || !IsDigit(t[a]) ==> m.end == a)
  {
    RunEndMaximal(t, i + |TokensLit|, a, Digit);
    if a == |t| || !IsDigit(t[a]) {
      RunEndUnique(t, i + |TokensLit|, a, Digit);
    }
  }

  /** The engine's token-count match is a split the pattern allows. */
  lemma TokensMatchFits(t: string, i: nat)
    requires i <= |t| && MatchAt(Tokens, t, i).Some?
    ensures var m := MatchAt(Tokens, t, i).value;
      TokensShape(t, i, m.end) && m.groups == [t[i + |TokensLit|..m.end]] &&
      (m.end == |t| || !IsDigit(t[m.end]))
  {
  }

  /** Any way the throughput pattern fits at `i` is covered by the engine's match, whose capture is the longest. */
  lemma ThroughputShapeMatches(t: string, i: nat, a: nat)
    requires i <= |t| && ThroughputShape(t, i, a)
    ensures MatchAt(Throughput, t, i).Some?
    ensures var m := MatchAt(Throughput, t, i).value;
      a <= m.end && m.groups == [t[i + |ThroughputLit|..m.end]] &&
      (a == |t| || !InClass(DigitOrDot, t[a]) ==> m.end == a)
  {
    RunEndMaximal(t, i + |ThroughputLit|, a, DigitOrDot);
    if a == |t| || !InClass(DigitOrDot, t[a]) {
      RunEndUnique(t, i + |ThroughputLit|, a, DigitOrDot);
    }
  }

  /** The engine's throughput match is a split the pattern allows. */
  lemma ThroughputMatchFits(t: string, i: nat)
    requires i <= |t| && MatchAt(Throughput, t, i).Some?
    ensures var m := MatchAt(Throughput, t, i).value;
      ThroughputShape(t, i, m.end) && m.groups == [t[i + |ThroughputLit|..m.end]] &&
      (m.end == |t| || !InClass(DigitOrDot, t[m.end]))
  {
  }

  /**
   * No score match starts strictly inside another one: the only `r` a score
   * match contains is its first character.
   */
  lemma RougeMatchesDisjoint(t: string, i: nat, j: nat)
    requires i <= |t| && MatchAt(Rouge, t, i).Some?
    requires i < j < MatchAt(Rouge, t, i).value.end
    ensures MatchAt(Rouge, t, j).None?
  {
    RougeMatchFits(t, i);
    var m := MatchAt(Rouge, t, i).value;
    RougeShapeInnerR(t, i, m.end - |m.groups[0]| - |RougeSep|, m.end, j);
    MismatchNoMatch(Rouge, t, j, 0);
  }

  /** Past its first character, text fitting the score pattern holds no `r`. */
  lemma RougeShapeInnerR(t: string, i: nat, a: nat, b: nat, j: nat)
    requires RougeShape(t, i, a, b) && i < j < b
    ensures t[j] != 'r'
  {
    if j < i + |RougeLit| {
      assert t[j] == RougeLit[j - i];
    } else if j < a {
      assert InClass(Label, t[j]);
    } else if j < a + |RougeSep| {
      assert t[j] == RougeSep[j - a];
    } else {
      assert InClass(DigitOrDot, t[j]);
    }
  }

  // ---------------------------------------------------------------------------
  // Matches in text assembled from pieces.
  // ---------------------------------------------------------------------------

  /** The literal every match of `p` starts with. */
  function Lead(p: Pattern): (lit: string)
    ensures |lit| >= 4
  {
    match p
    case Time => TimeLit
    case Rouge => RougeLit
    case Latency => LatencyLit
    case Tokens => TokensLit
    case Throughput => ThroughputLit
  }

  /** A pattern cannot match where its leading literal differs from the text at offset `d`. */
  lemma MismatchNoMatch(p: Pattern, t: string, i: nat, d: nat)
    requires i <= |t| && d < |Lead(p)|
    requires i + d >= |t| || t[i + d] != Lead(p)[d]
    ensures MatchAt(p, t, i).None?
  {
    if MatchAt(p, t, i).Some? {
      LeadAt(p, t, i);
    }
  }

  /** Every match starts with its pattern's leading literal. */
  lemma LeadAt(p: Pattern, t: string, i: nat)
    requires i <= |t| && MatchAt(p, t, i).Some?
    ensures LitAt(t, i, Lead(p))
  {
  }

  /** `real`, whitespace, minutes, `m`, seconds and `s` at position `|a|` of `t` form a time match. */
  lemma TimeMatchOf(t: string, a: string, ws: string, mins: string, secs: string, b: string)
    requires t == a + TimeLit + ws + mins + "m" + secs + "s" + b
    requires |ws| >= 1 && RunOf(ws, 0, |ws|, Space)
    requires |mins| >= 1 && AllDigits(mins) && IsDecimalToken(secs)
    ensures MatchAt(Time, t, |a|) == Some(Match(|a|, |a| + |TimeLit| + |ws| + |mins| + |secs| + 2, [mins, secs]))
  {
    TimeSlicesMatch(t, |a|, ws, mins, secs);
  }

  /** Text holding `real`, whitespace, minutes, `m`, seconds and `s` from `i` on has that time match at `i`. */
  lemma TimeSlicesMatch(t: string, i: nat, ws: string, mins: string, secs: string)
    requires |ws| >= 1 && RunOf(ws, 0, |ws|, Space)
    requires |mins| >= 1 && AllDigits(mins) && IsDecimalToken(secs)
    requires i + |TimeLit| + |ws| + |mins| + |secs| + 2 <= |t|
    requires t[i..i + |TimeLit|] == TimeLit
    requires t[i + |TimeLit|..i + |TimeLit| + |ws|] == ws
    requires t[i + |TimeLit| + |ws|..i + |TimeLit| + |ws| + |mins|] == mins
    requires t[i + |TimeLit| + |ws| + |mins|] == 'm'
    requires t[i + |TimeLit| + |ws| + |mins| + 1..i + |TimeLit| + |ws| + |mins| + 1 + |secs|] == secs
    requires t[i + |TimeLit| + |ws| + |mins| + 1 + |secs|] == 's'
    ensures MatchAt(Time, t, i) == Some(Match(i, i + |TimeLit| + |ws| + |mins| + |secs| + 2, [mins, secs]))
  {
    var ai := i + |TimeLit| + |ws|;
    var bi := ai + |mins|;
    var ci := bi + 1 + |secs|;
    RunOfSlice(t, i + |TimeLit|, ai, Space);
    RunOfSlice(t, ai, bi, Digit);
    RunOfSlice(t, bi + 1, ci, DigitOrDot);
    TimeShapeMatches(t, i, ai, bi, ci);
  }

  /** `rouge`, a label, ` : ` and a decimal not followed by another `[\d.]` form a score match at `|a|` of `t`. */
  lemma RougeMatchOf(t: string, a: string, tag: string, num: string, b: string)
    requires t == a + RougeLit + tag + RougeSep + num + b
    requires |tag| >= 1 && RunOf(tag, 0, |tag|, Label) && IsDecimalToken(num)
    requires b == [] || !InClass(DigitOrDot, b[0])
    ensures MatchAt(Rouge, t, |a|) == Some(Match(|a|, |a| + |RougeLit| + |tag| + |RougeSep| + |num|, [num]))
  {
    RougeShapeOf(t, a, tag, num, b);
    RougeShapeEnds(t, |a|, |a| + |RougeLit| + |tag|, |a| + |RougeLit| + |tag| + |RougeSep| + |num|, num);
  }

  /** A score-pattern fit whose number cannot be extended is exactly the engine's match. */
  lemma RougeShapeEnds(t: string, i: nat, a: nat, b: nat, num: string)
    requires i <= |t| && RougeShape(t, i, a, b) && (b == |t| || !InClass(DigitOrDot, t[b]))
    requires t[a + |RougeSep|..b] == num
    ensures MatchAt(Rouge, t, i) == Some(Match(i, b, [num]))
  {
    RougeShapeMatches(t, i, a, b);
  }

  /** The pieces of a score line fit the score pattern, the group being the number. */
  lemma RougeShapeOf(t: string, a: string, tag: string, num: string, b: string)
    requires t == a + RougeLit + tag + RougeSep + num + b
    requires |tag| >= 1 && RunOf(tag, 0, |tag|, Label) && IsDecimalToken(num)
    requires b == [] || !InClass(DigitOrDot, b[0])
    ensures var ai := |a| + |RougeLit| + |tag|;
      var bi := |a| + |RougeLit| + |tag| + |RougeSep| + |num|;
      RougeShape(t, |a|, ai, bi) && t[ai + |RougeSep|..bi] == num && (bi == |t| || !InClass(DigitOrDot, t[bi]))
  {
    var i := |a|;
    var ai := i + |RougeLit| + |tag|;
    var bi := ai + |RougeSep| + |num|;
    assert t[i..i + |RougeLit|] == RougeLit;
    assert t[ai..ai + |RougeSep|] == RougeSep;
    assert t[ai + |RougeSep|..bi] == num;
    assert t[i + |RougeLit|..ai] == tag;
    RunOfSlice(t, i + |RougeLit|, ai, Label);
    RunOfSlice(t, ai + |RougeSep|, bi, DigitOrDot);
    if b != [] {
      assert t[bi] == b[0];
    }
  }

  /** `total latency: `, a decimal and ` sec` form a latency match at `|a|` of `t`. */
  lemma LatencyMatchOf(t: string, a: string, num: string, b: string)
    requires t == a + LatencyLit + num + LatencyUnit + b
    requires IsDecimalToken(num)
    ensures MatchAt(Latency, t, |a|) == Some(Match(|a|, |a| + |LatencyLit| + |num| + |LatencyUnit|, [num]))
  {
    var i := |a|;
    var ai := i + |LatencyLit| + |num|;
    assert t[i..i + |LatencyLit|] == LatencyLit;
    assert t[i + |LatencyLit|..ai] == num;
    assert t[ai..ai + |LatencyUnit|] == LatencyUnit;
    RunOfSlice(t, i + |LatencyLit|, ai, DigitOrDot);
    LatencyShapeMatches(t, i, ai);
  }

  /** `total output tokens: ` and digits not followed by another digit form a token-count match at `|a|` of `t`. */
  lemma TokensMatchOf(t: string, a: string, digits: string, b: string)
    requires t == a + TokensLit + digits + b
    requires |digits| >= 1 && AllDigits(digits)
    requires b == [] || !IsDigit(b[0])
    ensures MatchAt(Tokens, t, |a|) == Some(Match(|a|, |a| + |TokensLit| + |digits|, [digits]))
  {
    var i := |a|;
    var ai := i + |TokensLit| + |digits|;
    assert t[i..i + |TokensLit|] == TokensLit;
    assert t[i + |TokensLit|..ai] == digits;
    RunOfSlice(t, i + |TokensLit|, ai, Digit);
    if b != [] {
      assert t[ai] == b[0];
    }
    TokensShapeMatches(t, i, ai);
  }

  /** `tokens per second: ` and a decimal not followed by another `[\d.]` form a throughput match at `|a|` of `t`. */
  lemma ThroughputMatchOf(t: string, a: string, num: string, b: string)
    requires t == a + ThroughputLit + num + b
    requires IsDecimalToken(num)
    requires b == [] || !InClass(DigitOrDot, b[0])
    ensures MatchAt(Throughput, t, |a|) == Some(Match(|a|, |a| + |ThroughputLit| + |num|, [num]))
  {
    var i := |a|;
    var ai := i + |ThroughputLit| + |num|;
    assert t[i..i + |ThroughputLit|] == ThroughputLit;
    assert t[i + |ThroughputLit|..ai] == num;
    RunOfSlice(t, i + |ThroughputLit|, ai, DigitOrDot);
    if b != [] {
      assert t[ai] == b[0];
    }
    ThroughputShapeMatches(t, i, ai);
  }
}
