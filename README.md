# Benchmark metric extraction, modelled in Dafny

`benchmark.py` is meant to run a summarisation workload three times: on the
Hugging Face baseline, on a TensorRT-LLM engine and on an INT8-quantised engine.
It is meant to scrape the text each run prints and write one spreadsheet row per
run. As written it does not get that far (see "## Left out"). This project
models two pure parts of that script:

- **`parse_output`**. Five regular expressions search the captured output for:
  - the execution time printed by `time` (`real 2m15.5s`);
  - every ROUGE score line (`rouge1 : 10.2`);
  - the latency (`total latency: 3.25 sec`);
  - the total output token count (`total output tokens: 512`);
  - the throughput (`tokens per second: 157.6`).

  The result is the five-field record `(exec_time, rouge_scores, latency,
  total_tokens, tokens_per_sec)`.
- **The row assembly in `benchmark_model`**. It builds the fixed 8-column header
  and the three data rows from three such records.

Module layout:

| file | module | contents |
|---|---|---|
| `wrappers.dfy` | `Wrappers` | `Option`, and `Result` with `:-` propagation |
| `lexical.dfy` | `Lexical` | the regex character classes `\d`, `[\d.]`, `\s` and `[12Lsum]`; greedy runs (`+`); numerals |
| `decimal.dfy` | `Decimal` | `ParseFloat`: Python's `float()` on a `[\d.]+` token (benchmark.py:55, 61, 64, 70); `ParseNat`: `int()` on a `\d+` token (benchmark.py:54, 67); `IntToFloat`: an `int` operand made a `float` (benchmark.py:56); each may raise |
| `patterns.dfy` | `Patterns` | each of the five regexes, matched at a given position |
| `search.dfy` | `Search` | `re.search` (leftmost match) and `re.findall` (successive, non-overlapping matches) |
| `extract.dfy` | `Extract` | `ParseOutput`: `parse_output` (benchmark.py:50-72), and what it computes, field by field |
| `table.dfy` | `Table` | `BuildRows`: the header and the three rows (benchmark.py:84-89), and reading a row back |
| `examples.dfy` | `Examples` | `parse_output` computed on concrete outputs |

How the regexes are modelled:

- Each regex is anchored at a position `i` by `Patterns.MatchAt`. It is built from
  its literals and from maximal runs of a class (`Lexical.RunEnd`).
- Every `+` run in these five regexes is followed by a literal outside its class,
  or by a run of a disjoint class (`\s+` before `\d+`), or ends the regex. So
  the greedy run is the only way to match, and no backtracking is needed. The `*ShapeMatches` and `*MatchFits` lemmas prove this.
  They show that a position matches exactly when the text has the regex's shape
  there, under some split into literals and runs.
- `re.search` scans for the first position that matches.
- `re.findall` restarts after each match. Score matches cannot overlap, because
  `r` occurs in a score match only as its first character. So `findall` returns
  the match at every matching position (`Search.RougeFindAllIsEveryMatch`).

`parse_output` is not total. Three kinds of conversion in it can raise, and the
model follows each of them:

- `float()` raises `ValueError` on a captured token such as `1.2.3` or `.`,
  because `[\d.]+` accepts both.
- `int()` raises `ValueError` on a digit string longer than CPython's default
  limit of 4300 digits (`sys.get_int_max_str_digits()`). That applies to the
  minutes at benchmark.py:54 and to the token count at benchmark.py:67.
- `minutes * 60 + seconds` (benchmark.py:56) converts the `int` product to
  `float`. That raises `OverflowError` from 2^1024 - 2^970 on, the least
  integer that rounds past the largest double. An example is `real 3`, then
  306 zeros, then `m0s`.

`Extract.ParseOutput` returns the exception of the first conversion that fails,
in the order the source performs them:

1. the minutes, the seconds and the product of the time match;
2. the scores;
3. the latency;
4. the token count;
5. the throughput.

One such failure loses the whole record, so the fields are independent only
when extraction succeeds.

## Model

| member | source | states |
|---|---|---|
| Lexical.RunEnd | benchmark.py:52-69 | the end of a greedy `+` run: every character up to it is in the class and the next one is not (or the text ends) |
| Lexical.RunEndUnique | benchmark.py:52-69 | a run that stops at a character outside its class ends exactly where the greedy run ends |
| Lexical.RunEndMaximal | benchmark.py:52-69 | any run of class characters from a position ends no later than the greedy run |
| Decimal.ParseFloat | benchmark.py:55-70 | `float()` on a `[\d.]+` token: its contract is stated by DecimalValueOfSplit, FloatOfDigits, FloatOfFraction and FloatOfLeadingDot (accepted tokens and their values) and by TwoDotsRejected and DotsOnlyRejected (the ValueError on the token) |
| Decimal.ParseNat | benchmark.py:54-67 | `int()` on a `\d+` token: stated by IntOfNumeral (the numeral's value below 10^4300, the digit-limit ValueError from there on) |
| Decimal.IntToFloat | benchmark.py:56 | the `int` operand of `minutes * 60 + seconds` made a `float`: stated by IntToFloatByMagnitude (accepted up to 1.7976931348623158e308, OverflowError from 1.7976931348623159e308) |
| Decimal.FloatOverflowBounds | benchmark.py:56 | the overflow bound is 2^1024 - 2^970 written in decimal, above the largest double `(2^53 - 1) * 2^971` and strictly between 1.7976931348623158e308 and 1.7976931348623159e308 |
| Decimal.IntToFloatByMagnitude | benchmark.py:56 | an int up to 1.7976931348623158e308 converts to `float` without raising, giving its value as an exact real, and one of 1.7976931348623159e308 or more raises OverflowError with that int |
| Decimal.DecimalValue | benchmark.py:55-70 | the value `float()` gives a well-formed `[\d.]+` token is non-negative |
| Decimal.DecimalValueOfSplit | benchmark.py:55-70 | a token `a.b` with digit strings `a` and `b`, not both empty, is a float literal denoting the integer part plus the fraction digits scaled by their count |
| Decimal.FloatOfNumeral | benchmark.py:55-70 | `float()` of the decimal numeral of `n` is `n` |
| Decimal.FloatOfDigits | benchmark.py:55-70 | a token of digits only, such as `007`, is a float literal whose value is its digits' integer |
| Decimal.IntOfNumeral | benchmark.py:54-67 | `int(str(n)) == n` exactly when `n < 10^4300`, and otherwise `int()` raises the ValueError of the digit limit |
| Decimal.FloatOfFraction | benchmark.py:55-70 | `float("w.f")` with `k` fraction digits is `w + f / 10^k` |
| Decimal.FloatOfLeadingDot | benchmark.py:55-70 | `float(".f")` is `f / 10^k` |
| Decimal.TwoDotsRejected | benchmark.py:55-70 | a token with two dots makes `float()` raise `ValueError` on that token |
| Decimal.DotsOnlyRejected | benchmark.py:55-70 | a token made only of dots (no digit) makes `float()` raise on that token |
| Patterns.MatchAt | benchmark.py:52-69 | a match at `i` starts at `i`, ends within the text after `i`, and captures the groups its regex promises: digits and a decimal token for the time, one digit run for the token count, one decimal token otherwise |
| Patterns.TimeShapeMatches | benchmark.py:52 | `real`, whitespace, digits, `m`, a `[\d.]` run and `s` at `i` are exactly the time match, with minutes and seconds as its groups |
| Patterns.TimeMatchFits | benchmark.py:52 | every time match has that shape, with the groups as its pieces |
| Patterns.RougeShapeMatches | benchmark.py:60 | `rouge`, a `[12Lsum]` run, ` : ` and a `[\d.]` run at `i` give a score match capturing the maximal run, which is exactly the given one when the text cannot extend it |
| Patterns.RougeMatchFits | benchmark.py:60 | every score match has that shape, ending where its decimal run cannot extend |
| Patterns.LatencyShapeMatches | benchmark.py:63 | `total latency: `, a `[\d.]` run and ` sec` at `i` are exactly the latency match |
| Patterns.LatencyMatchFits | benchmark.py:63 | every latency match has that shape |
| Patterns.TokensShapeMatches | benchmark.py:66 | `total output tokens: ` and digits at `i` give a token-count match capturing the maximal digit run, exactly the given one when it cannot extend |
| Patterns.TokensMatchFits | benchmark.py:66 | every token-count match has that shape and captures a digit run that cannot extend |
| Patterns.ThroughputShapeMatches | benchmark.py:69 | `tokens per second: ` and a `[\d.]` run at `i` give a throughput match capturing the maximal run, exactly the given one when it cannot extend |
| Patterns.ThroughputMatchFits | benchmark.py:69 | every throughput match has that shape and captures a run that cannot extend |
| Patterns.RougeMatchesDisjoint | benchmark.py:60 | no score match starts strictly inside another score match |
| Patterns.MismatchNoMatch | benchmark.py:52-69 | a regex cannot match where the text differs from its leading literal |
| Patterns.TimeMatchOf | benchmark.py:52 | text assembled as `real`, whitespace, minutes, `m`, seconds, `s` has the time match there, with its exact end and groups |
| Patterns.RougeMatchOf | benchmark.py:60 | text assembled as a score line has the score match there, with its exact end and captured decimal |
| Patterns.LatencyMatchOf | benchmark.py:63 | text assembled as a latency line has the latency match there, with its exact end and captured decimal |
| Patterns.TokensMatchOf | benchmark.py:66 | text assembled as a token-count line has that match there, with its exact end and digits |
| Patterns.ThroughputMatchOf | benchmark.py:69 | text assembled as a throughput line has that match there, with its exact end and captured decimal |
| Search.Find | benchmark.py:52-69 | the first position from `from` on where the regex matches, with no match before it, and none exactly when it matches nowhere |
| Search.SearchFirst | benchmark.py:52-69 | `re.search`: nothing exactly when the regex matches nowhere, otherwise the match at the leftmost matching position |
| Search.FindAll | benchmark.py:60 | `re.findall`: matches of the regex in increasing, non-overlapping order, empty exactly when there is none |
| Search.EveryMatch | benchmark.py:60 | the match at every matching position, in strictly increasing order |
| Search.EveryMatchExact | benchmark.py:60 | the enumeration contains exactly the matches at positions from `from` on |
| Search.FindAllIsEveryMatch | benchmark.py:60 | for a regex whose matches cannot overlap, `findall` misses no match |
| Search.RougeFindAllIsEveryMatch | benchmark.py:60 | `findall` on the score regex returns the match at every matching position, left to right |
| Search.RougeEveryMatchStep | benchmark.py:60 | a score match with none before it heads the list of score matches, which goes on from its end |
| Search.NoMatchWithout | benchmark.py:52-69 | a text lacking a character of a regex's leading literal has no match of it, and `re.search` returns nothing |
| Search.NoMatchInPiece | benchmark.py:52-69 | no match starts where the literal's character would fall inside a piece that lacks it |
| Extract.ParseOutput | benchmark.py:50-72 | `parse_output`: stated by ParseOutputRaises (when and what it raises), ParseOutputOk (the five fields of a success) and ExecTimeField, ScoresField, LatencyField, TotalTokensField and ThroughputField (each field in terms of the matches) |
| Extract.TimeSeconds | benchmark.py:54-56 | `minutes * 60 + seconds` from a time match: stated by TimeSecondsConverts |
| Extract.ExecTime | benchmark.py:52-58 | the execution time: stated by ExecTimeConverts, ExecTimeField and TimeOverflowRaises |
| Extract.FloatOfMatch | benchmark.py:63-70 | latency and throughput from an optional match: stated by FloatOfMatchConverts, LatencyField and ThroughputField |
| Extract.TotalTokens | benchmark.py:66-67 | the token count: stated by TotalTokensConverts, TotalTokensField and LongTokenCountRaises |
| Extract.FirstRejected | benchmark.py:54-70 | the number of leading conversions Python performs without raising: all of them accepted, the next one rejected |
| Extract.ParseFloats | benchmark.py:61 | converting a token list succeeds exactly when every token is a float literal, gives each token's value in order, and otherwise raises the ValueError of the first bad token |
| Extract.ScoreTokens | benchmark.py:60 | the captured decimals of the `findall` matches, one per match, in order |
| Extract.ParseFloatsConcat | benchmark.py:61 | converting a concatenation is converting the first part, then the second, keeping the first error |
| Extract.OutcomeConcat | benchmark.py:50-72 | performing two lists of conversions in turn raises what the first raises, or else what the second raises |
| Extract.TimeSecondsConverts | benchmark.py:54-56 | `minutes * 60 + seconds` raises at the first of `int()` of the minutes, `float()` of the seconds and the float of the product that fails |
| Extract.ExecTimeConverts | benchmark.py:52-58 | the execution time raises exactly what its conversions raise first: `int()` of the minutes, `float()` of the seconds, the float of `minutes * 60`, and nothing without a time match |
| Extract.FloatOfMatchConverts | benchmark.py:63-70 | latency and throughput raise exactly when `float()` rejects their captured token, with that ValueError, and nothing without a match |
| Extract.TotalTokensConverts | benchmark.py:66-67 | the token count raises exactly when `int()` rejects its digits as too long, and nothing without a match |
| Extract.ScoresConvert | benchmark.py:60-61 | the scores raise exactly what `float()` raises on the first rejected score token |
| Extract.ParseOutputRaises | benchmark.py:50-72 | extraction succeeds exactly when every conversion the source performs is accepted; otherwise it raises the exception of the first rejected one in the source's order, and a missing pattern never makes it raise |
| Extract.TimeOverflowRaises | benchmark.py:52-56 | minutes within the digit limit, with accepted seconds, whose product with 60 reaches 2^1024 - 2^970 make extraction raise OverflowError with that product |
| Extract.LongTokenCountRaises | benchmark.py:66-67 | a token count of more than 4300 digits makes extraction raise the ValueError of `int()` once the earlier fields succeed |
| Extract.ParseOutputOk | benchmark.py:50-72 | a successful extraction is exactly the five field computations, each successful |
| Extract.NoPatternAllAbsent | benchmark.py:50-72 | text in which no regex matches yields `(None, [], None, None, None)` |
| Extract.EmptyTextAllAbsent | benchmark.py:50-72 | empty text yields `(None, [], None, None, None)` |
| Extract.ExecTimeField | benchmark.py:52-58 | after a successful extraction the execution time is `None` exactly when the time regex matches nowhere; otherwise the leftmost match's minutes are within the digit limit, their product with 60 is below the overflow bound, and the time is minutes × 60 + seconds |
| Extract.ScoresField | benchmark.py:60-61 | the scores are the values of the decimals captured at every score match, as many as there are matches, in text order |
| Extract.LatencyField | benchmark.py:63-64 | the latency is `None` exactly when its regex matches nowhere, otherwise the value of the leftmost match's decimal |
| Extract.TotalTokensField | benchmark.py:66-67 | after a successful extraction the token count is `None` exactly when its regex matches nowhere; otherwise the leftmost match's digits are within the digit limit and the count is their integer |
| Extract.ThroughputField | benchmark.py:69-70 | the throughput is `None` exactly when its regex matches nowhere, otherwise the value of the leftmost match's decimal |
| Table.BaselineRow | benchmark.py:86 | the baseline row: stated by BaselineRowLayout and ReadBaselineRow |
| Table.EngineRow | benchmark.py:87-88 | an engine row: stated by EngineRowLayout, AbsentMetricsRow and ReadEngineRow |
| Table.BuildRows | benchmark.py:84-89 | the header and three rows: stated by BuildRowsLayout and RowsMatchHeaderIffThreeScores |
| Table.BaselineRowLayout | benchmark.py:86 | the baseline row is its label, the execution time, the scores, then three empty cells: `5 + |scores|` cells |
| Table.EngineRowLayout | benchmark.py:87-88 | an engine row is its label, the execution time, the scores, latency, token count and throughput: `5 + |scores|` cells |
| Table.BuildRowsLayout | benchmark.py:84-89 | the table is the 8-column header, then the baseline, engine and INT8-engine rows in that order |
| Table.RowsMatchHeaderIffThreeScores | benchmark.py:85-88 | a row is as wide as the header if and only if its run produced exactly three scores |
| Table.AbsentMetricsRow | benchmark.py:86-88 | an all-absent record gives its label followed by four empty cells |
| Table.ReadEngineRow | benchmark.py:87-88 | an engine row can be read back into its label and the full record |
| Table.ReadBaselineRow | benchmark.py:86 | the baseline row reads back as its time and scores, with latency, tokens and throughput absent |
| Examples.TimeOnly | benchmark.py:52-58 | `real 2m15.5s` yields an execution time of exactly 135.5 and nothing else |
| Examples.ScoresOnly | benchmark.py:60-61 | the lines `rouge1 : 10.2`, `rouge2 : 5.1`, `rougeLsum : 20.0` yield the scores `[10.2, 5.1, 20.0]` and nothing else |
| Examples.RunMetrics | benchmark.py:63-70 | latency, token-count and throughput lines together yield 3.25, 512 and 157.6 |
| Examples.BadLatencyRaises | benchmark.py:63-64 | `total latency: 1.2.3 sec` makes extraction raise on `1.2.3` |
| Examples.DotThroughputRaises | benchmark.py:69-70 | `tokens per second: .` makes extraction raise on `.` |

## Left out

- `run_command` (benchmark.py:46-48) runs a shell command and captures its standard output. That is process I/O, so the captured text is the input string of `Extract.ParseOutput`.
- The command-template dictionaries and the `MODEL_PATH` environment variable (benchmark.py:11-22, 112-113) are shell strings and global process state with no logic to verify.
- The conversion and build steps (benchmark.py:28-43) only run commands.
- Writing `output.csv` (benchmark.py:92-94) is file I/O. The model stops at the list of rows.
- The usage text of `helper` (benchmark.py:98-105) is console output.
- `main` (benchmark.py:107-118) is argument plumbing, and it is defective as written. With no argument, `sys.argv[1]` raises `IndexError`. With any argument other than `help`, the undefined `sys.args` raises `AttributeError`. It is not modelled further.
- The loop at benchmark.py:78-80 fills `results` from `commands`, the conversion templates, rather than from `commands_benchmark`. As written, lines 86-88 therefore raise `KeyError` on `results["Hugging Face"]`. `Table.BuildRows` takes the three records as explicit arguments instead of reproducing that lookup.
- `float()` rounds to IEEE doubles, and so does `minutes * 60 + seconds`. The model uses exact reals. A numeral too large for a double becomes `inf` in `float()` and in the sum without raising, and the model then gives its exact value.
- The digit limit of `int()` is fixed at CPython's default of 4300. `sys.set_int_max_str_digits`, `PYTHONINTMAXSTRDIGITS` and `-X int_max_str_digits` change it, and Python versions before 3.11 without the 2022 security releases have no limit.
- Python 3's `\d` and `\s` also match non-ASCII digits and spaces. The model uses the ASCII digits, and Python's ASCII whitespace: space, `\t` through `\r`, and `\x1c` through `\x1f`.
- `float()` also accepts signs, exponents, `inf` and surrounding spaces. A `[\d.]+` capture never holds any of these, so only digits and dots are modelled.
- A table cell is a label, an exact real, a natural number or empty. How the `csv` module prints `None` and floats is not modelled.
