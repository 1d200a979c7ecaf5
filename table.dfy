/**
 * The rows `benchmark_model` writes to the spreadsheet: a fixed header and one
 * row per benchmark run, assembled from that run's metrics.
 */
module Table {
  import opened Wrappers
  import opened Extract

  /** A cell of the table: a label, a float, an integer, or `None` (an empty field). */
  datatype Cell = Label(text: string) | Real(r: real) | Count(n: nat) | Blank

  const Header: seq<Cell> := [
    Label("Model"), Label("Exec Time (s)"), Label("ROUGE-1"), Label("ROUGE-2"),
    Label("ROUGE-L"), Label("Latency (s)"), Label("Total Tokens"), Label("Tokens/s")]

  const HuggingFace := "Hugging Face"
  const TensorRT := "TensorRT-LLM"
  const TensorRTInt8 := "TensorRT-LLM (INT8)"

  function RealCell(o: Option<real>): (c: Cell) {
    match o
    case None => Blank
    case Some(r) => Real(r)
  }

  function CountCell(o: Option<nat>): (c: Cell) {
    match o
    case None => Blank
    case Some(n) => Count(n)
  }

  /** One float cell per score. */
  function ScoreCells(s: seq<real>): (r: seq<Cell>) {
    seq(|s|, k requires 0 <= k < |s| => Real(s[k]))
  }

  /** The baseline row: label, execution time, the scores, then three empty cells. */
  function BaselineRow(m: Metrics): (row: seq<Cell>) {
    [Label(HuggingFace), RealCell(m.execTime)] + ScoreCells(m.scores) + [Blank, Blank, Blank]
  }

  /** An engine row: label, execution time, the scores, latency, total tokens, throughput. */
  function EngineRow(name: string, m: Metrics): (row: seq<Cell>) {
    [Label(name), RealCell(m.execTime)] + ScoreCells(m.scores)
      + [RealCell(m.latency), CountCell(m.totalTokens), RealCell(m.tokensPerSecond)]
  }

  /** The whole table: the header, then the baseline, engine and quantised-engine rows. */
  function BuildRows(hf: Metrics, trt: Metrics, trtInt8: Metrics): (rows: seq<seq<Cell>>) {
    [Header, BaselineRow(hf), EngineRow(TensorRT, trt), EngineRow(TensorRTInt8, trtInt8)]
  }

  // ---------------------------------------------------------------------------
  // Reading a row back.
  // ---------------------------------------------------------------------------

  function CellReal(c: Cell): (o: Option<Option<real>>) {
    match c
    case Blank => Some(None)
    case Real(r) => Some(Some(r))
    case _ => None
  }

  function CellCount(c: Cell): (o: Option<Option<nat>>) {
    match c
    case Blank => Some(None)
    case Count(n) => Some(Some(n))
    case _ => None
  }

  /** The scores of a run of float cells, or `None` if another kind of cell occurs. */
  function CellScores(cs: seq<Cell>): (o: Option<seq<real>>) {
    if forall k :: 0 <= k < |cs| ==> cs[k].Real? then Some(seq(|cs|, k requires 0 <= k < |cs| => cs[k].r)) else None
  }

  /** The label and metrics a row written with the engine layout holds. */
  function ReadRow(row: seq<Cell>): (o: Option<(string, Metrics)>) {
    if |row| < 5 || !row[0].Label? then None else
    var n := |row|;
    match (CellReal(row[1]), CellScores(row[2..n - 3]), CellReal(row[n - 3]), CellCount(row[n - 2]), CellReal(row[n - 1]))
    case (Some(time), Some(scores), Some(latency), Some(tokens), Some(tps)) =>
      Some((row[0].text, Metrics(time, scores, latency, tokens, tps)))
    case _ => None
  }

  // ---------------------------------------------------------------------------
  // Layout.
  // ---------------------------------------------------------------------------

  /** An engine row has `5 + |scores|` cells, laid out as label, time, scores, latency, tokens, throughput. */
  lemma EngineRowLayout(name: string, m: Metrics)
    ensures var row, n := EngineRow(name, m), |m.scores|;
      && |row| == 5 + n
      && row[0] == Label(name) && row[1] == RealCell(m.execTime)
      && (forall k :: 0 <= k < n ==> row[2 + k] == Real(m.scores[k]))
      && row[2 + n] == RealCell(m.latency)
      && row[3 + n] == CountCell(m.totalTokens)
      && row[4 + n] == RealCell(m.tokensPerSecond)
  {
    var row, scores := EngineRow(name, m), ScoreCells(m.scores);
    forall k | 0 <= k < |m.scores| ensures row[2 + k] == Real(m.scores[k]) {
      assert row[2 + k] == scores[k];
    }
  }

  /** The baseline row has `5 + |scores|` cells and its last three are empty. */
  lemma BaselineRowLayout(m: Metrics)
    ensures var row, n := BaselineRow(m), |m.scores|;
      && |row| == 5 + n
      && row[0] == Label(HuggingFace) && row[1] == RealCell(m.execTime)
      && (forall k :: 0 <= k < n ==> row[2 + k] == Real(m.scores[k]))
      && row[2 + n] == Blank && row[3 + n] == Blank && row[4 + n] == Blank
  {
    BaselineIsEngineRow(m);
    EngineRowLayout(HuggingFace, Metrics(m.execTime, m.scores, None, None, None));
  }

  /** The baseline row is the engine layout of a record without the engine-only metrics. */
  lemma BaselineIsEngineRow(m: Metrics)
    ensures BaselineRow(m) == EngineRow(HuggingFace, Metrics(m.execTime, m.scores, None, None, None))
  {
  }

  /** The table has the header and three rows in a fixed order. */
  lemma BuildRowsLayout(hf: Metrics, trt: Metrics, trtInt8: Metrics)
    ensures var rows := BuildRows(hf, trt, trtInt8);
      && |rows| == 4 && rows[0] == Header && |Header| == 8
      && rows[1][0] == Label(HuggingFace) && |rows[1]| == 5 + |hf.scores|
      && rows[2][0] == Label(TensorRT) && |rows[2]| == 5 + |trt.scores|
      && rows[3][0] == Label(TensorRTInt8) && |rows[3]| == 5 + |trtInt8.scores|
  {
    BaselineRowLayout(hf);
    EngineRowLayout(TensorRT, trt);
    EngineRowLayout(TensorRTInt8, trtInt8);
  }

  /** Every row is exactly as wide as the header when, and only when, three scores were extracted. */
  lemma RowsMatchHeaderIffThreeScores(hf: Metrics, trt: Metrics, trtInt8: Metrics)
    ensures var rows := BuildRows(hf, trt, trtInt8);
      && (|rows[1]| == |Header| <==> |hf.scores| == 3)
      && (|rows[2]| == |Header| <==> |trt.scores| == 3)
      && (|rows[3]| == |Header| <==> |trtInt8.scores| == 3)
  {
    BuildRowsLayout(hf, trt, trtInt8);
  }

  /** An all-absent record gives a row with its label and empty cells only. */
  lemma AbsentMetricsRow(name: string)
    ensures EngineRow(name, Metrics(None, [], None, None, None)) == [Label(name), Blank, Blank, Blank, Blank]
    ensures BaselineRow(Metrics(None, [], None, None, None)) == [Label(HuggingFace), Blank, Blank, Blank, Blank]
  {
    assert ScoreCells([]) == [];
  }

  /** An engine row loses nothing: reading it back gives its label and metrics. */
  lemma ReadEngineRow(name: string, m: Metrics)
    ensures ReadRow(EngineRow(name, m)) == Some((name, m))
  {
    var row, n := EngineRow(name, m), |m.scores|;
    EngineRowLayout(name, m);
    var cs := row[2..|row| - 3];
    assert |cs| == n && forall k :: 0 <= k < n ==> cs[k] == Real(m.scores[k]);
    var read := seq(|cs|, k requires 0 <= k < |cs| => cs[k].r);
    assert read == m.scores;
    match m.execTime { case None => case Some(_) => }
    match m.latency { case None => case Some(_) => }
    match m.totalTokens { case None => case Some(_) => }
    match m.tokensPerSecond { case None => case Some(_) => }
  }

  /** The baseline row keeps time and scores but never reports latency, tokens or throughput. */
  lemma ReadBaselineRow(m: Metrics)
    ensures ReadRow(BaselineRow(m)) == Some((HuggingFace, Metrics(m.execTime, m.scores, None, None, None)))
  {
    BaselineIsEngineRow(m);
    ReadEngineRow(HuggingFace, Metrics(m.execTime, m.scores, None, None, None));
  }
}
