/** One call of `analyze_image`: the classifier's ranked output for an image
    (taken here as an input sequence, since the classifier is a black box)
    becomes a display record holding the top entry, its emoji tag and the
    chart table with every score scaled to a percentage. */
module Analysis {
  import opened Emojis

  /** One entry of the classifier's output, a `{'label', 'score'}` pair. */
  datatype Prediction = Prediction(className: string, score: real)

  /** What one analysis shows: the success banner (emoji, label, score) and
      the rows of the bar chart. */
  datatype DisplayRecord = DisplayRecord(emoji: string, className: string, score: real, chart: seq<Prediction>)

  /** `results[0]` on an empty output raises IndexError. */
  datatype AnalysisError = NoPredictions

  datatype Result<T> = Ok(value: T) | Err(error: AnalysisError)

  /** The labels of a table, in order. */
  function ClassNames(rows: seq<Prediction>): (names: seq<string>)
    ensures |names| == |rows|
    ensures forall i :: 0 <= i < |rows| ==> names[i] == rows[i].className
  {
    if rows == [] then [] else [rows[0].className] + ClassNames(rows[1..])
  }

  /** The chart table: each row's score multiplied by 100. */
  function AsPercentages(rows: seq<Prediction>): seq<Prediction>
  {
    if rows == [] then []
    else [Prediction(rows[0].className, rows[0].score * 100.0)] + AsPercentages(rows[1..])
  }

  /** Dividing each score by 100 again. */
  function AsFractions(rows: seq<Prediction>): seq<Prediction>
  {
    if rows == [] then []
    else [Prediction(rows[0].className, rows[0].score / 100.0)] + AsFractions(rows[1..])
  }

  /** The chart table has the classifier's length and, row by row, the same
      label with the score multiplied by exactly 100. */
  lemma {:induction false} AsPercentagesRowByRow(rows: seq<Prediction>)
    ensures |AsPercentages(rows)| == |rows|
    ensures forall i :: 0 <= i < |rows| ==>
      AsPercentages(rows)[i] == Prediction(rows[i].className, rows[i].score * 100.0)
  {
    if rows != [] {
      AsPercentagesRowByRow(rows[1..]);
    }
  }

  /** Scaling loses nothing: dividing the chart's scores by 100 gives back the
      classifier's output. */
  lemma {:induction false} PercentagesRoundTrip(rows: seq<Prediction>)
    ensures AsFractions(AsPercentages(rows)) == rows
  {
    if rows != [] {
      PercentagesRoundTrip(rows[1..]);
      assert rows == [rows[0]] + rows[1..];
    }
  }

  /** The chart keeps the labels of the classifier's output, in its order. */
  lemma {:induction false} ChartKeepsClassNames(rows: seq<Prediction>)
    ensures ClassNames(AsPercentages(rows)) == ClassNames(rows)
  {
    if rows != [] {
      ChartKeepsClassNames(rows[1..]);
    }
  }

  /** The analysis of one classifier output. */
  function Analyze(results: seq<Prediction>): Result<DisplayRecord>
  {
    if |results| == 0 then Err(NoPredictions)
    else
      var top := results[0];
      Ok(DisplayRecord(Emoji(top.className), top.className, top.score, AsPercentages(results)))
  }

  /** The banner shows exactly the label and score of the first entry, tagged
      by the emoji of that label; an empty output is the one failure. */
  lemma AnalyzeShowsFirstEntry(results: seq<Prediction>)
    ensures Analyze(results).Err? <==> results == []
    ensures results != [] ==>
      Analyze(results).value.className == results[0].className
      && Analyze(results).value.score == results[0].score
      && Analyze(results).value.emoji == Emoji(results[0].className)
  {
  }

  /** The chart has the classifier's length, labels and order, with each score
      multiplied by exactly 100. */
  lemma AnalyzeChartIsScaledOutput(results: seq<Prediction>)
    requires results != []
    ensures |Analyze(results).value.chart| == |results|
    ensures ClassNames(Analyze(results).value.chart) == ClassNames(results)
    ensures forall i :: 0 <= i < |results| ==>
      Analyze(results).value.chart[i].score == 100.0 * results[i].score
  {
    AsPercentagesRowByRow(results);
    ChartKeepsClassNames(results);
  }

  /** The first bar of the chart is the banner's entry as a percentage. */
  lemma HeadlineIsFirstBar(results: seq<Prediction>)
    requires results != []
    ensures var d := Analyze(results).value;
      d.chart[0] == Prediction(d.className, d.score * 100.0)
  {
  }

  /** Two outputs whose first entries carry the same label get the same tag. */
  lemma EmojiDependsOnlyOnTopLabel(r1: seq<Prediction>, r2: seq<Prediction>)
    requires r1 != [] && r2 != [] && r1[0].className == r2[0].className
    ensures Analyze(r1).value.emoji == Analyze(r2).value.emoji
  {
  }

  /** Scores ordered from highest to lowest, as the classifier returns them. */
  predicate SortedDescending(rows: seq<Prediction>)
  {
    forall i, j :: 0 <= i < j < |rows| ==> rows[i].score >= rows[j].score
  }

  /** The analysis trusts the classifier's order; only when the output is
      sorted is the banner's score the largest one, and the first bar the
      tallest. */
  lemma TopIsMaximumWhenSorted(results: seq<Prediction>)
    requires results != [] && SortedDescending(results)
    ensures forall i :: 0 <= i < |results| ==> results[i].score <= Analyze(results).value.score
    ensures SortedDescending(Analyze(results).value.chart)
  {
    AsPercentagesRowByRow(results);
  }

  /** Probabilities in [0, 1] become chart values in [0, 100]. */
  lemma ProbabilitiesBecomePercentages(results: seq<Prediction>)
    requires forall i :: 0 <= i < |results| ==> 0.0 <= results[i].score <= 1.0
    ensures |AsPercentages(results)| == |results|
    ensures forall i :: 0 <= i < |results| ==> 0.0 <= AsPercentages(results)[i].score <= 100.0
  {
  }

  /** Rows built from a label column and a score column of equal length. */
  function Zip(names: seq<string>, scores: seq<real>): seq<Prediction>
    requires |names| == |scores|
  {
    seq(|names|, i requires 0 <= i < |names| => Prediction(names[i], scores[i]))
  }

  /** The chart's data frame: a label column and a score column that the
      analysis rescales in place. */
  class ScoreTable {
    var classNames: seq<string>
    var scores: array<real>

    ghost predicate Valid()
      reads this
    {
      |classNames| == scores.Length
    }

    /** The table's rows, in order. */
    function Rows(): seq<Prediction>
      reads this, scores
      requires Valid()
    {
      Zip(classNames, scores[..])
    }

    /** Builds the frame from the classifier's output, one row per entry. */
    constructor (results: seq<Prediction>)
      ensures Valid() && fresh(scores)
      ensures Rows() == results
    {
      var column := new real[|results|];
      var names: seq<string> := [];
      for i := 0 to |results|
        invariant |names| == i
        invariant forall j :: 0 <= j < i ==> names[j] == results[j].className && column[j] == results[j].score
      {
        names := names + [results[i].className];
        column[i] := results[i].score;
      }
      classNames := names;
      scores := column;
    }

    /** Multiplies the score column by 100, keeping the labels. */
    method ScaleScoresBy100()
      requires Valid()
      modifies scores
      ensures Valid()
      ensures Rows() == AsPercentages(old(Rows()))
    {
      ghost var before := Rows();
      for i := 0 to scores.Length
        invariant forall j :: 0 <= j < i ==> scores[j] == old(scores[j]) * 100.0
        invariant forall j :: i <= j < scores.Length ==> scores[j] == old(scores[j])
      {
        scores[i] := scores[i] * 100.0;
      }
      AsPercentagesRowByRow(before);
    }
  }

  /** `analyze_image`, given the classifier's output for the image: take the
      first entry, tag it, and build and rescale the chart's table. */
  method AnalyzeImage(results: seq<Prediction>) returns (r: Result<DisplayRecord>)
    ensures r == Analyze(results)
  {
    if |results| == 0 {
      return Err(NoPredictions);
    }
    var top := results[0];
    var emoji := Emoji(top.className);
    var table := new ScoreTable(results);
    table.ScaleScoresBy100();
    r := Ok(DisplayRecord(emoji, top.className, top.score, table.Rows()));
  }
}
