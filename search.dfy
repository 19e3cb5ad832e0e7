/**
 * The weight search: every grid triple is scored by the macro metrics of
 * its fused hard predictions, and the first triple of highest macro
 * precision is selected together with the recall and F1 seen at it.
 */
module Search {
  import opened Wrappers
  import opened Matrices
  import opened Folds
  import opened WeightGrid
  import opened Fusion
  import opened Metrics
  import opened Labels
  import opened OutOfFold

  datatype Scores = Scores(precision: real, recall: real, f1: real)

  /** The outcome the script prints: the chosen triple and its three scores. */
  datatype Selection = Selection(index: nat, weights: Weights, scores: Scores)

  datatype Modality = Text | Description | Hashtags

  datatype Failure =
    | FoldFailure(modality: Modality, cause: OutOfFold.Error)
    | BadLabel  // a label line that int() rejects

  /** The probability matrices the fusion reads: three aligned N x 10 matrices and N labels. */
  predicate Aligned(t: Matrix, d: Matrix, h: Matrix, truth: seq<int>) {
    && SameShape(t, d, h)
    && HasColumns(t, Classes)
    && |truth| == |t| > 0
  }

  /** One cell of the search: fuse with w, take the hard predictions, score them against the truth. */
  function Evaluate(w: Weights, t: Matrix, d: Matrix, h: Matrix, truth: seq<int>): (s: Scores)
    requires Aligned(t, d, h, truth)
    ensures 0.0 <= s.precision <= 1.0 && 0.0 <= s.recall <= 1.0 && 0.0 <= s.f1 <= 1.0
  {
    var pred := HardPredictions(Combine(w, t, d, h));
    Scores(Macro(Precision, truth, pred), Macro(Recall, truth, pred), Macro(F1, truth, pred))
  }

  /** A triple whose fused predictions are the ground truth scores 1.0 three times. */
  lemma EvaluatePerfect(w: Weights, t: Matrix, d: Matrix, h: Matrix, truth: seq<int>)
    requires Aligned(t, d, h, truth)
    requires HardPredictions(Combine(w, t, d, h)) == truth
    ensures Evaluate(w, t, d, h, truth) == Scores(1.0, 1.0, 1.0)
  {
    PerfectPrediction(Precision, truth);
    PerfectPrediction(Recall, truth);
    PerfectPrediction(F1, truth);
  }

  /** The grid loop: one precision, recall and F1 appended per triple, in grid order. */
  method EvaluateGrid(weightSets: seq<Weights>, t: Matrix, d: Matrix, h: Matrix, truth: seq<int>)
    returns (precisions: seq<real>, recalls: seq<real>, f1Scores: seq<real>)
    requires Aligned(t, d, h, truth)
    ensures |precisions| == |recalls| == |f1Scores| == |weightSets|
    ensures forall i :: 0 <= i < |weightSets| ==>
      Scores(precisions[i], recalls[i], f1Scores[i]) == Evaluate(weightSets[i], t, d, h, truth)
  {
    precisions, recalls, f1Scores := [], [], [];
    for i := 0 to |weightSets|
      invariant |precisions| == |recalls| == |f1Scores| == i
      invariant forall k :: 0 <= k < i ==>
        Scores(precisions[k], recalls[k], f1Scores[k]) == Evaluate(weightSets[k], t, d, h, truth)
    {
      var s := Evaluate(weightSets[i], t, d, h, truth);
      precisions := precisions + [s.precision];
      recalls := recalls + [s.recall];
      f1Scores := f1Scores + [s.f1];
    }
  }

  /**
   * `opt_id = np.argmax(precisions)`: the first index of maximal precision;
   * recall and F1 are read at that index, not maximised on their own.
   */
  function Select(weightSets: seq<Weights>, precisions: seq<real>, recalls: seq<real>, f1Scores: seq<real>): (s: Selection)
    requires |weightSets| == |precisions| == |recalls| == |f1Scores| > 0
    ensures s.index < |weightSets| && s.weights == weightSets[s.index]
    ensures s.scores == Scores(precisions[s.index], recalls[s.index], f1Scores[s.index])
    ensures forall i :: 0 <= i < |precisions| ==> precisions[i] <= s.scores.precision
    ensures forall i :: 0 <= i < s.index ==> precisions[i] < s.scores.precision
  {
    var k := FirstArgMax(precisions);
    Selection(k, weightSets[k], Scores(precisions[k], recalls[k], f1Scores[k]))
  }

  /** The scores of grid triple k for the given out-of-fold predictors and labels. */
  function GridScores(k: nat, n: nat, text: Predictor, description: Predictor, hashtags: Predictor, truth: seq<int>): Scores
    requires k < |Grid()| && Splits <= n && |truth| == n
    requires RowsFit(n, text) && RowsFit(n, description) && RowsFit(n, hashtags)
  {
    var t, d, h := OutOfFoldMatrix(n, text), OutOfFoldMatrix(n, description), OutOfFoldMatrix(n, hashtags);
    Evaluate(Grid()[k], t, d, h, truth)
  }

  /**
   * s is the script's choice on the out-of-fold matrices of n samples: the
   * first grid triple of maximal macro precision, with that triple's own scores.
   */
  predicate IsFirstBest(s: Selection, n: nat, text: Predictor, description: Predictor, hashtags: Predictor, truth: seq<int>)
    requires Splits <= n && |truth| == n
    requires RowsFit(n, text) && RowsFit(n, description) && RowsFit(n, hashtags)
  {
    && s.index < |Grid()| && s.weights == Grid()[s.index]
    && s.scores == GridScores(s.index, n, text, description, hashtags, truth)
    && (forall k :: 0 <= k < |Grid()| ==>
          GridScores(k, n, text, description, hashtags, truth).precision <= s.scores.precision)
    && (forall k :: 0 <= k < s.index ==>
          GridScores(k, n, text, description, hashtags, truth).precision < s.scores.precision)
  }

  /** Selecting from the scores of the whole grid on the out-of-fold matrices makes the script's choice. */
  lemma SelectIsFirstBest(n: nat, text: Predictor, description: Predictor, hashtags: Predictor, truth: seq<int>,
                          precisions: seq<real>, recalls: seq<real>, f1Scores: seq<real>)
    requires Splits <= n && |truth| == n
    requires RowsFit(n, text) && RowsFit(n, description) && RowsFit(n, hashtags)
    requires |precisions| == |recalls| == |f1Scores| == |Grid()|
    requires forall i :: 0 <= i < |Grid()| ==>
      Scores(precisions[i], recalls[i], f1Scores[i]) == GridScores(i, n, text, description, hashtags, truth)
    ensures IsFirstBest(Select(Grid(), precisions, recalls, f1Scores), n, text, description, hashtags, truth)
  {
    var s := Select(Grid(), precisions, recalls, f1Scores);
    forall k | 0 <= k < |Grid()|
      ensures precisions[k] == GridScores(k, n, text, description, hashtags, truth).precision
    {
      assert Scores(precisions[k], recalls[k], f1Scores[k]).precision == precisions[k];
    }
  }

  /** The out-of-fold matrices of n samples, all n x 10, are aligned with n labels. */
  lemma OutOfFoldAligned(n: nat, text: Predictor, description: Predictor, hashtags: Predictor, truth: seq<int>)
    requires Splits <= n && |truth| == n
    requires RowsFit(n, text) && RowsFit(n, description) && RowsFit(n, hashtags)
    ensures Aligned(OutOfFoldMatrix(n, text), OutOfFoldMatrix(n, description), OutOfFoldMatrix(n, hashtags), truth)
  {
  }

  /**
   * The whole search after feature extraction: out-of-fold predictions for
   * text, description and hashtags, the weight grid, the labels, the grid
   * loop and the selection, failing where the script raises.
   */
  method Run(labelLines: seq<string>, text: Predictor, description: Predictor, hashtags: Predictor)
    returns (result: Result<Selection, Failure>)
    ensures var n := |labelLines|;
      n < Splits ==> result == Failure(FoldFailure(Text, TooFewSamples))
    ensures var n := |labelLines|;
      Splits <= n && !RowsFit(n, text) ==> result == Failure(FoldFailure(Text, ShapeMismatch))
    ensures var n := |labelLines|;
      Splits <= n && RowsFit(n, text) && !RowsFit(n, description) ==> result == Failure(FoldFailure(Description, ShapeMismatch))
    ensures var n := |labelLines|;
      Splits <= n && RowsFit(n, text) && RowsFit(n, description) && !RowsFit(n, hashtags) ==>
        result == Failure(FoldFailure(Hashtags, ShapeMismatch))
    ensures var n := |labelLines|;
      Splits <= n && RowsFit(n, text) && RowsFit(n, description) && RowsFit(n, hashtags) && ParseLabels(labelLines).None? ==>
        result == Failure(BadLabel)
    ensures var n := |labelLines|;
      Splits <= n && RowsFit(n, text) && RowsFit(n, description) && RowsFit(n, hashtags) && ParseLabels(labelLines).Some? ==>
        result.Success?
    ensures result.Success? ==>
      var n := |labelLines|;
      && Splits <= n && RowsFit(n, text) && RowsFit(n, description) && RowsFit(n, hashtags) && ParseLabels(labelLines).Some?
      && IsFirstBest(result.value, n, text, description, hashtags, ParseLabels(labelLines).value)
  {
    var n := |labelLines|;
    var t := Assemble(n, text);
    if t.Failure? {
      return Failure(FoldFailure(Text, t.error));
    }
    var d := Assemble(n, description);
    if d.Failure? {
      return Failure(FoldFailure(Description, d.error));
    }
    var h := Assemble(n, hashtags);
    if h.Failure? {
      return Failure(FoldFailure(Hashtags, h.error));
    }
    var weightSets := BuildGrid();
    var parsed := ParseLabels(labelLines);
    if parsed.None? {
      return Failure(BadLabel);
    }
    var truth := parsed.value;
    OutOfFoldAligned(n, text, description, hashtags, truth);
    var precisions, recalls, f1Scores := EvaluateGrid(weightSets, t.value, d.value, h.value, truth);
    SelectIsFirstBest(n, text, description, hashtags, truth, precisions, recalls, f1Scores);
    result := Success(Select(weightSets, precisions, recalls, f1Scores));
  }
}
