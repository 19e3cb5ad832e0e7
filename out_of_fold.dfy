/**
 * Out-of-fold probability assembly: one loop per modality (text,
 * description, hashtags) that fits a model on each fold's training indices
 * and appends its class-probability rows for the fold's held-out samples.
 */
module OutOfFold {
  import opened Wrappers
  import opened Matrices
  import opened Folds

  /**
   * The fitted classifier, abstracted: given a fold's training indices and
   * one held-out sample, the probability row `predict_proba` yields for it.
   */
  type Predictor = (seq<nat>, nat) -> Row

  datatype Error =
    | TooFewSamples  // KFold refuses fewer samples than splits
    | ShapeMismatch  // a fold's rows are not 10 wide, so the concatenation fails

  /** The row sample r gets from the model of the one fold that held r out. */
  function OutOfFoldRow(n: nat, predict: Predictor, r: nat): Row
    requires r < n
  {
    predict(TrainIndices(n, Splits, FoldOf(n, Splits, r)), r)
  }

  /** The whole out-of-fold matrix: row r from the model that held r out. */
  function OutOfFoldMatrix(n: nat, predict: Predictor): Matrix
  {
    seq(n, r requires 0 <= r < n => OutOfFoldRow(n, predict, r))
  }

  /** Every out-of-fold row is as wide as the 0 x 10 matrix it is appended to. */
  predicate RowsFit(n: nat, predict: Predictor) {
    forall r :: 0 <= r < n ==> |OutOfFoldRow(n, predict, r)| == Classes
  }

  /**
   * Start from an empty 0 x 10 matrix and append each fold's predictions in
   * fold order. On success row r is the prediction for sample r by the model
   * that did not see r.
   */
  method Assemble(n: nat, predict: Predictor) returns (result: Result<Matrix, Error>)
    ensures n < Splits ==> result == Failure(TooFewSamples)
    ensures Splits <= n && !RowsFit(n, predict) ==> result == Failure(ShapeMismatch)
    ensures Splits <= n && RowsFit(n, predict) ==> result.Success?
    ensures result.Success? ==> result.value == OutOfFoldMatrix(n, predict) && HasColumns(result.value, Classes)
  {
    if n < Splits {
      return Failure(TooFewSamples);
    }
    FoldStartEnd(n, Splits);
    var pred: Matrix := [];
    var f := 0;
    while f < Splits
      invariant f <= Splits
      invariant Assembled(n, predict, f, pred)
    {
      var train, test := TrainIndices(n, Splits, f), TestIndices(n, Splits, f);
      var predicts := seq(|test|, j requires 0 <= j < |test| => predict(train, test[j]));
      if exists j :: 0 <= j < |predicts| && |predicts[j]| != Classes {
        MisshapenFold(n, predict, f, predicts);
        return Failure(ShapeMismatch);
      }
      AppendFold(n, predict, f, pred, predicts);
      pred := pred + predicts;
      f := f + 1;
    }
    return Success(pred);
  }

  /** The loop invariant: pred holds the out-of-fold rows of folds 0 .. f-1. */
  ghost predicate Assembled(n: nat, predict: Predictor, f: nat, pred: Matrix) {
    && |pred| == FoldStart(n, Splits, f) <= n
    && HasColumns(pred, Classes)
    && forall r :: 0 <= r < |pred| ==> pred[r] == OutOfFoldRow(n, predict, r)
  }

  /** Appending fold f's rows, all 10 wide, extends the invariant to f + 1. */
  lemma AppendFold(n: nat, predict: Predictor, f: nat, pred: Matrix, predicts: seq<Row>)
    requires Splits <= n && f < Splits
    requires Assembled(n, predict, f, pred)
    requires |predicts| == FoldSize(n, Splits, f)
    requires forall j :: 0 <= j < |predicts| ==>
      predicts[j] == predict(TrainIndices(n, Splits, f), TestIndices(n, Splits, f)[j])
    requires HasColumns(predicts, Classes)
    ensures Assembled(n, predict, f + 1, pred + predicts)
  {
    FoldRows(n, predict, f, predicts);
    var next := pred + predicts;
    forall r | 0 <= r < |next|
      ensures next[r] == OutOfFoldRow(n, predict, r)
    {
      if r >= |pred| {
        assert next[r] == predicts[r - |pred|];
      }
    }
  }

  /** A fold row that is not 10 wide is an out-of-fold row that is not 10 wide. */
  lemma MisshapenFold(n: nat, predict: Predictor, f: nat, predicts: seq<Row>)
    requires Splits <= n && f < Splits
    requires |predicts| == FoldSize(n, Splits, f)
    requires forall j :: 0 <= j < |predicts| ==>
      predicts[j] == predict(TrainIndices(n, Splits, f), TestIndices(n, Splits, f)[j])
    requires exists j :: 0 <= j < |predicts| && |predicts[j]| != Classes
    ensures !RowsFit(n, predict)
  {
    FoldRows(n, predict, f, predicts);
    var j :| 0 <= j < |predicts| && |predicts[j]| != Classes;
    var r := FoldStart(n, Splits, f) + j;
    assert predicts[r - FoldStart(n, Splits, f)] == OutOfFoldRow(n, predict, r);
  }

  /** The rows one fold appends are the out-of-fold rows of its block of samples. */
  lemma FoldRows(n: nat, predict: Predictor, f: nat, predicts: seq<Row>)
    requires Splits <= n && f < Splits
    requires |predicts| == FoldSize(n, Splits, f)
    requires forall j :: 0 <= j < |predicts| ==>
      predicts[j] == predict(TrainIndices(n, Splits, f), TestIndices(n, Splits, f)[j])
    ensures FoldStart(n, Splits, f + 1) == FoldStart(n, Splits, f) + |predicts| <= n
    ensures forall r :: FoldStart(n, Splits, f) <= r < FoldStart(n, Splits, f + 1) ==>
      r < n && predicts[r - FoldStart(n, Splits, f)] == OutOfFoldRow(n, predict, r)
  {
    FoldStartEnd(n, Splits);
    FoldStartMonotone(n, Splits, f + 1, Splits);
    var lo := FoldStart(n, Splits, f);
    forall r | lo <= r < FoldStart(n, Splits, f + 1)
      ensures r < n && predicts[r - lo] == OutOfFoldRow(n, predict, r)
    {
      FoldOfBlock(n, Splits, f, r);
    }
  }
}
