/**
 * Macro-averaged precision, recall and F1 as `precision_score`,
 * `recall_score` and `f1_score` with `average='macro'` compute them: per
 * class from true positives, false positives and false negatives, a zero
 * denominator giving 0, then the unweighted mean over every label that
 * occurs in the ground truth or in the predictions.
 */
module Metrics {
  import opened Matrices

  datatype Metric = Precision | Recall | F1

  /** True positives, false positives and false negatives of one class. */
  datatype Tally = Tally(tp: nat, fp: nat, fn: nat)

  function TallyOf(truth: seq<int>, pred: seq<int>, c: int): (t: Tally)
    requires |truth| == |pred|
    ensures t.tp + t.fn == Count(truth, c) && t.tp + t.fp == Count(pred, c)
    decreases |truth|
  {
    if |truth| == 0 then Tally(0, 0, 0)
    else
      var t := TallyOf(truth[1..], pred[1..], c);
      var hit, said := truth[0] == c, pred[0] == c;
      Tally(t.tp + (if hit && said then 1 else 0),
            t.fp + (if said && !hit then 1 else 0),
            t.fn + (if hit && !said then 1 else 0))
  }

  /** Occurrences of c in s. */
  function Count(s: seq<int>, c: int): nat {
    if |s| == 0 then 0 else (if s[0] == c then 1 else 0) + Count(s[1..], c)
  }

  /** num / den, or 0 when den is 0 (the value sklearn substitutes for an undefined score). */
  function Ratio(num: nat, den: nat): (q: real)
    requires num <= den
    ensures 0.0 <= q <= 1.0
    ensures q == 1.0 <==> 0 < num == den
  {
    if den == 0 then 0.0 else num as real / den as real
  }

  /** The harmonic mean of p and r, or 0 when both are 0. */
  function HarmonicMean(p: real, r: real): (f: real)
    requires 0.0 <= p <= 1.0 && 0.0 <= r <= 1.0
    ensures 0.0 <= f <= 1.0
    ensures p + r == 0.0 ==> f == 0.0
  {
    if p + r == 0.0 then 0.0 else HarmonicBound(p, r); 2.0 * p * r / (p + r)
  }

  lemma HarmonicBound(p: real, r: real)
    requires 0.0 <= p <= 1.0 && 0.0 <= r <= 1.0 && p + r != 0.0
    ensures 0.0 <= 2.0 * p * r / (p + r) <= 1.0
  {
    ProductNonNegative(p, r);
    ProductNonNegative(p, 1.0 - r);
    ProductNonNegative(1.0 - p, r);
    var x, y := 2.0 * p * r, p + r;
    assert 0.0 <= x <= y;
    assert x / y <= y / y;
  }

  function ClassPrecision(truth: seq<int>, pred: seq<int>, c: int): real
    requires |truth| == |pred|
  {
    var t := TallyOf(truth, pred, c);
    Ratio(t.tp, t.tp + t.fp)
  }

  function ClassRecall(truth: seq<int>, pred: seq<int>, c: int): real
    requires |truth| == |pred|
  {
    var t := TallyOf(truth, pred, c);
    Ratio(t.tp, t.tp + t.fn)
  }

  function ClassScore(m: Metric, truth: seq<int>, pred: seq<int>, c: int): (s: real)
    requires |truth| == |pred|
    ensures 0.0 <= s <= 1.0
  {
    match m
    case Precision => ClassPrecision(truth, pred, c)
    case Recall => ClassRecall(truth, pred, c)
    case F1 => HarmonicMean(ClassPrecision(truth, pred, c), ClassRecall(truth, pred, c))
  }

  /** The elements of s, each once, in order of first occurrence. */
  function Distinct(s: seq<int>): (d: seq<int>)
    ensures forall x :: x in d <==> x in s
    ensures forall i, j :: 0 <= i < j < |d| ==> d[i] != d[j]
  {
    if |s| == 0 then []
    else
      var d := Distinct(s[..|s| - 1]);
      if s[|s| - 1] in d then d else d + [s[|s| - 1]]
  }

  /** The labels sklearn averages over: those present in the ground truth or the predictions. */
  function LabelSet(truth: seq<int>, pred: seq<int>): seq<int> {
    Distinct(truth + pred)
  }

  function SumScores(m: Metric, truth: seq<int>, pred: seq<int>, labels: seq<int>): real
    requires |truth| == |pred|
  {
    if |labels| == 0 then 0.0
    else ClassScore(m, truth, pred, labels[0]) + SumScores(m, truth, pred, labels[1..])
  }

  /**
   * The macro average of metric m: the mean of the per-class scores over
   * every label of the ground truth or the predictions, so it lies in [0, 1].
   */
  function Macro(m: Metric, truth: seq<int>, pred: seq<int>): (score: real)
    requires |truth| == |pred| > 0
    ensures 0.0 <= score <= 1.0
  {
    var labels := LabelSet(truth, pred);
    assert truth[0] in labels;
    SumScoresBounds(m, truth, pred, labels);
    FractionBounds(SumScores(m, truth, pred, labels), |labels| as real);
    SumScores(m, truth, pred, labels) / |labels| as real
  }

  /** Per-class scores in [0, 1] add up to at most the number of classes. */
  lemma {:induction false} SumScoresBounds(m: Metric, truth: seq<int>, pred: seq<int>, labels: seq<int>)
    requires |truth| == |pred|
    ensures 0.0 <= SumScores(m, truth, pred, labels) <= |labels| as real
  {
    if |labels| > 0 {
      SumScoresBounds(m, truth, pred, labels[1..]);
    }
  }

  lemma FractionBounds(s: real, n: real)
    requires 0.0 <= s <= n && 0.0 < n
    ensures 0.0 <= s / n <= 1.0
  {
    var q := s / n;
    assert s == q * n;
    if q < 0.0 {
      NegativeTimesPositive(q, n);
    }
    if 1.0 - q < 0.0 {
      NegativeTimesPositive(1.0 - q, n);
    }
  }

  lemma NegativeTimesPositive(x: real, y: real)
    requires x < 0.0 && 0.0 < y
    ensures x * y < 0.0
  {
  }

  /** A prediction equal to the ground truth has no false positives or negatives. */
  lemma {:induction false} PerfectTally(truth: seq<int>, c: int)
    ensures TallyOf(truth, truth, c) == Tally(Count(truth, c), 0, 0)
  {
    if |truth| > 0 {
      PerfectTally(truth[1..], c);
    }
  }

  lemma {:induction false} CountPositive(s: seq<int>, c: int)
    requires c in s
    ensures Count(s, c) > 0
  {
    if s[0] != c {
      CountPositive(s[1..], c);
    }
  }

  /** Every label that occurs scores 1 when the prediction is perfect. */
  lemma {:induction false} PerfectSum(m: Metric, truth: seq<int>, labels: seq<int>)
    requires forall i :: 0 <= i < |labels| ==> labels[i] in truth
    ensures SumScores(m, truth, truth, labels) == |labels| as real
  {
    if |labels| > 0 {
      var c := labels[0];
      PerfectTally(truth, c);
      CountPositive(truth, c);
      assert ClassScore(m, truth, truth, c) == 1.0;
      PerfectSum(m, truth, labels[1..]);
    }
  }

  /** Predicting the ground truth exactly scores 1.0 in each of the three macro metrics. */
  lemma PerfectPrediction(m: Metric, truth: seq<int>)
    requires |truth| > 0
    ensures Macro(m, truth, truth) == 1.0
  {
    var labels := LabelSet(truth, truth);
    assert truth[0] in labels;
    forall i | 0 <= i < |labels|
      ensures labels[i] in truth
    {
      assert labels[i] in truth + truth;
    }
    PerfectSum(m, truth, labels);
    var n := |labels| as real;
    assert Macro(m, truth, truth) == SumScores(m, truth, truth, labels) / n;
    DivSelf(n);
  }

  lemma DivSelf(x: real)
    requires x > 0.0
    ensures x / x == 1.0
  {
  }

  /** The per-class F1 is sklearn's 2 TP / (2 TP + FP + FN). */
  lemma F1FromTally(truth: seq<int>, pred: seq<int>, c: int)
    requires |truth| == |pred|
    ensures var t := TallyOf(truth, pred, c);
      ClassScore(F1, truth, pred, c) == Ratio(2 * t.tp, 2 * t.tp + t.fp + t.fn)
  {
    var t := TallyOf(truth, pred, c);
    var p, r := ClassPrecision(truth, pred, c), ClassRecall(truth, pred, c);
    assert p == Ratio(t.tp, t.tp + t.fp) && r == Ratio(t.tp, t.tp + t.fn);
    assert ClassScore(F1, truth, pred, c) == HarmonicMean(p, r);
    if t.tp > 0 {
      HarmonicOfRatios(t.tp, t.fp, t.fn);
    } else {
      assert p == 0.0 && r == 0.0;
    }
  }

  lemma HarmonicOfRatios(tp: nat, fp: nat, fn: nat)
    requires tp > 0
    ensures HarmonicMean(Ratio(tp, tp + fp), Ratio(tp, tp + fn)) == Ratio(2 * tp, 2 * tp + fp + fn)
  {
    var a, b, c := tp as real, fp as real, fn as real;
    var p, r := a / (a + b), a / (a + c);
    assert p + r == a * (2.0 * a + b + c) / ((a + b) * (a + c));
    assert 2.0 * p * r == 2.0 * a * a / ((a + b) * (a + c));
  }
}
