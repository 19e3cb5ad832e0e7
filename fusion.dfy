/**
 * Late fusion of the three modalities for one weight triple, and the hard
 * prediction taken from the fused probabilities.
 */
module Fusion {
  import opened Matrices
  import opened WeightGrid

  /** The three matrices have the same rows and the same width row by row, as numpy's elementwise sum demands. */
  predicate SameShape(t: Matrix, d: Matrix, h: Matrix) {
    && |t| == |d| == |h|
    && forall r :: 0 <= r < |t| ==> |t[r]| == |d[r]| == |h[r]|
  }

  /** One fused row: `w_text * t + w_description * d + w_hashtags * h`. */
  function CombineRow(w: Weights, t: Row, d: Row, h: Row): (row: Row)
    requires |t| == |d| == |h|
    ensures |row| == |t|
  {
    Add(Add(Scale(w.text, t), Scale(w.description, d)), Scale(w.hashtag, h))
  }

  /**
   * `w_text * text_pred + w_description * description_pred + w_hashtags * hashtag_pred`:
   * one fused row per sample, each fused from that sample's three rows
   * (`CombineEntry` gives the entries).
   */
  function Combine(w: Weights, t: Matrix, d: Matrix, h: Matrix): (m: Matrix)
    requires SameShape(t, d, h)
    ensures |m| == |t|
    ensures forall r :: 0 <= r < |m| ==> m[r] == CombineRow(w, t[r], d[r], h[r])
  {
    AddMatrix(AddMatrix(ScaleMatrix(w.text, t), ScaleMatrix(w.description, d)), ScaleMatrix(w.hashtag, h))
  }

  function MixWeights(a: real, v: Weights, b: real, w: Weights): Weights {
    Weights(a * v.text + b * w.text, a * v.description + b * w.description, a * v.hashtag + b * w.hashtag)
  }

  /** Fusion is linear in the weight triple. */
  lemma CombineLinear(a: real, v: Weights, b: real, w: Weights, t: Matrix, d: Matrix, h: Matrix)
    requires SameShape(t, d, h)
    ensures Combine(MixWeights(a, v, b, w), t, d, h)
         == AddMatrix(ScaleMatrix(a, Combine(v, t, d, h)), ScaleMatrix(b, Combine(w, t, d, h)))
  {
    var lhs := Combine(MixWeights(a, v, b, w), t, d, h);
    var cv, cw := Combine(v, t, d, h), Combine(w, t, d, h);
    var rhs := AddMatrix(ScaleMatrix(a, cv), ScaleMatrix(b, cw));
    forall r | 0 <= r < |t|
      ensures lhs[r] == rhs[r]
    {
      assert rhs[r] == Add(Scale(a, cv[r]), Scale(b, cw[r]));
      CombineRowLinear(a, v, b, w, t[r], d[r], h[r]);
    }
  }

  /** One row of the linearity: fusing with a·v + b·w is a·(fused with v) + b·(fused with w). */
  lemma CombineRowLinear(a: real, v: Weights, b: real, w: Weights, x: Row, y: Row, z: Row)
    requires |x| == |y| == |z|
    ensures CombineRow(MixWeights(a, v, b, w), x, y, z)
         == Add(Scale(a, CombineRow(v, x, y, z)), Scale(b, CombineRow(w, x, y, z)))
  {
    var lhs := CombineRow(MixWeights(a, v, b, w), x, y, z);
    var rv, rw := CombineRow(v, x, y, z), CombineRow(w, x, y, z);
    var rhs := Add(Scale(a, rv), Scale(b, rw));
    forall c | 0 <= c < |x|
      ensures lhs[c] == rhs[c]
    {
      assert rhs[c] == a * rv[c] + b * rw[c];
      CombineEntry(MixWeights(a, v, b, w), x, y, z, c);
      CombineEntry(v, x, y, z, c);
      CombineEntry(w, x, y, z, c);
      var m := MixWeights(a, v, b, w);
      assert m.text == a * v.text + b * w.text && m.description == a * v.description + b * w.description
          && m.hashtag == a * v.hashtag + b * w.hashtag;
      Distribute(a, v.text, v.description, v.hashtag, b, w.text, w.description, w.hashtag,
                 m.text, m.description, m.hashtag, x[c], y[c], z[c], lhs[c], rv[c], rw[c]);
    }
  }

  /** Entry c of a fused row is the weighted sum of the three entries c. */
  lemma CombineEntry(w: Weights, t: Row, d: Row, h: Row, c: nat)
    requires |t| == |d| == |h| && c < |t|
    ensures CombineRow(w, t, d, h)[c] == w.text * t[c] + w.description * d[c] + w.hashtag * h[c]
  {
  }

  /** Mixing weights distributes over one weighted sum of three entries. */
  lemma Distribute(a: real, vt: real, vd: real, vh: real, b: real, wt: real, wd: real, wh: real,
                   mt: real, md: real, mh: real, x: real, y: real, z: real, mixed: real, byV: real, byW: real)
    requires mt == a * vt + b * wt && md == a * vd + b * wd && mh == a * vh + b * wh
    requires mixed == mt * x + md * y + mh * z
    requires byV == vt * x + vd * y + vh * z && byW == wt * x + wd * y + wh * z
    ensures mixed == a * byV + b * byW
  {
  }

  /** The sum of a fused row is the weighted sum of the three rows' sums. */
  lemma CombineRowSum(w: Weights, t: Row, d: Row, h: Row)
    requires |t| == |d| == |h|
    ensures Sum(CombineRow(w, t, d, h)) == w.text * Sum(t) + w.description * Sum(d) + w.hashtag * Sum(h)
  {
    SumTriple(w.text, t, w.description, d, w.hashtag, h);
  }

  lemma SumTriple(a: real, x: Row, b: real, y: Row, c: real, z: Row)
    requires |x| == |y| == |z|
    ensures Sum(Add(Add(Scale(a, x), Scale(b, y)), Scale(c, z))) == a * Sum(x) + b * Sum(y) + c * Sum(z)
  {
    SumAdd(Add(Scale(a, x), Scale(b, y)), Scale(c, z));
    SumPair(a, x, b, y);
    SumScale(c, z);
  }

  lemma SumPair(a: real, x: Row, b: real, y: Row)
    requires |x| == |y|
    ensures Sum(Add(Scale(a, x), Scale(b, y))) == a * Sum(x) + b * Sum(y)
  {
    SumAdd(Scale(a, x), Scale(b, y));
    SumScale(a, x);
    SumScale(b, y);
  }

  /**
   * Fusing three categorical distributions with a convex triple gives a
   * categorical distribution, so every row of the fused matrix of a grid
   * triple is one whenever the modalities' rows are.
   */
  lemma CombineDistribution(w: Weights, t: Row, d: Row, h: Row)
    requires |t| == |d| == |h|
    requires IsConvex(w)
    requires IsDistribution(t) && IsDistribution(d) && IsDistribution(h)
    ensures IsDistribution(CombineRow(w, t, d, h))
  {
    CombineRowSum(w, t, d, h);
    var row := CombineRow(w, t, d, h);
    forall c | 0 <= c < |row|
      ensures 0.0 <= row[c]
    {
      CombineEntryNonNegative(w, t, d, h, c);
    }
  }

  /** With non-negative weights, an entry fused from non-negative entries is non-negative. */
  lemma CombineEntryNonNegative(w: Weights, t: Row, d: Row, h: Row, c: nat)
    requires |t| == |d| == |h| && c < |t|
    requires 0.0 <= w.text && 0.0 <= w.description && 0.0 <= w.hashtag
    requires 0.0 <= t[c] && 0.0 <= d[c] && 0.0 <= h[c]
    ensures 0.0 <= CombineRow(w, t, d, h)[c]
  {
    CombineEntry(w, t, d, h, c);
    CombinationNonNegative(w.text, t[c], w.description, d[c], w.hashtag, h[c]);
  }

  lemma CombinationNonNegative(a: real, x: real, b: real, y: real, c: real, z: real)
    requires 0.0 <= a && 0.0 <= x && 0.0 <= b && 0.0 <= y && 0.0 <= c && 0.0 <= z
    ensures 0.0 <= a * x + b * y + c * z
  {
    ProductNonNegative(a, x);
    ProductNonNegative(b, y);
    ProductNonNegative(c, z);
  }

  /** `np.apply_along_axis(np.argmax, 1, combined_prob)`: the first maximal column of every row. */
  function HardPredictions(m: Matrix): (p: seq<nat>)
    requires forall r :: 0 <= r < |m| ==> |m[r]| > 0
    ensures |p| == |m|
    ensures forall r :: 0 <= r < |m| ==> p[r] < |m[r]|
  {
    seq(|m|, r requires 0 <= r < |m| => FirstArgMax(m[r]))
  }

  /**
   * Every hard prediction names a column of maximal fused probability,
   * no earlier column reaches it, and with 10 columns it is a class in [0, 10).
   */
  lemma HardPredictionIsFirstMax(m: Matrix, r: nat)
    requires HasColumns(m, Classes) && r < |m|
    ensures HardPredictions(m)[r] < Classes
    ensures forall c :: 0 <= c < Classes ==> m[r][c] <= m[r][HardPredictions(m)[r]]
    ensures forall c :: 0 <= c < HardPredictions(m)[r] ==> m[r][c] < m[r][HardPredictions(m)[r]]
  {
  }
}
