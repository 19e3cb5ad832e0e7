/** Probability rows and matrices as the script holds them in numpy arrays. */
module Matrices {
  /** Every probability matrix of the script is allocated as N x 10. */
  const Classes: nat := 10

  type Row = seq<real>
  type Matrix = seq<Row>

  /** Every row of m has exactly `cols` entries. */
  predicate HasColumns(m: Matrix, cols: nat) {
    forall r :: 0 <= r < |m| ==> |m[r]| == cols
  }

  function Sum(row: Row): real {
    if |row| == 0 then 0.0 else row[0] + Sum(row[1..])
  }

  /** `a * row`, elementwise. */
  function Scale(a: real, row: Row): (y: Row)
    ensures |y| == |row|
  {
    seq(|row|, c requires 0 <= c < |row| => a * row[c])
  }

  /** `x + y`, elementwise. */
  function Add(x: Row, y: Row): (z: Row)
    requires |x| == |y|
    ensures |z| == |x|
  {
    seq(|x|, c requires 0 <= c < |x| => x[c] + y[c])
  }

  /** `a * m` for a matrix. */
  function ScaleMatrix(a: real, m: Matrix): (s: Matrix)
    ensures |s| == |m| && forall r :: 0 <= r < |m| ==> |s[r]| == |m[r]|
  {
    seq(|m|, r requires 0 <= r < |m| => Scale(a, m[r]))
  }

  /** `x + y` for two matrices of one shape. */
  function AddMatrix(x: Matrix, y: Matrix): (s: Matrix)
    requires |x| == |y| && forall r :: 0 <= r < |x| ==> |x[r]| == |y[r]|
    ensures |s| == |x| && forall r :: 0 <= r < |x| ==> |s[r]| == |x[r]|
  {
    seq(|x|, r requires 0 <= r < |x| => Add(x[r], y[r]))
  }

  /** Summing a row commutes with scaling it. */
  lemma {:induction false} SumScale(a: real, row: Row)
    ensures Sum(Scale(a, row)) == a * Sum(row)
  {
    if |row| > 0 {
      var y, z := Scale(a, row), Scale(a, row[1..]);
      assert forall c :: 0 <= c < |z| ==> y[1..][c] == z[c];
      assert y[1..] == z;
      SumScale(a, row[1..]);
    }
  }

  /** Summing a row commutes with adding rows. */
  lemma {:induction false} SumAdd(x: Row, y: Row)
    requires |x| == |y|
    ensures Sum(Add(x, y)) == Sum(x) + Sum(y)
  {
    if |x| > 0 {
      var s, t := Add(x, y), Add(x[1..], y[1..]);
      assert forall c :: 0 <= c < |t| ==> s[1..][c] == t[c];
      assert s[1..] == t;
      SumAdd(x[1..], y[1..]);
    }
  }

  lemma ProductNonNegative(x: real, y: real)
    requires 0.0 <= x && 0.0 <= y
    ensures 0.0 <= x * y
  {
  }

  /** A categorical distribution: non-negative entries summing to 1. */
  predicate IsDistribution(row: Row) {
    (forall c :: 0 <= c < |row| ==> 0.0 <= row[c]) && Sum(row) == 1.0
  }

  /**
   * numpy's argmax over a row: the index of the first maximal entry.
   * The contract pins it down: no later entry is larger and every
   * earlier entry is strictly smaller.
   */
  function FirstArgMax(s: seq<real>): (k: nat)
    requires |s| > 0
    ensures k < |s|
    ensures forall j :: 0 <= j < |s| ==> s[j] <= s[k]
    ensures forall j :: 0 <= j < k ==> s[j] < s[k]
  {
    if |s| == 1 then 0
    else
      var k' := FirstArgMax(s[..|s| - 1]);
      if s[k'] < s[|s| - 1] then |s| - 1 else k'
  }
}
