/**
 * The fold plan of `KFold(n_splits=10)` without shuffling. The splitter is
 * library code that is not part of this model; it is assumed to cut [0, n)
 * into contiguous blocks in index order, the first n % k of them one sample
 * larger than the rest, and to refuse n < k.
 */
module Folds {
  /** `KFold(n_splits=10)`. */
  const Splits: nat := 10

  /** Size of fold f of k over n samples. */
  function FoldSize(n: nat, k: nat, f: nat): nat
    requires 0 < k
  {
    n / k + (if f < n % k then 1 else 0)
  }

  /** First index of fold f: the sizes of the folds before it, added up as the splitter walks them. */
  function FoldStart(n: nat, k: nat, f: nat): nat
    requires 0 < k
  {
    if f == 0 then 0 else FoldStart(n, k, f - 1) + FoldSize(n, k, f - 1)
  }

  /** The held-out indices of fold f, in order. */
  function TestIndices(n: nat, k: nat, f: nat): (test: seq<nat>)
    requires 0 < k
    ensures |test| == FoldSize(n, k, f)
    ensures forall i :: 0 <= i < |test| ==> FoldStart(n, k, f) <= test[i] < FoldStart(n, k, f + 1)
  {
    seq(FoldSize(n, k, f), i => FoldStart(n, k, f) + i)
  }

  /** The training indices of fold f: every other index of [0, n), in order. */
  function TrainIndices(n: nat, k: nat, f: nat): (train: seq<nat>)
    requires 0 < k && f < k
    ensures |train| == n - FoldSize(n, k, f)
  {
    FoldStartEnd(n, k);
    FoldStartMonotone(n, k, f + 1, k);
    var lo, hi := FoldStart(n, k, f), FoldStart(n, k, f + 1);
    seq(lo, i => i) + seq(if hi <= n then n - hi else 0, i => hi + i)
  }

  /** The fold starts in closed form; the last fold ends at n. */
  lemma {:induction false} FoldStartClosed(n: nat, k: nat, f: nat)
    requires 0 < k && f <= k
    ensures FoldStart(n, k, f) == f * (n / k) + (if f < n % k then f else n % k)
    ensures f == k ==> FoldStart(n, k, f) == n
  {
    var q, m := n / k, n % k;
    if f > 0 {
      FoldStartClosed(n, k, f - 1);
      assert FoldStart(n, k, f) == FoldStart(n, k, f - 1) + FoldSize(n, k, f - 1);
      assert FoldSize(n, k, f - 1) == q + (if f - 1 < m then 1 else 0);
      MulStep(f, q);
    }
    if f == k {
      DivMod(n, k);
    }
  }

  lemma DivMod(n: nat, k: nat)
    requires 0 < k
    ensures k * (n / k) + n % k == n && n % k < k
  {
  }

  /** The last fold ends at n. */
  lemma FoldStartEnd(n: nat, k: nat)
    requires 0 < k
    ensures FoldStart(n, k, k) == n
  {
    FoldStartClosed(n, k, k);
  }

  lemma MulStep(f: nat, q: nat)
    requires 0 < f
    ensures (f - 1) * q + q == f * q
  {
  }

  /** Fold starts never decrease, and strictly increase when every fold is non-empty. */
  lemma {:induction false} FoldStartMonotone(n: nat, k: nat, f: nat, g: nat)
    requires 0 < k && f <= g
    ensures FoldStart(n, k, f) <= FoldStart(n, k, g)
    ensures k <= n && f < g ==> FoldStart(n, k, f) < FoldStart(n, k, g)
  {
    if f < g {
      FoldStartMonotone(n, k, f, g - 1);
      assert k <= n ==> 1 <= n / k;
    }
  }

  /** The one fold that holds sample r out. */
  function FoldOf(n: nat, k: nat, r: nat): (f: nat)
    requires 0 < k && r < n
    ensures f < k && FoldStart(n, k, f) <= r < FoldStart(n, k, f + 1)
  {
    FoldStartEnd(n, k);
    FoldFrom(n, k, r, 0)
  }

  function FoldFrom(n: nat, k: nat, r: nat, f: nat): (g: nat)
    requires 0 < k && f < k && r < n && FoldStart(n, k, f) <= r
    requires FoldStart(n, k, k) == n
    ensures f <= g < k && FoldStart(n, k, g) <= r < FoldStart(n, k, g + 1)
    decreases k - f
  {
    if r < FoldStart(n, k, f + 1) then f
    else if f + 1 == k then assert false; f
    else FoldFrom(n, k, r, f + 1)
  }

  /** A sample lies in block f exactly when f is its fold. */
  lemma InFoldIff(n: nat, k: nat, f: nat, r: nat)
    requires 0 < k && f < k && r < n
    ensures (FoldStart(n, k, f) <= r < FoldStart(n, k, f + 1)) <==> f == FoldOf(n, k, r)
  {
    var g := FoldOf(n, k, r);
    if FoldStart(n, k, f) <= r < FoldStart(n, k, f + 1) && f != g {
      if f < g {
        FoldStartMonotone(n, k, f + 1, g);
      } else {
        FoldStartMonotone(n, k, g + 1, f);
      }
    }
  }

  /** Every sample in block f has fold f. */
  lemma FoldOfBlock(n: nat, k: nat, f: nat, r: nat)
    requires 0 < k && f < k && r < n
    requires FoldStart(n, k, f) <= r < FoldStart(n, k, f) + FoldSize(n, k, f)
    ensures FoldOf(n, k, r) == f
  {
    assert FoldStart(n, k, f + 1) == FoldStart(n, k, f) + FoldSize(n, k, f);
    InFoldIff(n, k, f, r);
  }

  /**
   * Both index lists of fold f lie in [0, n) and are strictly
   * increasing, so no index appears twice, and the training list holds the
   * n - FoldSize(f) indices the test list does not.
   */
  lemma FoldIndicesInRange(n: nat, k: nat, f: nat)
    requires 0 < k && f < k
    ensures forall i :: 0 <= i < |TestIndices(n, k, f)| ==> TestIndices(n, k, f)[i] < n
    ensures forall i, j :: 0 <= i < j < |TestIndices(n, k, f)| ==> TestIndices(n, k, f)[i] < TestIndices(n, k, f)[j]
    ensures forall i :: 0 <= i < |TrainIndices(n, k, f)| ==> TrainIndices(n, k, f)[i] < n
    ensures forall i, j :: 0 <= i < j < |TrainIndices(n, k, f)| ==> TrainIndices(n, k, f)[i] < TrainIndices(n, k, f)[j]
    ensures |TrainIndices(n, k, f)| == n - FoldSize(n, k, f)
  {
    FoldStartEnd(n, k);
    FoldStartMonotone(n, k, f + 1, k);
    var lo, hi := FoldStart(n, k, f), FoldStart(n, k, f + 1);
    assert hi == lo + FoldSize(n, k, f) <= n;
  }

  /**
   * The test folds partition [0, n): sample r is held out by fold f exactly
   * when f is FoldOf(r), and it is in the training set of every other fold.
   */
  lemma FoldsPartition(n: nat, k: nat, f: nat, r: nat)
    requires 0 < k && f < k && r < n
    ensures r in TestIndices(n, k, f) <==> f == FoldOf(n, k, r)
    ensures r in TrainIndices(n, k, f) <==> f != FoldOf(n, k, r)
  {
    InFoldIff(n, k, f, r);
    var lo, hi := FoldStart(n, k, f), FoldStart(n, k, f + 1);
    var test := TestIndices(n, k, f);
    if lo <= r < hi {
      assert test[r - lo] == r;
    }
    FoldStartEnd(n, k);
    FoldStartMonotone(n, k, f + 1, k);
    var train := TrainIndices(n, k, f);
    if r < lo {
      assert train[r] == r;
    } else if hi <= r {
      assert train[lo + (r - hi)] == r;
    }
  }
}
