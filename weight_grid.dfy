/**
 * The candidate fusion weights: `np.arange(0.0, 0.6, 0.01)` for the text
 * weight and `np.arange(0, 0.4, 0.01)` for the description weight, with
 * the hashtag weight taking up the rest of 1. Weights are exact hundredths.
 */
module WeightGrid {
  /** Number of text weights 0.00 .. 0.59. */
  const TextSteps: nat := 60
  /** Number of description weights 0.00 .. 0.39. */
  const DescriptionSteps: nat := 40

  datatype Weights = Weights(text: real, description: real, hashtag: real)

  function Hundredths(i: nat): real {
    i as real / 100.0
  }

  /** The triple appended for text step i and description step j. */
  function Triple(i: nat, j: nat): (w: Weights)
    ensures w.text + w.description + w.hashtag == 1.0
    ensures i + j <= 98 ==> IsConvex(w)
  {
    Weights(Hundredths(i), Hundredths(j), 1.0 - Hundredths(i) - Hundredths(j))
  }

  /** A true convex combination with some weight left for the hashtags. */
  predicate IsConvex(w: Weights) {
    && 0.0 <= w.text && 0.0 <= w.description && 0.02 <= w.hashtag
    && w.text + w.description + w.hashtag == 1.0
  }

  /**
   * The grid in closed form: entry k pairs text step k % 60 with
   * description step k / 60. Every entry is convex, and no triple appears
   * twice: the grid is the Cartesian product of the two ranges.
   */
  function Grid(): (g: seq<Weights>)
    ensures |g| == TextSteps * DescriptionSteps == 2400
    ensures forall k :: 0 <= k < |g| ==> IsConvex(g[k])
    ensures forall k, l :: 0 <= k < l < |g| ==> g[k] != g[l]
  {
    seq(TextSteps * DescriptionSteps, k requires 0 <= k => Triple(k % TextSteps, k / TextSteps))
  }

  /**
   * The nested loop of the script: description weights outside, text
   * weights inside, each triple appended in turn.
   */
  method BuildGrid() returns (weightSets: seq<Weights>)
    ensures weightSets == Grid()
  {
    weightSets := [];
    var j := 0;
    while j < DescriptionSteps
      invariant j <= DescriptionSteps
      invariant |weightSets| == j * TextSteps
      invariant forall k :: 0 <= k < |weightSets| ==> weightSets[k] == Grid()[k]
    {
      var i := 0;
      while i < TextSteps
        invariant i <= TextSteps
        invariant |weightSets| == j * TextSteps + i
        invariant forall k :: 0 <= k < |weightSets| ==> weightSets[k] == Grid()[k]
      {
        GridAt(i, j);
        weightSets := weightSets + [Triple(i, j)];
        i := i + 1;
      }
      j := j + 1;
    }
  }

  /** Text step i under description step j sits at index j * 60 + i. */
  lemma GridAt(i: nat, j: nat)
    requires i < TextSteps && j < DescriptionSteps
    ensures j * TextSteps + i < |Grid()|
    ensures Grid()[j * TextSteps + i] == Triple(i, j)
  {
    var k := j * TextSteps + i;
    assert k / TextSteps == j && k % TextSteps == i;
  }
}
