# Late-fusion weight search for tweet classification

This project is a Dafny model of the late-fusion part of `tweet_late_fusion_classifier.py`. The script classifies tweets into 10 classes using three text sources ("modalities"): the tweet text, the user description and the hashtags. For each modality it builds out-of-fold class-probability predictions with a 10-fold split: each sample's row comes from a model that did not see that sample. It then tries 2400 weight triples (w_text, w_description, w_hashtag). For each triple it sums the three probability matrices with those weights, takes the first most probable class of every row, and scores the result with macro precision, recall and F1. It keeps the first triple with the highest macro precision.

The Dafny modules follow the script's components:

- `Folds` (`folds.dfy`): the unshuffled `KFold(n_splits=10)` fold plan.
- `OutOfFold` (`out_of_fold.dfy`): the per-modality fold loop that grows a 0 x 10 matrix by concatenation. It is a method with a loop invariant.
- `WeightGrid` (`weight_grid.dfy`): the nested loop that fills `weight_sets`, written as a method. It is proved equal to a closed-form grid.
- `Fusion` (`fusion.dfy`): the weighted sum of the three matrices, and the row-wise argmax.
- `Metrics` (`metrics.dfy`): macro precision, recall and F1 with the standard definitions.
- `Labels` (`labels.dfy`): `int(cls[:-1])` for each label line.
- `Search` (`search.dfy`): the grid loop that appends the three scores, the first-argmax selection, and the whole pipeline.
- `Matrices` (`matrices.dfy`) and `Wrappers` (`wrappers.dfy`): shared row and matrix helpers, and Option/Result.

Probabilities and weights are exact `real`s. Weights are exact hundredths i/100.

The classifier is one opaque function, `OutOfFold.Predictor`. It takes a fold's training indices and a held-out sample index, and returns that sample's probability row. Feature extraction, model fitting and `predict_proba` stand behind it.

The fold splitter is library code that this model cannot see, so its behaviour is an assumption. It is taken to cut [0, n) into contiguous blocks in index order. Each block holds n / 10 samples, and the first n % 10 blocks hold one more. It refuses n < 10.

Three behaviours of the script are worth stating outright:

- The script appends each fold's rows in fold order. Under the contiguous split this puts the out-of-fold row of sample r at index r, which `OutOfFold.Assemble` proves.
- The script does not zero-fill the columns of a class that a fold's training set lacks. `np.concatenate` fails instead, which is modelled as `ShapeMismatch`.
- With the script's ranges the hashtag weight is never negative. It is at least 0.02 (`WeightGrid.Grid`).

## Model

| member | source | states |
|---|---|---|
| Folds.TestIndices | tweet_late_fusion_classifier.py:58 | the held-out indices `kf.split` yields for fold f: FoldSize(f) indices, each between the start of fold f and the start of fold f + 1 |
| Folds.TrainIndices | tweet_late_fusion_classifier.py:58 | the training indices `kf.split` yields for fold f: n minus the fold's size of them |
| Folds.FoldStartClosed | tweet_late_fusion_classifier.py:51 | fold f starts at f·(n/k) + min(f, n mod k): the first n mod k folds hold one extra sample, and the last fold ends at n |
| Folds.FoldOf | tweet_late_fusion_classifier.py:58 | every sample r < n lies in some fold f < k, between that fold's start and the next fold's start |
| Folds.InFoldIff | tweet_late_fusion_classifier.py:58 | sample r lies in block f if and only if f is FoldOf(r), so the blocks do not overlap |
| Folds.FoldsPartition | tweet_late_fusion_classifier.py:58 | sample r is in fold f's test indices exactly when f = FoldOf(r), and in its training indices exactly when f ≠ FoldOf(r): no leakage and no omission |
| Folds.FoldIndicesInRange | tweet_late_fusion_classifier.py:58 | the test and training indices of fold f lie in [0, n), are strictly increasing so none repeats, and the training list has n minus the fold's size entries |
| OutOfFold.Assemble | tweet_late_fusion_classifier.py:53-66 | the fold loop (the same at 74-80 and 88-95) fails when n < 10 or when some out-of-fold row is not 10 wide, and succeeds otherwise; on success the matrix has n rows of 10 columns, and row r is the prediction for r by the model trained on the fold that held r out |
| OutOfFold.AppendFold | tweet_late_fusion_classifier.py:65-66 | concatenating fold f's test-row predictions onto the rows of folds 0..f-1 gives exactly the out-of-fold rows of folds 0..f |
| OutOfFold.MisshapenFold | tweet_late_fusion_classifier.py:65-66 | a fold prediction that is not 10 wide is an out-of-fold row that is not 10 wide, which is when the concatenation fails |
| OutOfFold.FoldRows | tweet_late_fusion_classifier.py:65 | fold f's predictions, in test order, are the out-of-fold rows of the samples from FoldStart(f) to FoldStart(f+1) |
| WeightGrid.Triple | tweet_late_fusion_classifier.py:108 | the triple appended for text step i and description step j sums to 1, and is convex with a hashtag weight of at least 0.02 whenever i + j ≤ 98, as it is for every step of the two ranges |
| WeightGrid.Grid | tweet_late_fusion_classifier.py:102-108 | the grid has 40 × 60 = 2400 triples; each sums to 1, has non-negative text and description weights and a hashtag weight of at least 0.02; no triple appears twice |
| WeightGrid.BuildGrid | tweet_late_fusion_classifier.py:104-108 | the nested loop (description outside, text inside) appends exactly the closed-form grid |
| WeightGrid.GridAt | tweet_late_fusion_classifier.py:106-108 | text step i under description step j is entry j·60 + i, with w_text = i/100 and w_description = j/100 |
| Fusion.Combine | tweet_late_fusion_classifier.py:118 | the fused matrix has one row per sample, and row r is the fused row of the three modalities' rows r |
| Fusion.CombineEntry | tweet_late_fusion_classifier.py:118 | each fused entry is w_text·text + w_description·description + w_hashtag·hashtag at that position |
| Fusion.CombineLinear | tweet_late_fusion_classifier.py:118 | the fused matrix is linear in the weight triple: fusing with a·v + b·w gives a·(fused with v) + b·(fused with w), entry by entry |
| Fusion.CombineRowLinear | tweet_late_fusion_classifier.py:118 | one fused row is linear in the weight triple, entry by entry |
| Fusion.CombineRowSum | tweet_late_fusion_classifier.py:118 | the sum of a fused row is w_text·sum(text row) + w_description·sum(description row) + w_hashtag·sum(hashtag row) |
| Fusion.CombineDistribution | tweet_late_fusion_classifier.py:118 | with a grid triple, fusing three categorical distributions gives a categorical distribution: entries are non-negative and sum to 1 |
| Fusion.HardPredictions | tweet_late_fusion_classifier.py:119 | one prediction per row, each a column index of its row |
| Fusion.HardPredictionIsFirstMax | tweet_late_fusion_classifier.py:119 | on an N x 10 matrix each prediction is in [0, 10), holds the row's maximum, and every earlier column is strictly smaller |
| Matrices.FirstArgMax | tweet_late_fusion_classifier.py:119 | numpy argmax: an index holding the maximum, with every earlier entry strictly smaller, so ties go to the lowest index |
| Metrics.TallyOf | tweet_late_fusion_classifier.py:121-123 | per class, TP + FN is the class's count in the ground truth and TP + FP its count in the predictions |
| Metrics.Ratio | tweet_late_fusion_classifier.py:121-122 | per-class precision and recall: TP/(TP+FP) and TP/(TP+FN), 0 when the denominator is 0; the value is in [0,1] and is 1 exactly when there is a true positive and nothing else |
| Metrics.HarmonicMean | tweet_late_fusion_classifier.py:123 | the per-class F1 of two scores in [0,1] is in [0,1], and is 0 when both are 0 |
| Metrics.ClassScore | tweet_late_fusion_classifier.py:121-123 | every per-class precision, recall and F1 is in [0,1] |
| Metrics.Distinct | tweet_late_fusion_classifier.py:121-123 | the averaged labels are exactly the labels in the ground truth or the predictions, each once |
| Metrics.Macro | tweet_late_fusion_classifier.py:121-123 | `precision_score`, `recall_score` and `f1_score` with `average='macro'`: the mean of the per-class scores over the labels of the truth or the predictions, a value in [0,1] |
| Metrics.PerfectPrediction | tweet_late_fusion_classifier.py:121-123 | a prediction vector equal to the ground truth scores 1.0 in each macro metric |
| Metrics.F1FromTally | tweet_late_fusion_classifier.py:123 | the harmonic-mean F1 of a class equals 2·TP/(2·TP + FP + FN), 0 when that denominator is 0 |
| Metrics.SumScoresBounds | tweet_late_fusion_classifier.py:121-123 | the per-class scores over L labels add up to a value in [0, L] |
| Labels.DropLast | tweet_late_fusion_classifier.py:111 | `cls[:-1]` is the line without its final character, and the empty line stays empty |
| Labels.ParseLabel | tweet_late_fusion_classifier.py:111 | `int(cls[:-1])`: a non-empty line is read without its last character, and a line that parses has at least two characters |
| Labels.ParseLabels | tweet_late_fusion_classifier.py:111 | parsing succeeds exactly when every line parses; the result then has one integer per line, in order |
| Labels.LabelLineRoundTrip | tweet_late_fusion_classifier.py:111 | a non-negative label written in decimal and followed by a line break parses back to itself |
| Labels.NegativeLabelLineRoundTrip | tweet_late_fusion_classifier.py:111 | a negative label written with a minus sign and followed by a line break parses back to itself |
| Labels.LastLineWithoutBreak | tweet_late_fusion_classifier.py:111 | a final line with no line break loses its last digit: "3" is rejected and "12" parses as 1 |
| Search.Evaluate | tweet_late_fusion_classifier.py:117-123 | one grid cell's macro precision, recall and F1 are each in [0,1] |
| Search.EvaluatePerfect | tweet_late_fusion_classifier.py:117-123 | a triple whose fused hard predictions equal the ground truth scores (1.0, 1.0, 1.0) |
| Search.EvaluateGrid | tweet_late_fusion_classifier.py:112-127 | the three lists have one entry per weight triple, in grid order, and entry i holds triple i's scores |
| Search.Select | tweet_late_fusion_classifier.py:129-133 | the chosen index has the largest precision, every earlier index has strictly smaller precision, and the reported triple, recall and F1 are read at that same index |
| Search.SelectIsFirstBest | tweet_late_fusion_classifier.py:129-133 | when entry k of the three lists holds grid triple k's scores on the out-of-fold matrices, the selection is the first triple of maximal macro precision and carries that triple's own scores |
| Search.Run | tweet_late_fusion_classifier.py:53-133 | the pipeline fails in the script's order (too few samples, then a misshapen text, description or hashtag fold, then a bad label line) and succeeds otherwise; on success the chosen triple is the first grid triple of maximal macro precision on the out-of-fold matrices, and its scores are that triple's own |

## Left out

- Preprocessor calls and imports (tweet_late_fusion_classifier.py:1-22): these are calls into other modules.
- File reads (24-37) and the output file opened and never used (52): these are I/O. The label lines are a parameter of `Search.Run`.
- TF-IDF feature extraction (40-48), classifier fitting and `predict_proba` (59-65, 75-79, 89-94): this is library code. It is replaced by the opaque `OutOfFold.Predictor`. The model does not say how rows are computed. It does not assume rows are distributions, except where `Fusion.CombineDistribution` takes that as a hypothesis.
- Class order of `predict_proba`: its columns follow the sorted string labels seen in training. The model takes column c to be class c, as line 119 against line 111 does. This holds for the single-digit labels "0".."9".
- `OutOfFold.Assemble`: one assumption covers a training fold that lacks some class. Such a fold's rows are taken to be narrower than 10, so the concatenation fails with `ShapeMismatch`.
- Number of rows: n is the number of label lines. The three feature matrices are assumed to have n rows, because the script raises otherwise. `y[train]` raises IndexError (line 61) when a feature file has more lines than the label file. `precision_score` (line 121) or the fusion sum (line 118) raises when it has fewer.
- All `print` calls (43-48, 68-71, 82-85, 97-99, 130-133): these are output only.
- Floating point: `np.arange` values and float sums are modelled as exact reals. The ranges are taken to have 60 and 40 elements.
- `Labels.ParseLabels`: it accepts only an optional sign followed by ASCII digits. Python's `int` also accepts surrounding whitespace, underscores between digits and non-ASCII digits. Those inputs are rejected here.
- `Fusion.Combine` requires three matrices of one shape. numpy raises otherwise. In the pipeline, all three are always n x 10.
- `Metrics.Macro` requires non-empty ground truth. The script never scores n = 0: the splitter refuses n < 10 at line 58 before line 121 is reached, which the first `ensures` of `Search.Run` states.
- The `UndefinedMetricWarning` that the library emits on a zero denominator is not modelled. Only the resulting 0 is.
