# Train-test split evaluation simulator, in Dafny

This project models the one computation of the train-model edge function:
`simulateLogisticRegression`. It takes a dataset size and a test-split ratio.
It returns a synthetic evaluation of a logistic-regression classifier:

- the train/test split sizes;
- accuracy, precision, recall and F1 score;
- a confusion matrix of true/false positives/negatives.

No classifier is trained. The numbers are derived from three uniform random
draws.

The model is one module, `TrainModel` (`train_model.dfy`), made of pure
functions and lemmas:

- `TrainSize` and `TestSize` compute the split. `TestSize` is the remainder
  `datasetSize - TrainSize`.
- `Accuracy` clamps a draw-based value into [0.75, 0.95].
- `Perturb` adds a perturbation in [-0.025, 0.025) to accuracy; it gives
  precision and recall.
- `F1Score` is the harmonic mean of precision and recall.
- `PositiveCount`, `TruePositives`, `TrueNegatives` and `ConfusionCounts`
  derive the four cells. The positive class is fixed at 45% of the test set.
  False positives are whatever is left of the test set.
- `Simulate` chains all of these into an `EvaluationResult`.

Each `Math.random()` call becomes a parameter `r1`, `r2` or `r3`. `IsDraw`
requires each one to lie in [0, 1). `Math.floor` becomes `.Floor`, and
JavaScript doubles become exact reals.

The code does not validate its inputs. It does not guard the F1 division, and
it does not clamp a negative false-positive count. The model adds none of
these. Instead it proves when a negative false-positive count can happen:

- For a test set of at most 59 samples, all four cells are non-negative
  whatever the draws (`SmallTestSetNonNegative`).
- 60 is the smallest test size at which some draws give `falsePositives = -1`
  (`NegativeFalsePositivesAtSixty`). Not every larger size does: at 61 no
  draws give a negative cell (`NoNegativeCellAtSixtyOne`), while at 100 some
  do (`NegativeFalsePositivesWitness`).
- Both witnesses are requests the page's sliders allow: 600 or 1000 samples at
  a 0.1 split.
- A negative cell needs precision above accuracy
  (`PrecisionAtMostAccuracyNonNegative`).

## Model

| member | source | states |
|---|---|---|
| TrainModel.TrainSize | 55/project/supabase/functions/train-model/index.ts:16 | for datasetSize >= 0 and a ratio in [0, 1], trainSize lies in [0, datasetSize] |
| TrainModel.TrainSizeAntitone | 55/project/supabase/functions/train-model/index.ts:16 | a larger test-split ratio never gives a larger training set |
| TrainModel.TestSize | 55/project/supabase/functions/train-model/index.ts:16-17 | trainSize + testSize equals datasetSize exactly, for every input; testSize is the ceiling of datasetSize * testSplitRatio |
| TrainModel.SplitBounds | 55/project/supabase/functions/train-model/index.ts:16-17 | for datasetSize >= 0 and a ratio in [0, 1], trainSize and testSize each lie in [0, datasetSize] |
| TrainModel.TestSizeMonotone | 55/project/supabase/functions/train-model/index.ts:16-17 | a larger test-split ratio never gives a smaller test set |
| TrainModel.DefaultRequestSplit | 55/project/supabase/functions/train-model/index.ts:16-17 | the page's default request (303 samples, ratio 0.2) splits into 242 train and 61 test samples, whatever the draws |
| TrainModel.Accuracy | 55/project/supabase/functions/train-model/index.ts:19-20 | accuracy lies in [0.75, 0.95] for every base value |
| TrainModel.AccuracyOfDraw | 55/project/supabase/functions/train-model/index.ts:19-20 | for a draw in [0, 1) the clamp changes nothing and accuracy lies in [0.82, 0.90) |
| TrainModel.Perturb | 55/project/supabase/functions/train-model/index.ts:22-23 | for a draw in [0, 1), precision and recall lie in [accuracy - 0.025, accuracy + 0.025) |
| TrainModel.PerturbedMetricBounds | 55/project/supabase/functions/train-model/index.ts:19-23 | with genuine draws, precision and recall lie in [0.795, 0.925), strictly between 0 and 1 |
| TrainModel.F1Score | 55/project/supabase/functions/train-model/index.ts:24 | for positive precision and recall, F1 is positive, its reciprocal is the mean of their reciprocals, and it lies between their minimum and maximum; it equals both when they are equal |
| TrainModel.PositiveCount | 55/project/supabase/functions/train-model/index.ts:27 | the positive class is floor(0.45 * testSize): 20 * count <= 9 * testSize < 20 * (count + 1), and it lies in [0, testSize] when testSize >= 0 |
| TrainModel.TruePositives | 55/project/supabase/functions/train-model/index.ts:26 | for testSize >= 0 and recall in [0, 1], true positives lie in [0, floor(0.45 * testSize)] |
| TrainModel.TrueNegatives | 55/project/supabase/functions/train-model/index.ts:28 | for testSize >= 0, true negatives are non-negative when precision / accuracy >= 0, and together with the positive class fit in the test set when precision / accuracy <= 1 |
| TrainModel.ConfusionCounts | 55/project/supabase/functions/train-model/index.ts:26-29 | the four cells sum to testSize exactly, for any metric values; true positives plus false negatives is the positive class, floor(0.45 * testSize) |
| TrainModel.PositiveClassCounts | 55/project/supabase/functions/train-model/index.ts:26-27 | for recall in [0, 1] and testSize >= 0, 0 <= truePositives <= floor(0.45 * testSize), so falseNegatives >= 0 |
| TrainModel.TrueNegativesNonNegative | 55/project/supabase/functions/train-model/index.ts:28 | trueNegatives >= 0 whenever testSize >= 0 and precision / accuracy >= 0 |
| TrainModel.FalsePositivesSign | 55/project/supabase/functions/train-model/index.ts:27-29 | falsePositives >= 0 exactly when floor(0.45 * testSize) + trueNegatives <= testSize; nothing clamps it |
| TrainModel.PrecisionAtMostAccuracyNonNegative | 55/project/supabase/functions/train-model/index.ts:26-29 | for testSize >= 0, 0 < accuracy, 0 <= precision <= accuracy and recall in [0, 1], all four cells are non-negative |
| TrainModel.PrecisionRatioBound | 55/project/supabase/functions/train-model/index.ts:19-22 | with genuine draws, precision / accuracy is positive and below 0.845 / 0.82 |
| TrainModel.TrueNegativesUpperBound | 55/project/supabase/functions/train-model/index.ts:28 | when precision / accuracy is below 0.845 / 0.82, trueNegatives is at most 0.55 * 0.845 / 0.82 of the test set |
| TrainModel.FalsePositivesDeficit | 55/project/supabase/functions/train-model/index.ts:26-29 | for any metrics with precision / accuracy below 0.845 / 0.82, 656 * falsePositives + 11 * testSize >= 0 |
| TrainModel.FalsePositivesLowerBound | 55/project/supabase/functions/train-model/index.ts:19-29 | with genuine draws, a negative falsePositives is never below -11/656 (about 1.7%) of the test set |
| TrainModel.SmallTestSetNonNegative | 55/project/supabase/functions/train-model/index.ts:19-29 | with genuine draws, a test set of at most 59 samples gets no negative cell |
| TrainModel.SmallestRequestNonNegative | 55/project/supabase/functions/train-model/index.ts:16-29 | the smallest request the page allows (100 samples, ratio 0.1) gives 10 test samples and no negative cell, for every draw |
| TrainModel.NoNegativeCellAtSixtyOne | 55/project/supabase/functions/train-model/index.ts:19-29 | with genuine draws, a test set of 61 samples gets no negative cell, so larger test sizes do not all go negative |
| TrainModel.NegativeFalsePositivesCounts | 55/project/supabase/functions/train-model/index.ts:26-29 | a test set of 100 with accuracy 0.82, precision 0.8449 and recall 0.82 gives the cells TP 36, FP -1, TN 56, FN 9 |
| TrainModel.NegativeFalsePositivesCountsAtSixty | 55/project/supabase/functions/train-model/index.ts:26-29 | a test set of 60 with the same metrics gives the cells TP 22, FP -1, TN 34, FN 5 |
| TrainModel.NegativeFalsePositivesWitness | 55/project/supabase/functions/train-model/index.ts:16-29 | 1000 samples at ratio 0.1 with draws 0, 0.998, 0.5 give 100 test samples and the cells TP 36, FP -1, TN 56, FN 9 |
| TrainModel.NegativeFalsePositivesAtSixty | 55/project/supabase/functions/train-model/index.ts:16-29 | 600 samples at ratio 0.1 with the same draws give 60 test samples and the cells TP 22, FP -1, TN 34, FN 5, so the bound of 59 is tight |
| TrainModel.Simulate | 55/project/supabase/functions/train-model/index.ts:15-45 | for genuine draws: the split sums to datasetSize; the cells sum to testSize; accuracy, precision, recall and F1 keep the ranges above; TP + FN is the positive class; TP, FN and TN are non-negative when testSize >= 0, and so whenever datasetSize >= 0 and the ratio lies in [0, 1], in which case testSize also lies in [0, datasetSize] |
| TrainModel.SizesIndependentOfDraws | 55/project/supabase/functions/train-model/index.ts:15-23 | two calls with the same request give the same trainSize and testSize, whatever the draws |

## Left out

- The `Deno.serve` request handler (index.ts:47-110) is not modelled. It covers CORS preflight, JSON body parsing, Supabase client creation and the `model_results` insert/select. These are network and database I/O.
- The three `Math.random()` calls (index.ts:19, 22, 23) are not modelled as a random source. They are the parameters `r1`, `r2`, `r3`, and `IsDraw` keeps each in [0, 1).
- The `Number(x.toFixed(4))` rounding of the four metrics (index.ts:34-37) is not modelled. It is decimal formatting of doubles; the result holds the unrounded metrics.
- IEEE-754 rounding inside the products before `Math.floor` is not modelled, because reals are exact. This changes results the page can request: at ratio 0.3, binary64 gives 170 * (1 - 0.3) = 118.99999999999999, so the code splits 170 samples into 118 / 52 where the model gives 119 / 51. At ratio 0.3 the slider sizes 170, 180, 330, 340, 350, 360 and 650 to 730 (in steps of 10) split differently in the same way. The products behind the witnesses' split and positive class fall exactly on integers (900, 540, 45, 27), and binary64 gives exactly those integers too.
- `datasetSize` is an `int`. The JavaScript `number` could also be fractional or NaN; the page's slider only sends integers from 100 to 1000.
- F1Score: requires precision + recall != 0. At 0 the code divides by zero and yields NaN or Infinity, which reals cannot represent. With genuine draws the sum is at least 1.59, so `Simulate` never reaches that case.
- ConfusionCounts: requires accuracy != 0, for the same reason (the division precision / accuracy). `Accuracy` is always at least 0.75, so `Simulate` never reaches that case.
- Simulate: requires each draw in [0, 1), the range of `Math.random()`; the code itself places no demand on its inputs.
- The front end (`src/App.tsx`, `src/components/*.tsx`) is not modelled. It holds React state, the fetch call, the sliders and presentational markup with `toFixed(2)` display formatting.
