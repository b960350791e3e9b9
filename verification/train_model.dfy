/**
  The synthetic "logistic regression" evaluation of the train-model edge
  function: from a dataset size, a test-split ratio and three uniform draws it
  derives the train/test split, four metrics and a confusion matrix.

  `Math.random()` is replaced by the draws `r1`, `r2`, `r3` (each in [0, 1)),
  `Math.floor` by `.Floor`, and IEEE doubles by exact reals.
 */
module TrainModel {

  /** One value `Math.random()` can return: a real in [0, 1). */
  predicate IsDraw(r: real) {
    0.0 <= r < 1.0
  }

  function Min(a: real, b: real): real {
    if a <= b then a else b
  }

  function Max(a: real, b: real): real {
    if a <= b then b else a
  }

  /** The four cells, in the order the response object lists them. */
  datatype ConfusionMatrix = ConfusionMatrix(
    truePositives: int,
    falsePositives: int,
    trueNegatives: int,
    falseNegatives: int)
  {
    function Total(): int {
      truePositives + falsePositives + trueNegatives + falseNegatives
    }

    predicate NonNegative() {
      truePositives >= 0 && falsePositives >= 0 && trueNegatives >= 0 && falseNegatives >= 0
    }
  }

  /** The object the simulation returns; the metrics are kept unrounded. */
  datatype EvaluationResult = EvaluationResult(
    trainSize: int,
    testSize: int,
    accuracy: real,
    precision: real,
    recall: real,
    f1Score: real,
    confusionMatrix: ConfusionMatrix)

  /** Multiplying by a non-negative factor keeps an inequality. */
  lemma MulMonotone(x: real, a: real, b: real)
    ensures 0.0 <= x && a <= b ==> x * a <= x * b
  {
    assert x * b - x * a == x * (b - a);
  }

  // ---------------------------------------------------------------------
  // Train/test split

  /** Number of training samples: the floor of the non-test share. */
  function TrainSize(datasetSize: int, testSplitRatio: real): (n: int)
    ensures datasetSize >= 0 && 0.0 <= testSplitRatio <= 1.0 ==> 0 <= n <= datasetSize
  {
    var d := datasetSize as real;
    ScaledFloorWithin(d, 1.0 - testSplitRatio);
    (d * (1.0 - testSplitRatio)).Floor
  }

  /** Scaling a non-negative d by a factor c and flooring: at least 0 when c >= 0, at most d when c <= 1. */
  lemma ScaledFloorWithin(d: real, c: real)
    ensures 0.0 <= d && 0.0 <= c ==> 0 <= (d * c).Floor
    ensures 0.0 <= d && c <= 1.0 ==> (d * c).Floor as real <= d
  {
    MulMonotone(d, 0.0, c);
    MulMonotone(d, c, 1.0);
  }

  /**
    Number of test samples: what the training set leaves over. Because the
    dataset size is whole, this is the ceiling of `datasetSize * testSplitRatio`.
   */
  function TestSize(datasetSize: int, testSplitRatio: real): (t: int)
    ensures TrainSize(datasetSize, testSplitRatio) + t == datasetSize
    ensures (t - 1) as real < datasetSize as real * testSplitRatio <= t as real
  {
    var x := datasetSize as real * testSplitRatio;
    var train := TrainSize(datasetSize, testSplitRatio);
    assert datasetSize as real * (1.0 - testSplitRatio) == datasetSize as real - x;
    assert train as real <= datasetSize as real - x < train as real + 1.0;
    datasetSize - train
  }

  /** For a non-negative size and a ratio in [0, 1], both parts lie in [0, datasetSize]. */
  lemma SplitBounds(datasetSize: int, testSplitRatio: real)
    requires datasetSize >= 0 && 0.0 <= testSplitRatio <= 1.0
    ensures 0 <= TrainSize(datasetSize, testSplitRatio) <= datasetSize
    ensures 0 <= TestSize(datasetSize, testSplitRatio) <= datasetSize
  {
  }

  /** A larger test-split ratio never yields a smaller test set. */
  lemma TestSizeMonotone(datasetSize: int, ratio1: real, ratio2: real)
    requires datasetSize >= 0 && ratio1 <= ratio2
    ensures TestSize(datasetSize, ratio1) <= TestSize(datasetSize, ratio2)
  {
    TrainSizeAntitone(datasetSize, ratio1, ratio2);
  }

  /** A larger test-split ratio never yields a larger training set. */
  lemma TrainSizeAntitone(datasetSize: int, ratio1: real, ratio2: real)
    requires datasetSize >= 0 && ratio1 <= ratio2
    ensures TrainSize(datasetSize, ratio2) <= TrainSize(datasetSize, ratio1)
  {
    var d := datasetSize as real;
    assert d * (1.0 - ratio2) <= d * (1.0 - ratio1) by {
      MulMonotone(d, 1.0 - ratio2, 1.0 - ratio1);
    }
    FloorMonotone(d * (1.0 - ratio2), d * (1.0 - ratio1));
  }

  /** Flooring keeps the order of reals. */
  lemma FloorMonotone(x: real, y: real)
    requires x <= y
    ensures x.Floor <= y.Floor
  {
  }

  // ---------------------------------------------------------------------
  // Metrics

  /** Accuracy: a base of 0.82 plus up to 0.08 from the draw, clamped to [0.75, 0.95]. */
  function Accuracy(r1: real): (a: real)
    ensures 0.75 <= a <= 0.95
  {
    Min(0.95, Max(0.75, 0.82 + r1 * 0.08))
  }

  /** For a genuine draw the clamp changes nothing and accuracy lies in [0.82, 0.90). */
  lemma AccuracyOfDraw(r1: real)
    requires IsDraw(r1)
    ensures Accuracy(r1) == 0.82 + r1 * 0.08
    ensures 0.82 <= Accuracy(r1) < 0.90
  {
  }

  /** Precision and recall: accuracy moved by a perturbation in [-0.025, 0.025). */
  function Perturb(accuracy: real, r: real): (m: real)
    ensures IsDraw(r) ==> accuracy - 0.025 <= m < accuracy + 0.025
  {
    accuracy + (r * 0.05 - 0.025)
  }

  /** With genuine draws a perturbed metric lies in [0.795, 0.925), strictly inside (0, 1). */
  lemma PerturbedMetricBounds(r1: real, r: real)
    requires IsDraw(r1) && IsDraw(r)
    ensures 0.795 <= Perturb(Accuracy(r1), r) < 0.925
    ensures 0.0 < Perturb(Accuracy(r1), r) < 1.0
  {
    AccuracyOfDraw(r1);
  }

  /**
    F1 score: the harmonic mean of precision and recall. Its reciprocal is the
    mean of the reciprocals, it lies between the two, and it equals both when
    they agree.
   */
  function F1Score(precision: real, recall: real): (f: real)
    requires precision + recall != 0.0
    ensures precision > 0.0 && recall > 0.0 ==> f > 0.0 && 1.0 / f == (1.0 / precision + 1.0 / recall) / 2.0
    ensures precision > 0.0 && recall > 0.0 ==> Min(precision, recall) <= f <= Max(precision, recall)
    ensures precision == recall ==> f == precision
  {
    var f := 2.0 * (precision * recall) / (precision + recall);
    assert f * (precision + recall) == 2.0 * (precision * recall);
    assert 2.0 * (precision * precision) == precision * (2.0 * precision);
    if precision > 0.0 && recall > 0.0 then
      HarmonicReciprocal(precision, recall, f);
      if precision <= recall then
        HarmonicBetween(precision, recall, f);
        f
      else
        assert f * (recall + precision) == 2.0 * (recall * precision);
        HarmonicBetween(recall, precision, f);
        f
    else
      f
  }

  /** For positive p and r, 2pr / (p + r) is positive and its reciprocal is the mean of 1/p and 1/r. */
  lemma HarmonicReciprocal(p: real, r: real, f: real)
    requires p > 0.0 && r > 0.0 && f * (p + r) == 2.0 * (p * r)
    ensures f > 0.0 && 1.0 / f == (1.0 / p + 1.0 / r) / 2.0
  {
    assert p * r > 0.0;
    assert f > 0.0;
    calc {
      (1.0 / p + 1.0 / r) / 2.0;
      == (r + p) / (2.0 * (p * r));
      == 1.0 / f;
    }
  }

  /** For 0 < p <= r, a value f with f * (p + r) == 2pr lies in [p, r]. */
  lemma HarmonicBetween(p: real, r: real, f: real)
    requires 0.0 < p <= r && f * (p + r) == 2.0 * (p * r)
    ensures p <= f <= r
  {
    var s := p + r;
    assert (f - p) * s == p * (r - p);
    assert (f - r) * s == r * (p - r);
    MulMonotone(p, 0.0, r - p);
    MulMonotone(r, p - r, 0.0);
    assert (f - p) * s >= 0.0;
    assert (f - r) * s <= 0.0;
    SignOfFactor(f - p, s);
    SignOfFactor(f - r, s);
  }

  /** A product with a positive factor has the sign of the other factor. */
  lemma SignOfFactor(x: real, s: real)
    requires s > 0.0
    ensures x * s >= 0.0 ==> x >= 0.0
    ensures x * s <= 0.0 ==> x <= 0.0
  {
    if x < 0.0 {
      assert (-x) * s > 0.0;
      assert x * s == -((-x) * s);
    } else if x > 0.0 {
      assert x * s > 0.0;
    }
  }

  // ---------------------------------------------------------------------
  // Confusion matrix

  /** Size of the positive class in the test set: the floor of its 45% share. */
  function PositiveCount(testSize: int): (c: int)
    ensures 20 * c <= 9 * testSize < 20 * (c + 1)
    ensures testSize >= 0 ==> 0 <= c <= testSize
  {
    (testSize as real * 0.45).Floor
  }

  /** True positives: the floor of a recall share of the 45% positive class. */
  function TruePositives(testSize: int, recall: real): (tp: int)
    ensures testSize >= 0 && 0.0 <= recall <= 1.0 ==> 0 <= tp <= PositiveCount(testSize)
  {
    var x := testSize as real * 0.45;
    ScaledFloorWithin(x, recall);
    (x * recall).Floor
  }

  /** True negatives: the floor of the 55% negative class scaled by `ratio`, which is precision / accuracy. */
  function TrueNegatives(testSize: int, ratio: real): (tn: int)
    ensures testSize >= 0 && ratio >= 0.0 ==> tn >= 0
    ensures testSize >= 0 && ratio <= 1.0 ==> PositiveCount(testSize) + tn <= testSize
  {
    var x := testSize as real * 0.55;
    ScaledFloorWithin(x, ratio);
    (x * ratio).Floor
  }

  /**
    The four cells derived from the metrics. True positives take a recall share
    of the positive class, false negatives the rest of it, true negatives a
    precision/accuracy-weighted share of the negative class, and false positives
    whatever is left of the test set, with no clamp.
   */
  function ConfusionCounts(testSize: int, accuracy: real, precision: real, recall: real): (m: ConfusionMatrix)
    requires accuracy != 0.0
    ensures m.Total() == testSize
    ensures m.truePositives + m.falseNegatives == PositiveCount(testSize)
  {
    var truePositives := TruePositives(testSize, recall);
    var falseNegatives := PositiveCount(testSize) - truePositives;
    var trueNegatives := TrueNegatives(testSize, precision / accuracy);
    var falsePositives := testSize - truePositives - falseNegatives - trueNegatives;
    ConfusionMatrix(truePositives, falsePositives, trueNegatives, falseNegatives)
  }

  /** With recall in [0, 1], true positives never exceed the positive class, so false negatives are never negative. */
  lemma PositiveClassCounts(testSize: int, accuracy: real, precision: real, recall: real)
    requires accuracy != 0.0 && testSize >= 0 && 0.0 <= recall <= 1.0
    ensures 0 <= PositiveCount(testSize)
    ensures 0 <= ConfusionCounts(testSize, accuracy, precision, recall).truePositives <= PositiveCount(testSize)
    ensures ConfusionCounts(testSize, accuracy, precision, recall).falseNegatives >= 0
  {
  }

  /** True negatives are never negative when precision / accuracy is not. */
  lemma TrueNegativesNonNegative(testSize: int, accuracy: real, precision: real, recall: real)
    requires accuracy != 0.0 && testSize >= 0 && precision / accuracy >= 0.0
    ensures ConfusionCounts(testSize, accuracy, precision, recall).trueNegatives >= 0
  {
  }

  /** False positives are non-negative exactly when the positive class and the true negatives fit in the test set. */
  lemma FalsePositivesSign(testSize: int, accuracy: real, precision: real, recall: real)
    requires accuracy != 0.0
    ensures var m := ConfusionCounts(testSize, accuracy, precision, recall);
      m.falsePositives >= 0 <==> PositiveCount(testSize) + m.trueNegatives <= testSize
  {
  }

  /** A negative cell needs precision above accuracy: with 0 <= precision <= accuracy and recall in [0, 1], no cell is negative. */
  lemma PrecisionAtMostAccuracyNonNegative(testSize: int, accuracy: real, precision: real, recall: real)
    requires testSize >= 0 && 0.0 < accuracy && 0.0 <= precision <= accuracy && 0.0 <= recall <= 1.0
    ensures ConfusionCounts(testSize, accuracy, precision, recall).NonNegative()
  {
    var q := precision / accuracy;
    assert q * accuracy == precision;
    SignOfFactor(q, accuracy);
    SignOfFactor(q - 1.0, accuracy);
    assert (q - 1.0) * accuracy == precision - accuracy;
  }

  /** precision / accuracy stays below 1 + 0.025 / 0.82 for genuine draws. */
  lemma PrecisionRatioBound(r1: real, r2: real)
    requires IsDraw(r1) && IsDraw(r2)
    ensures 0.0 < Perturb(Accuracy(r1), r2) / Accuracy(r1)
    ensures 0.82 * (Perturb(Accuracy(r1), r2) / Accuracy(r1)) < 0.845
  {
    var a := Accuracy(r1);
    var p := Perturb(a, r2);
    AccuracyOfDraw(r1);
    PerturbedMetricBounds(r1, r2);
    RatioBound(a, p);
  }

  /** The arithmetic of PrecisionRatioBound: 0.82 * p < 0.845 * a, divided by a. */
  lemma RatioBound(a: real, p: real)
    requires 0.82 <= a && 0.0 < p < a + 0.025
    ensures 0.0 < p / a && 0.82 * (p / a) < 0.845
  {
    var q := p / a;
    assert q * a == p;
    assert 0.82 * p < 0.845 * a;
    var x := 0.845 - 0.82 * q;
    assert x * a == 0.845 * a - 0.82 * p;
    if x <= 0.0 {
      MulMonotone(a, x, 0.0);
      assert false;
    }
    if q <= 0.0 {
      MulMonotone(a, q, 0.0);
      assert false;
    }
  }

  /**
    For genuine draws the deficit in false positives is less than 11/656 of
    the test set (about 1.7%): 656 * falsePositives + 11 * testSize >= 0.
   */
  lemma FalsePositivesLowerBound(testSize: int, r1: real, r2: real, r3: real)
    requires testSize >= 0 && IsDraw(r1) && IsDraw(r2) && IsDraw(r3)
    ensures var a := Accuracy(r1);
      var m := ConfusionCounts(testSize, a, Perturb(a, r2), Perturb(a, r3));
      656 * m.falsePositives + 11 * testSize >= 0
  {
    var a := Accuracy(r1);
    PrecisionRatioBound(r1, r2);
    FalsePositivesDeficit(testSize, a, Perturb(a, r2), Perturb(a, r3));
  }

  /** The bound of FalsePositivesLowerBound for any metrics with 0.82 * (precision / accuracy) < 0.845. */
  lemma FalsePositivesDeficit(testSize: int, accuracy: real, precision: real, recall: real)
    requires testSize >= 0 && accuracy != 0.0 && 0.82 * (precision / accuracy) < 0.845
    ensures 656 * ConfusionCounts(testSize, accuracy, precision, recall).falsePositives + 11 * testSize >= 0
  {
    var m := ConfusionCounts(testSize, accuracy, precision, recall);
    TrueNegativesUpperBound(testSize, precision / accuracy);
    assert PositiveCount(testSize) as real <= 0.45 * testSize as real;
    DeficitBound(testSize as real, PositiveCount(testSize) as real, m.trueNegatives as real);
  }

  /** True negatives stay below 0.55 * 0.845 / 0.82 of the test set when the ratio is below 0.845 / 0.82. */
  lemma TrueNegativesUpperBound(testSize: int, ratio: real)
    requires testSize >= 0 && 0.82 * ratio < 0.845
    ensures 0.82 * (TrueNegatives(testSize, ratio) as real) <= 0.46475 * (testSize as real)
  {
    var x := testSize as real * 0.55;
    var n := TrueNegatives(testSize, ratio);
    assert n as real <= x * ratio;
    ScaledBound(x, ratio, n as real);
    assert 0.845 * x == 0.46475 * (testSize as real);
  }

  /** A value n at most x * q, for x >= 0 and 0.82 * q < 0.845, is at most 0.845 * x / 0.82. */
  lemma ScaledBound(x: real, q: real, n: real)
    requires x >= 0.0 && 0.82 * q < 0.845 && n <= x * q
    ensures 0.82 * n <= 0.845 * x
  {
    MulMonotone(x, 0.82 * q, 0.845);
    assert x * (0.82 * q) == 0.82 * (x * q);
  }

  /** The linear core of FalsePositivesDeficit. */
  lemma DeficitBound(t: real, positives: real, trueNegatives: real)
    requires positives <= 0.45 * t && 0.82 * trueNegatives <= 0.46475 * t
    ensures 656.0 * (t - positives - trueNegatives) + 11.0 * t >= 0.0
  {
  }

  /** Test sets of at most 59 samples never get a negative cell, whatever the draws. */
  lemma SmallTestSetNonNegative(testSize: int, r1: real, r2: real, r3: real)
    requires 0 <= testSize <= 59 && IsDraw(r1) && IsDraw(r2) && IsDraw(r3)
    ensures var a := Accuracy(r1);
      ConfusionCounts(testSize, a, Perturb(a, r2), Perturb(a, r3)).NonNegative()
  {
    var a := Accuracy(r1);
    var p := Perturb(a, r2);
    var rec := Perturb(a, r3);
    PerturbedMetricBounds(r1, r3);
    PrecisionRatioBound(r1, r2);
    PositiveClassCounts(testSize, a, p, rec);
    TrueNegativesNonNegative(testSize, a, p, rec);
    FalsePositivesLowerBound(testSize, r1, r2, r3);
  }

  /** Not every test size from 60 on can go negative: at 61 no draws give a negative cell. */
  lemma NoNegativeCellAtSixtyOne(r1: real, r2: real, r3: real)
    requires IsDraw(r1) && IsDraw(r2) && IsDraw(r3)
    ensures var a := Accuracy(r1);
      ConfusionCounts(61, a, Perturb(a, r2), Perturb(a, r3)).NonNegative()
  {
    var a := Accuracy(r1);
    var p := Perturb(a, r2);
    PerturbedMetricBounds(r1, r3);
    PrecisionRatioBound(r1, r2);
    TrueNegativesUpperBound(61, p / a);
    assert PositiveCount(61) == 27 by {
      assert 61.0 * 0.45 == 27.45;
    }
  }

  // ---------------------------------------------------------------------
  // The whole simulation

  /** The simulated evaluation for one request and one triple of draws. */
  function Simulate(datasetSize: int, testSplitRatio: real, r1: real, r2: real, r3: real): (res: EvaluationResult)
    requires IsDraw(r1) && IsDraw(r2) && IsDraw(r3)
    ensures res.trainSize + res.testSize == datasetSize
    ensures res.confusionMatrix.Total() == res.testSize
    ensures 0.82 <= res.accuracy < 0.90
    ensures res.accuracy - 0.025 <= res.precision < res.accuracy + 0.025
    ensures res.accuracy - 0.025 <= res.recall < res.accuracy + 0.025
    ensures Min(res.precision, res.recall) <= res.f1Score <= Max(res.precision, res.recall)
    ensures res.confusionMatrix.truePositives + res.confusionMatrix.falseNegatives == PositiveCount(res.testSize)
    ensures res.testSize >= 0 ==>
      (res.confusionMatrix.truePositives >= 0 && res.confusionMatrix.falseNegatives >= 0
       && res.confusionMatrix.trueNegatives >= 0)
    ensures datasetSize >= 0 && 0.0 <= testSplitRatio <= 1.0 ==>
      (0 <= res.testSize <= datasetSize && res.confusionMatrix.truePositives >= 0
       && res.confusionMatrix.falseNegatives >= 0 && res.confusionMatrix.trueNegatives >= 0)
  {
    var trainSize := TrainSize(datasetSize, testSplitRatio);
    var testSize := TestSize(datasetSize, testSplitRatio);
    var accuracy := Accuracy(r1);
    var precision := Perturb(accuracy, r2);
    var recall := Perturb(accuracy, r3);
    PerturbedMetricBounds(r1, r2);
    PerturbedMetricBounds(r1, r3);
    AccuracyOfDraw(r1);
    PrecisionRatioBound(r1, r2);
    var f1Score := F1Score(precision, recall);
    var matrix := ConfusionCounts(testSize, accuracy, precision, recall);
    EvaluationResult(trainSize, testSize, accuracy, precision, recall, f1Score, matrix)
  }

  /** The split depends on the request alone: different draws give the same sizes. */
  lemma SizesIndependentOfDraws(datasetSize: int, testSplitRatio: real,
                                r1: real, r2: real, r3: real, s1: real, s2: real, s3: real)
    requires IsDraw(r1) && IsDraw(r2) && IsDraw(r3) && IsDraw(s1) && IsDraw(s2) && IsDraw(s3)
    ensures Simulate(datasetSize, testSplitRatio, r1, r2, r3).trainSize
         == Simulate(datasetSize, testSplitRatio, s1, s2, s3).trainSize
    ensures Simulate(datasetSize, testSplitRatio, r1, r2, r3).testSize
         == Simulate(datasetSize, testSplitRatio, s1, s2, s3).testSize
  {
  }

  /** The default request of the page: 303 samples at a 0.2 split give 242 / 61. */
  lemma DefaultRequestSplit(r1: real, r2: real, r3: real)
    requires IsDraw(r1) && IsDraw(r2) && IsDraw(r3)
    ensures Simulate(303, 0.2, r1, r2, r3).trainSize == 242
    ensures Simulate(303, 0.2, r1, r2, r3).testSize == 61
  {
    assert 303.0 * (1.0 - 0.2) == 242.4;
  }

  /** The smallest request of the page (100 samples, 0.1 split) gives 10 test samples and no negative cell. */
  lemma SmallestRequestNonNegative(r1: real, r2: real, r3: real)
    requires IsDraw(r1) && IsDraw(r2) && IsDraw(r3)
    ensures Simulate(100, 0.1, r1, r2, r3).testSize == 10
    ensures Simulate(100, 0.1, r1, r2, r3).confusionMatrix.NonNegative()
  {
    assert 100.0 * (1.0 - 0.1) == 90.0;
    SmallTestSetNonNegative(10, r1, r2, r3);
  }

  /**
    At the metric level: a test set of 100, accuracy 0.82, precision 0.8449 and
    recall 0.82 give 56 true negatives, which with the 45-sample positive class
    overfill the test set by one.
   */
  lemma NegativeFalsePositivesCounts()
    ensures ConfusionCounts(100, 0.82, 0.8449, 0.82) == ConfusionMatrix(36, -1, 56, 9)
  {
    assert TruePositives(100, 0.82) == 36 by {
      assert 100.0 * 0.45 * 0.82 == 36.9;
    }
    assert PositiveCount(100) == 45 by {
      assert 100.0 * 0.45 == 45.0;
    }
    assert TrueNegatives(100, 0.8449 / 0.82) == 56 by {
      assert 100.0 * 0.55 * (0.8449 / 0.82) == 46.4695 / 0.82;
      assert 56.0 <= 46.4695 / 0.82 < 57.0;
    }
  }

  /**
    At the metric level: a test set of 60 with the same metrics gives 34 true
    negatives, which with the 27-sample positive class overfill the test set by one.
   */
  lemma NegativeFalsePositivesCountsAtSixty()
    ensures ConfusionCounts(60, 0.82, 0.8449, 0.82) == ConfusionMatrix(22, -1, 34, 5)
  {
    assert TruePositives(60, 0.82) == 22 by {
      assert 60.0 * 0.45 * 0.82 == 22.14;
    }
    assert PositiveCount(60) == 27 by {
      assert 60.0 * 0.45 == 27.0;
    }
    assert TrueNegatives(60, 0.8449 / 0.82) == 34 by {
      assert 60.0 * 0.55 * (0.8449 / 0.82) == 27.8817 / 0.82;
      assert 34.0 <= 27.8817 / 0.82 < 35.0;
    }
  }

  /**
    Since the remainder is not clamped, false positives can be negative:
    1000 samples at a 0.1 split, accuracy 0.82 and precision 0.8449 give 100
    test samples, 56 true negatives and -1 false positive.
   */
  lemma NegativeFalsePositivesWitness()
    ensures Simulate(1000, 0.1, 0.0, 0.998, 0.5).testSize == 100
    ensures Simulate(1000, 0.1, 0.0, 0.998, 0.5).confusionMatrix == ConfusionMatrix(36, -1, 56, 9)
  {
    assert TestSize(1000, 0.1) == 100 by {
      assert 1000.0 * (1.0 - 0.1) == 900.0;
    }
    assert Accuracy(0.0) == 0.82;
    assert Perturb(0.82, 0.998) == 0.8449 && Perturb(0.82, 0.5) == 0.82;
    NegativeFalsePositivesCounts();
  }

  /**
    The bound of SmallTestSetNonNegative is tight: 600 samples at a 0.1 split
    give 60 test samples and, with the same draws, -1 false positive.
   */
  lemma NegativeFalsePositivesAtSixty()
    ensures Simulate(600, 0.1, 0.0, 0.998, 0.5).testSize == 60
    ensures Simulate(600, 0.1, 0.0, 0.998, 0.5).confusionMatrix == ConfusionMatrix(22, -1, 34, 5)
  {
    assert TestSize(600, 0.1) == 60 by {
      assert 600.0 * (1.0 - 0.1) == 540.0;
    }
    assert Accuracy(0.0) == 0.82;
    assert Perturb(0.82, 0.998) == 0.8449 && Perturb(0.82, 0.5) == 0.82;
    NegativeFalsePositivesCountsAtSixty();
  }
}
