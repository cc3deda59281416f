/** The running per-metric baseline of the anomaly detector, over exact reals; it stores the variance. */
module RunningBaseline {
  import opened Common

  datatype BaselineMetric = BaselineMetric(mean: real, variance: real, min: real, max: real, sampleCount: nat)

  const ANOMALY_THRESHOLD := 2.0

  const MIN_SAMPLES := 10

  function NewMean(mean: real, n: nat, value: real): real {
    (mean * n as real + value) / (n as real + 1.0)
  }

  function NewVariance(variance: real, mean: real, newMean: real, n: nat, value: real): real {
    (variance * n as real + (value - mean) * (value - newMean)) / (n as real + 1.0)
  }

  /** The baseline after one more sample; the second sample leaves the variance alone. */
  function Updated(baseline: Option<BaselineMetric>, value: real): BaselineMetric {
    match baseline
    case None => BaselineMetric(value, 0.0, value, value, 1)
    case Some(b) =>
      var mean := NewMean(b.mean, b.sampleCount, value);
      BaselineMetric(
        mean,
        if b.sampleCount > 1 then NewVariance(b.variance, b.mean, mean, b.sampleCount, value) else b.variance,
        if value < b.min then value else b.min,
        if value > b.max then value else b.max,
        b.sampleCount + 1)
  }

  /** The baseline a series of samples leaves. */
  function BaselineOf(samples: seq<real>): (b: BaselineMetric)
    requires samples != []
    ensures b.sampleCount == |samples|
  {
    var n := |samples| - 1;
    Updated(if n == 0 then None else Some(BaselineOf(samples[..n])), samples[n])
  }

  /** The comparison with two standard deviations, squared on both sides. */
  predicate Outlying(b: BaselineMetric, value: real) {
    Square(value - b.mean) > ANOMALY_THRESHOLD * ANOMALY_THRESHOLD * b.variance
  }

  class AnomalyDetector {
    var baselineMetrics: map<string, BaselineMetric>
    ghost var observed: map<string, seq<real>>

    /** Every stored baseline is the one its metric's samples leave. */
    ghost predicate Valid()
      reads this
    {
      && baselineMetrics.Keys == observed.Keys
      && forall name :: name in observed ==> observed[name] != [] && baselineMetrics[name] == BaselineOf(observed[name])
    }

    constructor ()
      ensures Valid() && observed == map[]
    {
      baselineMetrics, observed := map[], map[];
    }

    method UpdateMetricBaseline(name: string, value: real)
      requires Valid()
      modifies this
      ensures Valid()
      ensures observed == old(observed)[name := (if name in old(observed) then old(observed)[name] else []) + [value]]
    {
      hide NewMean, NewVariance;
      var baseline: BaselineMetric;
      ghost var samples := if name in observed then observed[name] else [];
      if name !in baselineMetrics {
        baseline := BaselineMetric(value, 0.0, value, value, 1);
      } else {
        baseline := baselineMetrics[name];
        var oldMean := baseline.mean;
        baseline := baseline.(mean := NewMean(baseline.mean, baseline.sampleCount, value));
        if baseline.sampleCount > 1 {
          baseline := baseline.(
            variance := NewVariance(baseline.variance, oldMean, baseline.mean, baseline.sampleCount, value));
        }
        if value < baseline.min {
          baseline := baseline.(min := value);
        }
        if value > baseline.max {
          baseline := baseline.(max := value);
        }
        baseline := baseline.(sampleCount := baseline.sampleCount + 1);
      }
      assert (samples + [value])[..|samples|] == samples;
      baselineMetrics := baselineMetrics[name := baseline];
      observed := observed[name := samples + [value]];
    }

    /** Whether the value lies more than two stored deviations from the mean. */
    method IsAnomalous(name: string, value: real) returns (anomalous: bool)
      requires Valid()
      ensures anomalous <==> name in observed && |observed[name]| >= 10 && Outlying(BaselineOf(observed[name]), value)
    {
      if name !in baselineMetrics || baselineMetrics[name].sampleCount < MIN_SAMPLES {
        return false;
      }
      anomalous := Outlying(baselineMetrics[name], value);
    }
  }

  // ---------- the true statistics ----------

  function Sum(samples: seq<real>): real {
    if samples == [] then 0.0 else Sum(samples[..|samples| - 1]) + samples[|samples| - 1]
  }

  function Square(x: real): (r: real)
    ensures r >= 0.0
  {
    x * x
  }

  /** Sum of squared deviations from `center`. */
  function Deviations(samples: seq<real>, center: real): (r: real)
    ensures r >= 0.0
  {
    if samples == [] then 0.0
    else Deviations(samples[..|samples| - 1], center) + Square(samples[|samples| - 1] - center)
  }

  function Times(n: nat, x: real): real {
    n as real * x
  }

  // ---------- the mean and the extremes ----------

  lemma OneMoreTime(n: nat, x: real)
    ensures Times(n + 1, x) == Times(n, x) + x && Times(0, x) == 0.0
  {
  }

  lemma MeanStep(mean: real, n: nat, value: real)
    ensures Times(n + 1, NewMean(mean, n, value)) == Times(n, mean) + value
  {
    var r := n as real + 1.0;
    assert (n + 1) as real == r;
    assert r * ((mean * n as real + value) / r) == mean * n as real + value;
  }

  /** The stored mean is the true mean. */
  lemma {:induction false} MeanIsExact(samples: seq<real>)
    requires samples != []
    ensures Times(|samples|, BaselineOf(samples).mean) == Sum(samples)
  {
    hide Times, NewMean, NewVariance;
    var n := |samples| - 1;
    if n == 0 {
      OneMoreTime(0, samples[0]);
    } else {
      MeanIsExact(samples[..n]);
      MeanStep(BaselineOf(samples[..n]).mean, n, samples[n]);
    }
  }

  /** The stored extremes are the smallest and the largest sample. */
  lemma {:induction false} ExtremesAreExact(samples: seq<real>)
    requires samples != []
    ensures var b := BaselineOf(samples);
            b.min in samples && b.max in samples && forall x :: x in samples ==> b.min <= x <= b.max
  {
    hide NewMean, NewVariance;
    var n := |samples| - 1;
    assert samples == samples[..n] + [samples[n]];
    if n > 0 {
      ExtremesAreExact(samples[..n]);
    }
  }

  lemma {:induction false} SumBetween(samples: seq<real>, low: real, high: real)
    requires forall x :: x in samples ==> low <= x <= high
    ensures Times(|samples|, low) <= Sum(samples) <= Times(|samples|, high)
  {
    hide Times;
    if samples == [] {
      OneMoreTime(0, low);
      OneMoreTime(0, high);
    } else {
      var n := |samples| - 1;
      assert samples[n] in samples && forall x :: x in samples[..n] ==> x in samples;
      SumBetween(samples[..n], low, high);
      OneMoreTime(n, low);
      OneMoreTime(n, high);
    }
  }

  lemma CancelTimes(n: nat, a: real, b: real)
    requires n > 0 && Times(n, a) <= Times(n, b)
    ensures a <= b
  {
    assert n as real * (b - a) >= 0.0;
  }

  lemma MeanBetweenExtremes(samples: seq<real>)
    requires samples != []
    ensures var b := BaselineOf(samples); b.min <= b.mean <= b.max
  {
    hide Times, BaselineOf;
    var b := BaselineOf(samples);
    MeanIsExact(samples);
    ExtremesAreExact(samples);
    SumBetween(samples, b.min, b.max);
    CancelTimes(|samples|, b.min, b.mean);
    CancelTimes(|samples|, b.mean, b.max);
  }

  // ---------- the variance ----------

  /** What moving the center from `m` to `c` adds to the deviations of `n` samples with the given sum. */
  function Shift(m: real, c: real, n: nat, sum: real): real {
    2.0 * (m - c) * (sum - n as real * m) + n as real * ((m - c) * (m - c))
  }

  lemma ShiftStep(m: real, c: real, n: nat, sum: real, x: real)
    ensures Shift(m, c, n + 1, sum + x) == Shift(m, c, n, sum) + Square(x - c) - Square(x - m)
    ensures Shift(m, c, 0, 0.0) == 0.0
  {
    var d, r := m - c, n as real;
    assert (n + 1) as real == r + 1.0;
    assert (r + 1.0) * m == r * m + m;
    assert (r + 1.0) * (d * d) == r * (d * d) + d * d;
    assert 2.0 * d * (sum + x - (r * m + m)) == 2.0 * d * (sum - r * m) + 2.0 * d * (x - m);
    assert (x - c) * (x - c) == (x - m) * (x - m) + 2.0 * d * (x - m) + d * d;
  }

  lemma {:induction false} ShiftCenter(samples: seq<real>, m: real, c: real)
    ensures Deviations(samples, c) == Deviations(samples, m) + Shift(m, c, |samples|, Sum(samples))
  {
    hide Shift, Square;
    if samples == [] {
      ShiftStep(m, c, 0, 0.0, 0.0);
    } else {
      var n := |samples| - 1;
      ShiftCenter(samples[..n], m, c);
      ShiftStep(m, c, n, Sum(samples[..n]), samples[n]);
    }
  }

  lemma ShiftToNewMean(n: nat, sum: real, x: real, m: real, m': real)
    requires Times(n, m) == sum && Times(n + 1, m') == sum + x
    ensures Shift(m, m', n, sum) + Square(x - m') == (x - m) * (x - m')
  {
    var d, r := m - m', n as real;
    assert r * d == m' - x by {
      assert (r + 1.0) * m' == r * m' + m';
      assert r * d == r * m - r * m';
    }
    assert r * (d * d) == (m' - x) * d by {
      assert r * (d * d) == (r * d) * d;
    }
    assert Shift(m, m', n, sum) == (m' - x) * d;
    assert (m' - x) * d + (x - m') * (x - m') == (x - m) * (x - m') by {
      assert (m' - x) * d == (x - m') * (m' - m);
      assert (x - m') * (m' - m) + (x - m') * (x - m') == (x - m') * (x - m);
    }
  }

  /** One more sample adds `(x - old mean)(x - new mean)` to the sum of squared deviations. */
  lemma OneMoreDeviation(samples: seq<real>, x: real, m: real, m': real)
    requires Times(|samples|, m) == Sum(samples) && Times(|samples| + 1, m') == Sum(samples) + x
    ensures Deviations(samples + [x], m') == Deviations(samples, m) + (x - m) * (x - m')
  {
    hide Shift, Square, Times;
    assert (samples + [x])[..|samples|] == samples;
    ShiftCenter(samples, m, m');
    ShiftToNewMean(|samples|, Sum(samples), x, m, m');
  }

  /** What the second sample would have added, and the update skips. */
  function Skipped(x1: real, x2: real): (r: real)
    ensures r >= 0.0
  {
    Square(x2 - x1) / 2.0
  }

  lemma SecondSample(x1: real, x2: real, m': real)
    requires Times(2, m') == x1 + x2
    ensures (x2 - x1) * (x2 - m') == Skipped(x1, x2)
  {
    assert x2 - m' == (x2 - x1) / 2.0;
  }

  lemma VarianceStep(variance: real, mean: real, newMean: real, n: nat, value: real)
    ensures Times(n + 1, NewVariance(variance, mean, newMean, n, value))
            == Times(n, variance) + (value - mean) * (value - newMean)
  {
    MeanStep(variance, n, (value - mean) * (value - newMean));
  }

  /**
   * The closed form: from two samples on, `n` times the stored variance is the true sum of squared
   * deviations minus exactly `(x2 - x1)^2 / 2`, since the second sample skips the update.
   */
  lemma {:induction false} VarianceClosedForm(samples: seq<real>)
    requires |samples| >= 2
    ensures var b := BaselineOf(samples);
            Times(|samples|, b.variance) == Deviations(samples, b.mean) - Skipped(samples[0], samples[1])
  {
    hide Times, NewMean, NewVariance, Square, Skipped;
    var n := |samples| - 1;
    var init, x, b := samples[..n], samples[n], BaselineOf(samples);
    var before := BaselineOf(init);
    assert samples == init + [x];
    MeanIsExact(init);
    MeanIsExact(samples);
    OneMoreDeviation(init, x, before.mean, b.mean);
    if n == 1 {
      FirstTwo(samples);
    } else {
      VarianceClosedForm(init);
      VarianceStep(before.variance, before.mean, b.mean, n, x);
    }
  }

  lemma FirstTwo(samples: seq<real>)
    requires |samples| == 2
    ensures BaselineOf(samples).variance == 0.0 && BaselineOf(samples[..1]).mean == samples[0]
    ensures Deviations(samples[..1], samples[0]) == 0.0 && Times(2, 0.0) == 0.0
    ensures (samples[1] - samples[0]) * (samples[1] - BaselineOf(samples).mean) == Skipped(samples[0], samples[1])
  {
    hide NewMean, NewVariance;
    assert Deviations(samples[..1][..0], samples[0]) == 0.0;
    MeanIsExact(samples);
    assert samples[..1][..0] == [];
    assert Sum(samples[..1]) == samples[0];
    SecondSample(samples[0], samples[1], BaselineOf(samples).mean);
  }

  lemma SameSign(mean: real, n: nat, value: real)
    ensures (value - mean) * (value - NewMean(mean, n, value)) >= 0.0
  {
    var r, d, e := n as real, value - mean, value - NewMean(mean, n, value);
    assert (r + 1.0) * e == r * d by {
      MeanStep(mean, n, value);
      assert (r + 1.0) * e == (r + 1.0) * value - (r + 1.0) * NewMean(mean, n, value);
      assert (r + 1.0) * value == r * value + value;
    }
    if d >= 0.0 {
      assert r * d >= 0.0;
    } else {
      assert r * d <= 0.0;
    }
  }

  lemma QuotientNonNegative(variance: real, mean: real, newMean: real, n: nat, value: real)
    requires variance >= 0.0 && (value - mean) * (value - newMean) >= 0.0
    ensures NewVariance(variance, mean, newMean, n, value) >= 0.0
  {
    assert variance * n as real >= 0.0;
  }

  /** The stored variance is never negative, so its square root always exists. */
  lemma {:induction false} VarianceNonNegative(samples: seq<real>)
    requires samples != []
    ensures BaselineOf(samples).variance >= 0.0
  {
    hide NewMean, NewVariance;
    var n := |samples| - 1;
    if n > 0 {
      var before := BaselineOf(samples[..n]);
      VarianceNonNegative(samples[..n]);
      SameSign(before.mean, n, samples[n]);
      QuotientNonNegative(before.variance, before.mean, NewMean(before.mean, n, samples[n]), n, samples[n]);
    }
  }

  lemma CompareTimes(n: nat, a: real, b: real)
    requires n > 0
    ensures a > b <==> Times(n, a) > Times(n, b)
    ensures Times(n, 4.0 * b) == 4.0 * Times(n, b)
  {
    assert n as real * (a - b) == n as real * a - n as real * b;
  }

  /**
   * The detector flags exactly the values whose squared distance from the mean exceeds four times the
   * variance without the skipped term; so it flags every value more than two true deviations away.
   */
  lemma FlaggedExactly(samples: seq<real>, value: real)
    requires |samples| >= MIN_SAMPLES
    ensures var b := BaselineOf(samples);
            var distance, spread := Times(|samples|, Square(value - b.mean)), Deviations(samples, b.mean);
            && (Outlying(b, value) <==> distance > 4.0 * (spread - Skipped(samples[0], samples[1])))
            && (distance > 4.0 * spread ==> Outlying(b, value))
  {
    hide Times, BaselineOf, Square, Skipped;
    var b := BaselineOf(samples);
    VarianceClosedForm(samples);
    CompareTimes(|samples|, Square(value - b.mean), 4.0 * b.variance);
    CompareTimes(|samples|, 0.0, b.variance);
  }
}
