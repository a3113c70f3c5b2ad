/** The percentile bootstrap of the promotion gate, over an arbitrary stream of random indices. */
module Bootstrap {
  import opened Prelude
  import opened Percentile

  datatype Interval = Interval(point: real, low: real, high: real, n: nat, resamples: nat)

  /** Draw i of resample k is the value at index rng(k * n + i) modulo n. */
  function Resample(sample: seq<real>, rng: nat -> nat, k: nat, count: nat): (r: seq<real>)
    requires sample != []
    ensures |r| == count
  {
    seq(count, (i: nat) => sample[rng(k * |sample| + i) % |sample|])
  }

  function Draws(sample: seq<real>, statistic: Statistic, rng: nat -> nat, count: nat): (r: seq<real>)
    requires sample != []
    ensures |r| == count
  {
    if count == 0 then []
    else Draws(sample, statistic, rng, count - 1)
         + [Aggregate(statistic, Resample(sample, rng, count - 1, |sample|))]
  }

  function Alpha(confidence: real): real {
    (1.0 - confidence) / 2.0
  }

  /** The interval of a sample of two or more with at least one resample. */
  function IntervalOf(sample: seq<real>, resamples: nat, confidence: real, statistic: Statistic,
        rng: nat -> nat): Interval
    requires sample != [] && resamples >= 1
  {
    var draws := Draws(sample, statistic, rng, resamples);
    PercentileIsObserved(draws, Alpha(confidence));
    PercentileIsObserved(draws, 1.0 - Alpha(confidence));
    Interval(Aggregate(statistic, sample), Percentile.Percentile(draws, Alpha(confidence)).value,
             Percentile.Percentile(draws, 1.0 - Alpha(confidence)).value, |sample|, resamples)
  }

  method DrawOne(sample: seq<real>, rng: nat -> nat, k: nat) returns (resample: seq<real>)
    requires sample != []
    ensures resample == Resample(sample, rng, k, |sample|)
  {
    resample := [];
    for i := 0 to |sample|
      invariant resample == Resample(sample, rng, k, i)
    {
      resample := resample + [sample[rng(k * |sample| + i) % |sample|]];
    }
  }

  /** bootstrap_ci */
  method BootstrapCi(sample: seq<real>, resamples: int, confidence: real, statistic: Statistic, rng: nat -> nat)
    returns (ci: Option<Interval>)
    ensures ci.None? <==> |sample| < 2 || resamples < 1
    ensures ci.Some? ==> ci.value == IntervalOf(sample, resamples, confidence, statistic, rng)
  {
    var n := |sample|;
    if n < 2 || resamples < 1 {
      return None;
    }
    var draws: seq<real> := [];
    for k := 0 to resamples
      invariant draws == Draws(sample, statistic, rng, k)
    {
      var resample := DrawOne(sample, rng, k);
      draws := draws + [Aggregate(statistic, resample)];
    }
    var alpha := (1.0 - confidence) / 2.0;
    var low, high := Percentile.Percentile(draws, alpha), Percentile.Percentile(draws, 1.0 - alpha);
    PercentileIsObserved(draws, alpha);
    PercentileIsObserved(draws, 1.0 - alpha);
    ci := Some(Interval(Aggregate(statistic, sample), low.value, high.value, n, resamples));
  }

  // ---- The interval and its sample -----------------------------------------------------------------

  function Least(s: seq<real>): real
    requires s != []
  {
    if |s| == 1 then s[0] else var m := Least(s[1..]); if s[0] < m then s[0] else m
  }

  function Greatest(s: seq<real>): real
    requires s != []
  {
    if |s| == 1 then s[0] else var m := Greatest(s[1..]); if s[0] > m then s[0] else m
  }

  lemma {:induction false} LeastAndGreatest(s: seq<real>)
    requires s != []
    ensures Within(s, Least(s), Greatest(s)) && Least(s) in s && Greatest(s) in s
  {
    if |s| > 1 {
      LeastAndGreatest(s[1..]);
      assert forall i :: 1 <= i < |s| ==> s[i] == s[1..][i - 1];
    }
  }

  lemma {:induction false} DrawsAreWithin(sample: seq<real>, statistic: Statistic, rng: nat -> nat, count: nat)
    requires sample != []
    ensures Within(Draws(sample, statistic, rng, count), Least(sample), Greatest(sample))
  {
    if count > 0 {
      DrawsAreWithin(sample, statistic, rng, count - 1);
      LeastAndGreatest(sample);
      AggregateIsWithin(statistic, Resample(sample, rng, count - 1, |sample|), Least(sample), Greatest(sample));
    }
  }

  lemma {:induction false} PercentileIsWithin(draws: seq<real>, pct: real, low: real, high: real)
    requires draws != [] && Within(draws, low, high)
    ensures Percentile.Percentile(draws, pct).Some? && low <= Percentile.Percentile(draws, pct).value <= high
  {
    PercentileIsObserved(draws, pct);
  }

  /**
    Whatever the random indices, the interval lies within the sample's own range and is the right
    way round for every confidence that is not negative.
   */
  lemma {:induction false} IntervalIsWithinSample(sample: seq<real>, resamples: nat, confidence: real,
        statistic: Statistic, rng: nat -> nat)
    requires sample != [] && resamples >= 1
    ensures var ci := IntervalOf(sample, resamples, confidence, statistic, rng);
      && Least(sample) <= ci.low <= Greatest(sample)
      && Least(sample) <= ci.high <= Greatest(sample)
      && Least(sample) <= ci.point <= Greatest(sample)
      && (confidence >= 0.0 ==> ci.low <= ci.high)
      && (confidence <= 0.0 ==> ci.high <= ci.low)
  {
    var draws := Draws(sample, statistic, rng, resamples);
    DrawsAreWithin(sample, statistic, rng, resamples);
    PercentileIsWithin(draws, Alpha(confidence), Least(sample), Greatest(sample));
    PercentileIsWithin(draws, 1.0 - Alpha(confidence), Least(sample), Greatest(sample));
    LeastAndGreatest(sample);
    AggregateIsWithin(statistic, sample, Least(sample), Greatest(sample));
    if confidence >= 0.0 {
      PercentileIsMonotone(draws, Alpha(confidence), 1.0 - Alpha(confidence));
    }
    if confidence <= 0.0 {
      PercentileIsMonotone(draws, 1.0 - Alpha(confidence), Alpha(confidence));
    }
  }

  /** Draw k is the statistic of a resample of the same size, each value of it drawn from the sample. */
  lemma {:induction false} DrawIs(sample: seq<real>, statistic: Statistic, rng: nat -> nat, count: nat, k: nat)
    requires sample != [] && k < count
    ensures var n := |sample|; var resample := seq(n, (i: nat) => sample[rng(k * n + i) % n]);
            Draws(sample, statistic, rng, count)[k] == Aggregate(statistic, resample)
  {
    if k == count - 1 {
      assert Resample(sample, rng, k, |sample|) == seq(|sample|, (i: nat) => sample[rng(k * |sample| + i) % |sample|]);
    } else {
      DrawIs(sample, statistic, rng, count - 1, k);
    }
  }

  /**
    Where the ends of the interval lie among the draws: with a = (1 - confidence) / 2, the low end has
    at least a share a of them at or below it and less than that below it, the high end 1 - a.
   */
  lemma {:induction false} IntervalIs(sample: seq<real>, resamples: nat, confidence: real, statistic: Statistic,
        rng: nat -> nat)
    requires |sample| >= 2 && resamples >= 1
    ensures var ci, draws := IntervalOf(sample, resamples, confidence, statistic, rng), Draws(sample, statistic, rng, resamples);
      && ci.n == |sample| && ci.resamples == resamples && ci.point == Aggregate(statistic, sample)
      && ci.low in draws && ci.high in draws
      && IsPercentileOf(ci.low, draws, (1.0 - confidence) / 2.0)
      && IsPercentileOf(ci.high, draws, 1.0 - (1.0 - confidence) / 2.0)
  {
    var draws := Draws(sample, statistic, rng, resamples);
    PercentileStandsAt(draws, (1.0 - confidence) / 2.0);
    PercentileStandsAt(draws, 1.0 - (1.0 - confidence) / 2.0);
  }

  lemma {:induction false} MedianOfTwins(x: real)
    ensures Median([x, x]) == x
  {
    assert Sort([x]) == [x];
    assert [x, x][1..] == [x];
    assert Sort([x, x]) == [x, x];
  }

  lemma {:induction false} TwoDraws(rng: nat -> nat)
    requires rng(0) == 0 && rng(1) == 0 && rng(2) == 1 && rng(3) == 1
    ensures Draws([0.0, 1.0], MedianOf, rng, 2) == [0.0, 1.0]
  {
    var sample := [0.0, 1.0];
    assert Resample(sample, rng, 0, 2) == [0.0, 0.0] && Resample(sample, rng, 1, 2) == [1.0, 1.0];
    MedianOfTwins(0.0);
    MedianOfTwins(1.0);
    assert Draws(sample, MedianOf, rng, 1) == [0.0];
  }

  lemma {:induction false} EndsOfTwo()
    ensures Percentile.Percentile([0.0, 1.0], 0.0) == Some(0.0) && Percentile.Percentile([0.0, 1.0], 1.0) == Some(1.0)
  {
    assert [0.0, 1.0][1..] == [1.0];
    assert Sort([1.0]) == [1.0];
    assert Sort([0.0, 1.0]) == [0.0, 1.0];
    assert Scaled(0.0, 2) == 0.0 && Scaled(1.0, 2) == 2.0;
  }

  /** A negative confidence, which nothing rejects, can turn the interval round. */
  lemma {:induction false} NegativeConfidenceReverses(rng: nat -> nat)
    requires rng(0) == 0 && rng(1) == 0 && rng(2) == 1 && rng(3) == 1
    ensures var ci := IntervalOf([0.0, 1.0], 2, -1.0, MedianOf, rng); ci.high < ci.low
  {
    TwoDraws(rng);
    EndsOfTwo();
    assert Alpha(-1.0) == 1.0;
  }
}
