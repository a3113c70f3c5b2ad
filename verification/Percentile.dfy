/** The nearest-rank percentile of the benchmark's result writer, and the averages beside it. */
module Percentile {
  import opened Prelude

  // ---- Sorting -------------------------------------------------------------------------------------

  ghost predicate Ascending(s: seq<real>) {
    forall i, j :: 0 <= i <= j < |s| ==> s[i] <= s[j]
  }

  function Insert(x: real, s: seq<real>): seq<real> {
    if s == [] || x <= s[0] then [x] + s else [s[0]] + Insert(x, s[1..])
  }

  function Sort(s: seq<real>): seq<real> {
    if s == [] then [] else Insert(s[0], Sort(s[1..]))
  }

  lemma {:induction false} InsertHolds(x: real, s: seq<real>)
    ensures multiset(Insert(x, s)) == multiset(s) + multiset{x}
  {
    if s != [] && x > s[0] {
      InsertHolds(x, s[1..]);
      assert s == [s[0]] + s[1..];
    }
  }

  lemma {:induction false} InsertIsSorted(x: real, s: seq<real>)
    requires Ascending(s)
    ensures Ascending(Insert(x, s)) && multiset(Insert(x, s)) == multiset(s) + multiset{x}
  {
    InsertHolds(x, s);
    if s != [] && x > s[0] {
      InsertIsSorted(x, s[1..]);
      var t := Insert(x, s[1..]);
      forall i | 0 <= i < |t| ensures s[0] <= t[i] {
        assert t[i] in multiset(t);
        assert t[i] == x || t[i] in s[1..];
      }
    }
  }

  lemma {:induction false} SortIsSorted(s: seq<real>)
    ensures Ascending(Sort(s)) && multiset(Sort(s)) == multiset(s) && |Sort(s)| == |s|
  {
    if s != [] {
      SortIsSorted(s[1..]);
      InsertIsSorted(s[0], Sort(s[1..]));
      assert s == [s[0]] + s[1..];
    }
    assert |multiset(Sort(s))| == |multiset(s)|;
  }

  lemma {:induction false} HeadIsLeast(s: seq<real>, t: seq<real>)
    requires Ascending(s) && s != [] && t != [] && multiset(s) == multiset(t)
    ensures s[0] <= t[0]
  {
    assert t[0] in multiset(s);
  }

  lemma {:induction false} TailOfMultiset(s: seq<real>)
    requires s != []
    ensures multiset(s[1..]) == multiset(s) - multiset{s[0]}
  {
    assert s == [s[0]] + s[1..];
  }

  lemma {:induction false} SortedIsUnique(s: seq<real>, t: seq<real>)
    requires Ascending(s) && Ascending(t) && multiset(s) == multiset(t)
    ensures s == t
  {
    assert |multiset(s)| == |s| && |multiset(t)| == |t|;
    if s != [] {
      HeadIsLeast(s, t);
      HeadIsLeast(t, s);
      TailOfMultiset(s);
      TailOfMultiset(t);
      SortedIsUnique(s[1..], t[1..]);
    }
  }

  // ---- The percentile --------------------------------------------------------------------------------

  function Ceil(x: real): (n: int)
    ensures (n - 1) as real < x <= n as real
  {
    -((-x).Floor)
  }

  function Scaled(pct: real, n: nat): real {
    pct * n as real
  }

  /** The 0-based rank, clamped to the sample. */
  function Rank(pct: real, n: nat): (k: nat)
    requires n > 0
    ensures k < n
  {
    var k := Ceil(Scaled(pct, n)) - 1;
    if k < 0 then 0 else if k > n - 1 then n - 1 else k
  }

  /** _percentile */
  function Percentile(values: seq<real>, pct: real): Option<real> {
    var sorted := Sort(values);
    SortIsSorted(values);
    if sorted == [] then None else Some(At(sorted, Rank(pct, |sorted|)))
  }

  /** A value of the sample, never something in between. */
  lemma {:induction false} PercentileIsObserved(values: seq<real>, pct: real)
    ensures Percentile(values, pct).Some? <==> values != []
    ensures Percentile(values, pct).Some? ==> Percentile(values, pct).value in values
  {
    SortIsSorted(values);
    if values != [] {
      assert Percentile(values, pct).value in multiset(values);
    }
  }

  lemma {:induction false} ScaleUp(p: real, q: real, n: real)
    requires p <= q && n >= 0.0
    ensures p * n <= q * n
  {
    assert 0.0 <= (q - p) * n;
  }

  lemma {:induction false} CeilIsMonotone(x: real, y: real)
    requires x <= y
    ensures Ceil(x) <= Ceil(y)
  {
  }

  lemma {:induction false} RankIsMonotone(p: real, q: real, n: nat)
    requires p <= q && n > 0
    ensures Rank(p, n) <= Rank(q, n)
  {
    ScaleUp(p, q, n as real);
    CeilIsMonotone(Scaled(p, n), Scaled(q, n));
  }

  function At(sorted: seq<real>, k: nat): real
    requires k < |sorted|
  {
    sorted[k]
  }

  lemma {:induction false} AtIsMonotone(sorted: seq<real>, j: nat, k: nat)
    requires Ascending(sorted) && j <= k < |sorted|
    ensures At(sorted, j) <= At(sorted, k)
  {
  }

  lemma {:induction false} PercentileIsMonotone(values: seq<real>, p: real, q: real)
    requires p <= q && values != []
    ensures Percentile(values, p).Some? && Percentile(values, q).Some?
    ensures Percentile(values, p).value <= Percentile(values, q).value
  {
    SortIsSorted(values);
    var sorted := Sort(values);
    RankIsMonotone(p, q, |sorted|);
    AtIsMonotone(sorted, Rank(p, |sorted|), Rank(q, |sorted|));
  }

  lemma {:induction false} PercentileIgnoresOrder(a: seq<real>, b: seq<real>, pct: real)
    requires multiset(a) == multiset(b)
    ensures Percentile(a, pct) == Percentile(b, pct)
  {
    SortIsSorted(a);
    SortIsSorted(b);
    SortedIsUnique(Sort(a), Sort(b));
  }

  function CountAtMost(s: seq<real>, x: real): nat {
    if s == [] then 0 else (if s[0] <= x then 1 else 0) + CountAtMost(s[1..], x)
  }

  function CountBelow(s: seq<real>, x: real): nat {
    if s == [] then 0 else (if s[0] < x then 1 else 0) + CountBelow(s[1..], x)
  }

  lemma {:induction false} InsertCounts(y: real, s: seq<real>, x: real)
    ensures CountAtMost(Insert(y, s), x) == CountAtMost(s, x) + (if y <= x then 1 else 0)
    ensures CountBelow(Insert(y, s), x) == CountBelow(s, x) + (if y < x then 1 else 0)
  {
    if s == [] || y <= s[0] {
      assert ([y] + s)[1..] == s;
    } else {
      InsertCounts(y, s[1..], x);
      assert ([s[0]] + Insert(y, s[1..]))[1..] == Insert(y, s[1..]);
    }
  }

  lemma {:induction false} SortCounts(s: seq<real>, x: real)
    ensures CountAtMost(Sort(s), x) == CountAtMost(s, x) && CountBelow(Sort(s), x) == CountBelow(s, x)
  {
    if s != [] {
      SortCounts(s[1..], x);
      InsertCounts(s[0], Sort(s[1..]), x);
    }
  }

  lemma {:induction false} CountSplits(a: seq<real>, b: seq<real>, x: real)
    ensures CountAtMost(a + b, x) == CountAtMost(a, x) + CountAtMost(b, x)
    ensures CountBelow(a + b, x) == CountBelow(a, x) + CountBelow(b, x)
  {
    if a == [] {
      assert a + b == b;
    } else {
      assert (a + b)[1..] == a[1..] + b;
      CountSplits(a[1..], b, x);
    }
  }

  lemma {:induction false} SortedCounts(s: seq<real>, k: nat)
    requires Ascending(s) && k < |s|
    ensures CountAtMost(s, At(s, k)) >= k + 1 && CountBelow(s, At(s, k)) <= k
  {
    CountSplits(s[..k + 1], s[k + 1..], s[k]);
    CountSplits(s[..k], s[k..], s[k]);
    assert s == s[..k + 1] + s[k + 1..] && s == s[..k] + s[k..];
    AllAtMost(s[..k + 1], s[k]);
    NoneBelow(s[k..], s[k]);
    AtMostLength(s[..k], s[k]);
  }

  lemma {:induction false} AllAtMost(s: seq<real>, x: real)
    requires forall i :: 0 <= i < |s| ==> s[i] <= x
    ensures CountAtMost(s, x) == |s|
  {
    if s != [] { AllAtMost(s[1..], x); }
  }

  lemma {:induction false} NoneBelow(s: seq<real>, x: real)
    requires forall i :: 0 <= i < |s| ==> x <= s[i]
    ensures CountBelow(s, x) == 0
  {
    if s != [] { NoneBelow(s[1..], x); }
  }

  lemma {:induction false} AtMostLength(s: seq<real>, x: real)
    ensures CountBelow(s, x) <= CountAtMost(s, x) <= |s|
  {
    if s != [] { AtMostLength(s[1..], x); }
  }

  /**
    The nearest rank: at least ceil(pct * n) of the values are at or below the result, and fewer than
    that many lie strictly below it.
   */
  lemma {:induction false} PercentileIsNearestRank(values: seq<real>, pct: real)
    requires values != [] && 0.0 < pct <= 1.0
    ensures var x := Percentile(values, pct).value; var r := Ceil(Scaled(pct, |values|));
            1 <= r <= |values| && CountAtMost(values, x) >= r && CountBelow(values, x) < r
  {
    SortIsSorted(values);
    var sorted := Sort(values);
    RankOf(pct, |sorted|);
    SortedCounts(sorted, Rank(pct, |sorted|));
    SortCounts(values, Percentile(values, pct).value);
  }

  lemma {:induction false} RankAtEnds(pct: real, n: nat)
    requires n > 0 && (pct <= 0.0 || pct > 1.0)
    ensures Rank(pct, n) == if pct <= 0.0 then 0 else n - 1
  {
    if pct <= 0.0 { ScaleUp(pct, 0.0, n as real); } else { ScaleUp(1.0, pct, n as real); }
  }

  /** Without rounding, and at the ends: up to 0 the least value, above 1 the greatest. */
  lemma {:induction false} PercentileCounts(values: seq<real>, pct: real)
    requires values != []
    ensures var x := Percentile(values, pct).value;
      && (pct <= 0.0 ==> CountBelow(values, x) == 0)
      && (0.0 < pct <= 1.0 ==> CountAtMost(values, x) as real >= Scaled(pct, |values|) > CountBelow(values, x) as real)
      && (pct > 1.0 ==> CountAtMost(values, x) == |values|)
  {
    if 0.0 < pct <= 1.0 {
      PercentileIsNearestRank(values, pct);
    } else {
      var sorted, x := Sort(values), Percentile(values, pct).value;
      SortIsSorted(values);
      RankAtEnds(pct, |sorted|);
      SortedCounts(sorted, Rank(pct, |sorted|));
      SortCounts(values, x);
      AtMostLength(values, x);
    }
  }

  lemma {:induction false} RankOf(pct: real, n: nat)
    requires 0.0 < pct <= 1.0 && n > 0
    ensures 1 <= Ceil(Scaled(pct, n)) <= n && Rank(pct, n) == Ceil(Scaled(pct, n)) - 1
  {
    ScaleUp(pct, 1.0, n as real);
    assert 0.0 < Scaled(pct, n);
  }

  // ---- Mean and median -------------------------------------------------------------------------------

  function Sum(s: seq<real>): real {
    if s == [] then 0.0 else s[0] + Sum(s[1..])
  }

  datatype Statistic = MeanOf | MedianOf

  function Mean(s: seq<real>): real
    requires s != []
  {
    Sum(s) / |s| as real
  }

  function Median(s: seq<real>): real
    requires s != []
  {
    var sorted := Sort(s);
    SortIsSorted(s);
    var n := |sorted|;
    if n % 2 == 1 then sorted[n / 2] else (sorted[n / 2 - 1] + sorted[n / 2]) / 2.0
  }

  function Aggregate(statistic: Statistic, s: seq<real>): real
    requires s != []
  {
    if statistic.MeanOf? then Mean(s) else Median(s)
  }

  ghost predicate Within(s: seq<real>, low: real, high: real) {
    forall i :: 0 <= i < |s| ==> low <= s[i] <= high
  }

  lemma {:induction false} SumIsWithin(s: seq<real>, low: real, high: real)
    requires Within(s, low, high)
    ensures low * |s| as real <= Sum(s) <= high * |s| as real
  {
    if s != [] {
      SumIsWithin(s[1..], low, high);
      assert |s| as real == 1.0 + |s[1..]| as real;
      assert low * |s| as real == low + low * |s[1..]| as real;
      assert high * |s| as real == high + high * |s[1..]| as real;
    }
  }

  lemma {:induction false} MeanIsWithin(s: seq<real>, low: real, high: real)
    requires s != [] && Within(s, low, high)
    ensures low <= Mean(s) <= high
  {
    SumIsWithin(s, low, high);
    QuotientIsWithin(Sum(s), |s| as real, low, high);
  }

  lemma {:induction false} QuotientIsWithin(x: real, n: real, low: real, high: real)
    requires n > 0.0 && low * n <= x <= high * n
    ensures low <= x / n <= high
  {
    var q := x / n;
    assert q * n == x;
    assert q < low ==> (low - q) * n > 0.0;
    assert q > high ==> (q - high) * n > 0.0;
  }

  lemma {:induction false} MedianIsWithin(s: seq<real>, low: real, high: real)
    requires s != [] && Within(s, low, high)
    ensures low <= Median(s) <= high
  {
    SortIsSorted(s);
    var sorted := Sort(s);
    forall i | 0 <= i < |sorted| ensures low <= sorted[i] <= high {
      assert sorted[i] in multiset(s);
    }
  }

  lemma {:induction false} AggregateIsWithin(statistic: Statistic, s: seq<real>, low: real, high: real)
    requires s != [] && Within(s, low, high)
    ensures low <= Aggregate(statistic, s) <= high
  {
    if statistic.MeanOf? { MeanIsWithin(s, low, high); } else { MedianIsWithin(s, low, high); }
  }

  lemma {:induction false} CountsAreMonotone(s: seq<real>, x: real, y: real)
    requires x <= y
    ensures CountAtMost(s, x) <= CountAtMost(s, y) && CountBelow(s, x) <= CountBelow(s, y)
  {
    if s != [] { CountsAreMonotone(s[1..], x, y); }
  }

  /** The sum, element by element. */
  lemma {:induction false} SumAppends(s: seq<real>, x: real)
    ensures Sum([]) == 0.0 && Sum(s + [x]) == Sum(s) + x
  {
    if s == [] {
      assert [] + [x] == [x] && [x][1..] == [];
    } else {
      assert (s + [x])[1..] == s[1..] + [x];
      SumAppends(s[1..], x);
    }
  }

  lemma {:induction false} SumOfBoth(a: seq<real>, b: seq<real>)
    ensures Sum(a + b) == Sum(a) + Sum(b)
    decreases |b|
  {
    if b == [] {
      assert a + b == a;
    } else {
      var n := |b| - 1;
      assert a + b == (a + b[..n]) + [b[n]] && b == b[..n] + [b[n]];
      SumOfBoth(a, b[..n]);
      SumAppends(a + b[..n], b[n]);
      SumAppends(b[..n], b[n]);
    }
  }

  lemma {:induction false} WithoutFirst(a: seq<real>, b: seq<real>) returns (front: seq<real>, back: seq<real>)
    requires multiset(a) == multiset(b) && a != []
    ensures b == front + ([a[0]] + back) && multiset(a[1..]) == multiset(front + back)
  {
    TailOfMultiset(a);
    assert a[0] in multiset(b);
    var i :| 0 <= i < |b| && b[i] == a[0];
    front, back := b[..i], b[i + 1..];
    assert b == front + ([a[0]] + back);
    assert multiset(b) == multiset(front + back) + multiset{a[0]};
  }

  /** It is the same for every order of the values. */
  lemma {:induction false} SumIgnoresOrder(a: seq<real>, b: seq<real>)
    requires multiset(a) == multiset(b)
    ensures Sum(a) == Sum(b)
    decreases |a|
  {
    if a == [] {
      assert |multiset(b)| == |b|;
    } else {
      var front, back := WithoutFirst(a, b);
      SumIgnoresOrder(a[1..], front + back);
      SumOfBoth(front, back);
      SumOfBoth(front, [a[0]] + back);
      assert ([a[0]] + back)[1..] == back;
    }
  }

  /** At least half of the values are at or below the median, and at most half strictly below it. */
  lemma {:induction false} MedianSplitsSample(s: seq<real>)
    requires s != []
    ensures 2 * CountAtMost(s, Median(s)) >= |s| && 2 * CountBelow(s, Median(s)) <= |s|
  {
    SortIsSorted(s);
    SortCounts(s, Median(s));
    var sorted := Sort(s);
    var k := |sorted| / 2;
    SortedCounts(sorted, k);
    if |sorted| % 2 == 0 {
      SortedCounts(sorted, k - 1);
      assert At(sorted, k - 1) <= Median(s) <= At(sorted, k);
      CountsAreMonotone(sorted, At(sorted, k - 1), Median(s));
      CountsAreMonotone(sorted, Median(s), At(sorted, k));
    }
  }

  lemma {:induction false} MedianIgnoresOrder(a: seq<real>, b: seq<real>)
    requires a != [] && b != [] && multiset(a) == multiset(b)
    ensures Median(a) == Median(b)
  {
    SortIsSorted(a);
    SortIsSorted(b);
    SortedIsUnique(Sort(a), Sort(b));
  }

  lemma {:induction false} MeanIs(s: seq<real>)
    requires s != []
    ensures Mean(s) * |s| as real == Sum(s)
  {
    var x, n := Sum(s), |s| as real;
    assert x / n * n == x;
  }

  lemma {:induction false} MedianIs(s: seq<real>)
    requires s != []
    ensures |Sort(s)| == |s| && Median(s) + Median(s) == Sort(s)[(|s| - 1) / 2] + Sort(s)[|s| / 2]
  {
    SortIsSorted(s);
  }

  /** What each statistic is: the mean times the size is the sum; the median is midway between the two middle values. */
  lemma {:induction false} AggregateIs(s: seq<real>)
    requires s != []
    ensures Aggregate(MeanOf, s) * |s| as real == Sum(s)
    ensures var m, sorted := Aggregate(MedianOf, s), Sort(s);
      && |sorted| == |s| && m + m == sorted[(|s| - 1) / 2] + sorted[|s| / 2]
      && 2 * CountAtMost(s, m) >= |s| && 2 * CountBelow(s, m) <= |s|
  {
    MeanIs(s);
    MedianIs(s);
    MedianSplitsSample(s);
  }

  /** x stands at share p of the values: what lies at or below it reaches that share, what lies below does not. */
  predicate IsPercentileOf(x: real, values: seq<real>, p: real) {
    && (p <= 0.0 ==> CountBelow(values, x) == 0)
    && (0.0 < p <= 1.0 ==> CountBelow(values, x) as real < p * |values| as real <= CountAtMost(values, x) as real)
    && (p > 1.0 ==> CountAtMost(values, x) == |values|)
  }

  lemma {:induction false} PercentileStandsAt(values: seq<real>, p: real)
    requires values != []
    ensures Percentile(values, p).Some? && Percentile(values, p).value in values
    ensures IsPercentileOf(Percentile(values, p).value, values, p)
  {
    PercentileIsObserved(values, p);
    PercentileCounts(values, p);
  }
}
