/** The interval of the paired latency differences: over which values, and where its ends lie. */
module GateIntervals {
  import opened Prelude
  import opened GateInputs
  import opened GateMetrics
  import opened Percentile
  import opened Bootstrap
  import opened PairedGate

  /** Candidate minus baseline, for the pairs of the case in which both have a latency, in their order. */
  function DifferencesOf(p: Pairing, n: nat, caseId: string): seq<real>
    requires n <= |p.keys| && Paired(p)
  {
    if n == 0 then []
    else
      var b, c := p.base[p.keys[n - 1]].latency, p.cand[p.keys[n - 1]].latency;
      DifferencesOf(p, n - 1, caseId)
      + if p.keys[n - 1].caseId == caseId && b.Given? && c.Given? then [c.value - b.value] else []
  }

  lemma {:induction false} DifferencesAre(p: Pairing, n: nat, caseId: string)
    requires n <= |p.keys| && Paired(p)
    ensures var m := DiffsByCase(p.keys, p.base, p.cand, n);
      && (caseId in m <==> DifferencesOf(p, n, caseId) != [])
      && (caseId in m ==> m[caseId] == DifferencesOf(p, n, caseId))
  {
    if n > 0 {
      DifferencesAre(p, n - 1, caseId);
      assert DifferencesOf(p, n - 1, caseId) + [] == DifferencesOf(p, n - 1, caseId);
    }
  }

  lemma {:induction false} MedianAt(m: map<string, seq<real>>, cases: seq<string>, n: nat, k: nat)
    requires k < n <= |cases| && NonEmpty(m) && forall x :: x in cases ==> x in m
    ensures Medians(m, cases, n)[k] == Median(m[cases[k]])
  {
    if k < n - 1 { MedianAt(m, cases, n - 1, k); }
  }

  /** Every case that has a difference is named once, and its median stands at the same place. */
  ghost predicate AreMediansOf(diffs: seq<real>, cases: seq<string>, p: Pairing)
    requires Paired(p)
  {
    && |cases| == |diffs|
    && (forall x :: x in cases <==> DifferencesOf(p, |p.keys|, x) != [])
    && (forall i, j :: 0 <= i < j < |cases| ==> cases[i] != cases[j])
    && forall i :: 0 <= i < |cases| ==>
         cases[i] in cases && diffs[i] == Median(DifferencesOf(p, |p.keys|, cases[i]))
  }

  lemma {:induction false} NoneLeftOver(s: seq<string>, elements: set<string>)
    requires forall x :: x in elements ==> x in s
    ensures |elements| <= |s|
  {
    if s == [] {
      assert elements == {};
    } else {
      NoneLeftOver(s[1..], elements - {s[0]});
      assert |elements - {s[0]}| >= |elements| - 1;
    }
  }

  lemma {:induction false} EachOnce(s: seq<string>, elements: set<string>, i: nat, j: nat)
    requires Enumerates(s, elements) && i < j < |s|
    ensures s[i] != s[j]
  {
    if s[i] == s[j] {
      var rest := s[..i] + s[i + 1..];
      forall x | x in elements ensures x in rest {
        var n :| 0 <= n < |s| && s[n] == x;
        assert x == rest[if n < i then n else if n > i then n - 1 else j - 1];
      }
      NoneLeftOver(rest, elements);
    }
  }

  lemma {:induction false} CaseMediansAre(diffs: seq<real>, p: Pairing) returns (cases: seq<string>)
    requires Paired(p) && AreCaseMedians(diffs, p.keys, p.base, p.cand)
    ensures AreMediansOf(diffs, cases, p)
  {
    var m := DiffsByCase(p.keys, p.base, p.cand, |p.keys|);
    cases :| Enumerates(cases, m.Keys) && diffs == Medians(m, cases, |cases|);
    forall x: string
      ensures x in m <==> DifferencesOf(p, |p.keys|, x) != []
      ensures x in m ==> m[x] == DifferencesOf(p, |p.keys|, x)
    {
      DifferencesAre(p, |p.keys|, x);
    }
    forall i, j | 0 <= i < j < |cases| ensures cases[i] != cases[j] { EachOnce(cases, m.Keys, i, j); }
    forall i | 0 <= i < |cases| ensures diffs[i] == Median(m[cases[i]]) { MedianAt(m, cases, |cases|, i); }
  }

  predicate IsMeanOf(x: real, s: seq<real>) {
    x * |s| as real == Sum(s)
  }

  lemma {:induction false} PointIs(s: seq<real>)
    requires s != []
    ensures IsMeanOf(Aggregate(MeanOf, s), s)
  {
    AggregateIs(s);
  }

  /** Where the interval of a round lies: the ends stand among the draws of the mean, counted. */
  ghost predicate IsIntervalOver(ci: Interval, diffs: seq<real>, limits: Thresholds, rng: nat -> nat)
    requires diffs != [] && limits.resamples >= 1
  {
    var draws := Draws(diffs, MeanOf, rng, limits.resamples);
    && ci.n == |diffs| && ci.resamples == limits.resamples && IsMeanOf(ci.point, diffs)
    && ci.low in draws && ci.high in draws
    && IsPercentileOf(ci.low, draws, (1.0 - limits.confidence) / 2.0)
    && IsPercentileOf(ci.high, draws, 1.0 - (1.0 - limits.confidence) / 2.0)
  }

  lemma {:induction false} EndsAre(diffs: seq<real>, limits: Thresholds, rng: nat -> nat)
    requires |diffs| >= 2 && limits.resamples >= 1
    ensures IsIntervalOver(IntervalOf(diffs, limits.resamples, limits.confidence, MeanOf, rng), diffs, limits, rng)
  {
    IntervalIs(diffs, limits.resamples, limits.confidence, MeanOf, rng);
    PointIs(diffs);
  }

  /** There is none with fewer than two cases or no resample. */
  lemma {:induction false} RoundIntervalIs(ci: Option<Interval>, p: Pairing, limits: Thresholds, rng: nat -> nat)
    returns (diffs: seq<real>, cases: seq<string>)
    requires Paired(p) && IsMeanInterval(ci, p, limits, rng)
    ensures AreMediansOf(diffs, cases, p)
    ensures ci == None <==> |diffs| < 2 || limits.resamples < 1
    ensures ci != None ==> IsIntervalOver(ci.value, diffs, limits, rng)
  {
    diffs :| AreCaseMedians(diffs, p.keys, p.base, p.cand) && IsIntervalOf(ci, diffs, limits, rng);
    cases := CaseMediansAre(diffs, p);
    if ci != None { EndsAre(diffs, limits, rng); }
  }
}
