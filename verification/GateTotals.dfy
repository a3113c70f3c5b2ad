/** The totals behind a promotion, taken over the two lists of runs themselves. */
module GateTotals {
  import opened Prelude
  import opened GateInputs
  import opened GateChecks
  import opened GateMetrics
  import opened Bootstrap
  import opened PairedGate
  import opened GateTheorems
  import Percentile

  /** A quantity summed over runs. */
  function Total(runs: seq<Run>, f: Run -> real): real {
    if runs == [] then 0.0 else Total(runs[..|runs| - 1], f) + f(runs[|runs| - 1])
  }

  function Latencies(runs: seq<Run>): seq<real> {
    if runs == [] then []
    else
      var last := runs[|runs| - 1];
      Latencies(runs[..|runs| - 1]) + if last.latency.Given? then [last.latency.value] else []
  }

  function PassedOf(r: Run): real {
    if IsTrue(r.passed) then 1.0 else 0.0
  }

  function CompletedOf(r: Run): real {
    if IsTrue(VerdictOf(r).taskCompleted) then 1.0 else 0.0
  }

  function LlmCallsOf(r: Run): real {
    IntOf(r.llmCalls) as real
  }

  function FailuresOf(r: Run): real {
    Failures(Items(r.toolEvents)) as real
  }

  function ToolCallsOf(r: Run): real {
    |Items(r.toolEvents)| as real
  }

  function ConstraintsPassedOf(r: Run): real {
    IntOf(VerdictOf(r).constraintsPassed) as real
  }

  function ConstraintsTotalOf(r: Run): real {
    IntOf(VerdictOf(r).constraintsTotal) as real
  }

  function GroundedOf(r: Run): real {
    IntOf(GroundingOf(r).grounded) as real
  }

  function SourcedOf(r: Run): real {
    IntOf(GroundingOf(r).sourced) as real
  }

  function ClaimsOf(r: Run): real {
    IntOf(GroundingOf(r).claims) as real
  }

  function CostOf(r: Run): real {
    if r.cost.Given? then r.cost.value else 0.0
  }

  // ---- The metrics are these totals --------------------------------------------------------------------

  ghost predicate CountsAre(m: Metrics, runs: seq<Run>) {
    && m.passed as real == Total(runs, PassedOf) && m.taskCompleted as real == Total(runs, CompletedOf)
    && m.llmCalls as real == Total(runs, LlmCallsOf) && m.toolFailures as real == Total(runs, FailuresOf)
    && m.toolCalls as real == Total(runs, ToolCallsOf) && m.cost == Total(runs, CostOf)
  }

  ghost predicate ClaimsAre(m: Metrics, runs: seq<Run>) {
    && m.constraintsPassed as real == Total(runs, ConstraintsPassedOf)
    && m.constraintsTotal as real == Total(runs, ConstraintsTotalOf)
    && m.grounded as real == Total(runs, GroundedOf) && m.sourced as real == Total(runs, SourcedOf)
    && m.claims as real == Total(runs, ClaimsOf)
  }

  lemma {:induction false} MetricsAreTotals(runs: seq<Run>)
    ensures CountsAre(Aggregated(runs), runs) && ClaimsAre(Aggregated(runs), runs)
    ensures Aggregated(runs).latencies == Latencies(runs)
  {
    if runs != [] {
      MetricsAreTotals(runs[..|runs| - 1]);
    }
  }

  // ---- They do not depend on the order of the runs -----------------------------------------------------

  lemma {:induction false} TotalOfBoth(a: seq<Run>, b: seq<Run>, f: Run -> real)
    ensures Total(a + b, f) == Total(a, f) + Total(b, f)
    decreases |b|
  {
    if b == [] {
      assert a + b == a;
    } else {
      assert (a + b)[..|a + b| - 1] == a + b[..|b| - 1];
      TotalOfBoth(a, b[..|b| - 1], f);
    }
  }

  lemma {:induction false} LatenciesOfBoth(a: seq<Run>, b: seq<Run>)
    ensures Latencies(a + b) == Latencies(a) + Latencies(b)
    decreases |b|
  {
    if b == [] {
      assert a + b == a;
    } else {
      assert (a + b)[..|a + b| - 1] == a + b[..|b| - 1];
      LatenciesOfBoth(a, b[..|b| - 1]);
    }
  }

  /** b with one occurrence of the last run of a taken out. */
  lemma {:induction false} TakeOut(a: seq<Run>, b: seq<Run>) returns (front: seq<Run>, back: seq<Run>)
    requires multiset(a) == multiset(b) && a != []
    ensures b == front + [a[|a| - 1]] + back
    ensures multiset(a[..|a| - 1]) == multiset(front + back)
  {
    var last := a[|a| - 1];
    assert last in multiset(b);
    var i :| 0 <= i < |b| && b[i] == last;
    front, back := b[..i], b[i + 1..];
    assert a == a[..|a| - 1] + [last];
    assert b == front + [last] + back;
    Cancel(multiset(a[..|a| - 1]), multiset(front + back), last);
  }

  lemma {:induction false} Cancel(m: multiset<Run>, n: multiset<Run>, x: Run)
    requires m + multiset{x} == n + multiset{x}
    ensures m == n
  {
    forall y: Run ensures m[y] == n[y] {
      assert (m + multiset{x})[y] == (n + multiset{x})[y];
    }
  }

  lemma {:induction false} TotalIgnoresOrder(a: seq<Run>, b: seq<Run>, f: Run -> real)
    requires multiset(a) == multiset(b)
    ensures Total(a, f) == Total(b, f)
    decreases |a|
  {
    assert |multiset(a)| == |a| && |multiset(b)| == |b|;
    if a != [] {
      var last := a[|a| - 1];
      var front, back := TakeOut(a, b);
      TotalIgnoresOrder(a[..|a| - 1], front + back, f);
      TotalOfBoth(front, back, f);
      TotalOfBoth(front + [last], back, f);
      TotalOfBoth(front, [last], f);
      assert [last][..0] == [];
    }
  }

  lemma {:induction false} LatenciesIgnoreOrder(a: seq<Run>, b: seq<Run>)
    requires multiset(a) == multiset(b)
    ensures multiset(Latencies(a)) == multiset(Latencies(b))
    decreases |a|
  {
    assert |multiset(a)| == |a| && |multiset(b)| == |b|;
    if a != [] {
      var last := a[|a| - 1];
      var front, back := TakeOut(a, b);
      LatenciesIgnoreOrder(a[..|a| - 1], front + back);
      LatenciesOfBoth(front, back);
      LatenciesOfBoth(front + [last], back);
      LatenciesOfBoth(front, [last]);
      assert [last][..0] == [];
    }
  }

  // ---- With exact pairing the paired runs are all the runs -----------------------------------------------

  ghost predicate NoRepeats(s: seq<Run>) {
    forall i, j :: 0 <= i < j < |s| ==> s[i] != s[j]
  }

  lemma {:induction false} OnceEach(s: seq<Run>, x: Run)
    requires NoRepeats(s)
    ensures multiset(s)[x] == if x in s then 1 else 0
  {
    if s != [] {
      var front, last := s[..|s| - 1], s[|s| - 1];
      assert s == front + [last];
      OnceEach(front, x);
      assert last !in front;
    }
  }

  lemma {:induction false} SameOnceEach(s: seq<Run>, t: seq<Run>)
    requires NoRepeats(s) && NoRepeats(t) && forall x :: x in s <==> x in t
    ensures multiset(s) == multiset(t)
  {
    forall x: Run ensures multiset(s)[x] == multiset(t)[x] {
      OnceEach(s, x);
      OnceEach(t, x);
    }
  }

  lemma {:induction false} PairedRunsAreAll(runs: seq<Run>, keys: seq<Key>, index: map<Key, Run>)
    requires DistinctKeys(runs) && index == Indexed(runs, |runs|)
    requires Enumerates(keys, KeySet(runs)) && forall k :: k in keys ==> k in index
    ensures multiset(PairedRuns(keys, index)) == multiset(runs)
  {
    var paired := PairedRuns(keys, index);
    forall i | 0 <= i < |keys| ensures paired[i] in runs && KeyOf(paired[i]) == keys[i] {
      assert keys[i] in keys;
      IndexedKeys(runs, |runs|, keys[i]);
    }
    forall i, j | 0 <= i < j < |paired| ensures paired[i] != paired[j] {
      EnumerationIsDistinct(keys, KeySet(runs), i, j);
    }
    forall x | x in runs ensures x in paired {
      var i :| 0 <= i < |runs| && runs[i] == x;
      IndexedIsTheRun(runs, |runs|, i);
      assert KeyOf(x) in KeySet(runs);
      var n :| 0 <= n < |keys| && keys[n] == KeyOf(x);
      assert paired[n] == x;
    }
    SameOnceEach(paired, runs);
  }

  // ---- What a promotion says about the totals --------------------------------------------------------------

  function P95OfRuns(runs: seq<Run>): Option<real> {
    Percentile.Percentile(Latencies(runs), 0.95)
  }

  /** The candidate's totals against the baseline's, within the thresholds. */
  ghost predicate TotalsHold(r: Round) {
    var b, c := r.baselineRuns, r.candidateRuns;
    && Total(c, CompletedOf) + r.limits.maxQualityRegression >= Total(b, CompletedOf)
    && Total(c, PassedOf) + PassAllowance(|b|, r.limits) >= Total(b, PassedOf)
    && Total(c, LlmCallsOf) <= Total(b, LlmCallsOf) + r.limits.maxLlmIncrease as real
    && Total(c, FailuresOf) <= Total(b, FailuresOf)
    && Total(c, ToolCallsOf) <= ToolLimit(Total(b, ToolCallsOf).Floor, r.limits) as real
    && Total(c, CostOf) <= Total(b, CostOf) + r.limits.maxCostIncrease
    && P95Ok(P95OfRuns(b), P95OfRuns(c), r.limits)
  }

  function RateOf(num: real, den: real): Option<real> {
    if den == 0.0 then None else Some(num / den)
  }

  function RateOver(runs: seq<Run>, num: Run -> real, den: Run -> real): Option<real> {
    RateOf(Total(runs, num), Total(runs, den))
  }

  /** The candidate's rates against the baseline's: all of them exist, and none is worse than allowed. */
  ghost predicate RatesHold(r: Round) {
    var b, c := r.baselineRuns, r.candidateRuns;
    && NotWorse(RateOver(b, ConstraintsPassedOf, ConstraintsTotalOf), RateOver(c, ConstraintsPassedOf, ConstraintsTotalOf),
                r.limits.maxQualityRegression)
    && NotWorse(RateOver(b, GroundedOf, ClaimsOf), RateOver(c, GroundedOf, ClaimsOf), r.limits.maxEvidenceRegression)
    && NotWorse(RateOver(b, SourcedOf, ClaimsOf), RateOver(c, SourcedOf, ClaimsOf), r.limits.maxEvidenceRegression)
  }

  /** How many passes fewer the quality threshold allows over so many pairs. */
  function PassAllowance(pairs: nat, limits: Thresholds): real {
    limits.maxQualityRegression * (if pairs > 1 then pairs as real else 1.0)
  }

  lemma {:induction false} TotalsOfPaired(runs: seq<Run>, keys: seq<Key>, index: map<Key, Run>)
    requires DistinctKeys(runs) && index == Indexed(runs, |runs|)
    requires Enumerates(keys, KeySet(runs)) && forall k :: k in keys ==> k in index
    ensures var m := Aggregated(PairedRuns(keys, index));
            CountsAre(m, runs) && ClaimsAre(m, runs) && P95(m) == P95OfRuns(runs)
  {
    var paired := PairedRuns(keys, index);
    PairedRunsAreAll(runs, keys, index);
    MetricsAreTotals(paired);
    TotalIgnoresOrder(paired, runs, PassedOf);
    TotalIgnoresOrder(paired, runs, CompletedOf);
    TotalIgnoresOrder(paired, runs, LlmCallsOf);
    TotalIgnoresOrder(paired, runs, FailuresOf);
    TotalIgnoresOrder(paired, runs, ToolCallsOf);
    TotalIgnoresOrder(paired, runs, CostOf);
    TotalIgnoresOrder(paired, runs, ConstraintsPassedOf);
    TotalIgnoresOrder(paired, runs, ConstraintsTotalOf);
    TotalIgnoresOrder(paired, runs, GroundedOf);
    TotalIgnoresOrder(paired, runs, SourcedOf);
    TotalIgnoresOrder(paired, runs, ClaimsOf);
    LatenciesIgnoreOrder(paired, runs);
    Percentile.PercentileIgnoresOrder(Latencies(paired), Latencies(runs), 0.95);
  }

  lemma {:induction false} RunsPerKey(runs: seq<Run>)
    requires DistinctKeys(runs)
    ensures |KeySet(runs)| == |runs|
  {
    if runs == [] {
      assert KeySet(runs) == {};
    } else {
      var front, last := runs[..|runs| - 1], runs[|runs| - 1];
      RunsPerKey(front);
      assert KeySet(runs) == KeySet(front) + {KeyOf(last)};
      assert KeyOf(last) !in KeySet(front);
    }
  }

  /** The parts of a promotion that are about totals. */
  ghost predicate MetricsHold(base: Metrics, cand: Metrics, pairs: nat, limits: Thresholds) {
    && cand.taskCompleted as real + limits.maxQualityRegression >= base.taskCompleted as real
    && cand.passed as real + PassAllowance(pairs, limits) >= base.passed as real
    && cand.llmCalls <= base.llmCalls + limits.maxLlmIncrease
    && cand.toolFailures <= base.toolFailures
    && cand.toolCalls <= ToolLimit(base.toolCalls, limits)
    && cand.cost <= base.cost + limits.maxCostIncrease
    && P95Ok(P95(base), P95(cand), limits)
  }

  ghost predicate MetricRatesHold(base: Metrics, cand: Metrics, limits: Thresholds) {
    && NotWorse(Rate(base.constraintsPassed, base.constraintsTotal), Rate(cand.constraintsPassed, cand.constraintsTotal),
                limits.maxQualityRegression)
    && NotWorse(Rate(base.grounded, base.claims), Rate(cand.grounded, cand.claims), limits.maxEvidenceRegression)
    && NotWorse(Rate(base.sourced, base.claims), Rate(cand.sourced, cand.claims), limits.maxEvidenceRegression)
  }

  lemma {:induction false} PassShare(p: Pairing, base: Metrics, cand: Metrics, limits: Thresholds)
    requires Paired(p) && PassesNotWorse(p, base, cand, limits)
    ensures cand.passed as real + PassAllowance(|p.keys|, limits) >= base.passed as real
  {
  }

  lemma {:induction false} PromotableMetrics(r: Round, p: Pairing, ci: Option<Interval>, base: Metrics, cand: Metrics)
    requires Paired(p) && Promotable(r, p, ci)
    requires base == Aggregated(PairedRuns(p.keys, p.base)) && cand == Aggregated(PairedRuns(p.keys, p.cand))
    ensures ExactPairing(p, r.limits)
    ensures cand.taskCompleted as real + r.limits.maxQualityRegression >= base.taskCompleted as real
    ensures PassesNotWorse(p, base, cand, r.limits)
    ensures cand.llmCalls <= base.llmCalls + r.limits.maxLlmIncrease
    ensures cand.toolFailures <= base.toolFailures
    ensures cand.toolCalls <= ToolLimit(base.toolCalls, r.limits)
    ensures cand.cost <= base.cost + r.limits.maxCostIncrease
    ensures P95Ok(P95(base), P95(cand), r.limits)
    ensures MetricRatesHold(base, cand, r.limits)
  {
  }

  lemma {:induction false} PromotableTotals(r: Round, p: Pairing, ci: Option<Interval>, base: Metrics, cand: Metrics)
    requires Paired(p) && Promotable(r, p, ci)
    requires base == Aggregated(PairedRuns(p.keys, p.base)) && cand == Aggregated(PairedRuns(p.keys, p.cand))
    ensures ExactPairing(p, r.limits) && MetricsHold(base, cand, |p.keys|, r.limits)
    ensures MetricRatesHold(base, cand, r.limits)
  {
    PromotableMetrics(r, p, ci, base, cand);
    PassShare(p, base, cand, r.limits);
  }

  /** PROMOTE is sound for the totals too, taken over the lists of runs in any order. */
  lemma {:induction false} PromotedTotals(r: Round, p: Pairing, ci: Option<Interval>)
    requires IsPairing(r, p) && Paired(p)
    requires RoundOutcome(FinalRows(r, p, ci)) == Promote
    ensures TotalsHold(r) && RatesHold(r)
  {
    PromoteIff(r, p, ci);
    var base, cand := Aggregated(PairedRuns(p.keys, p.base)), Aggregated(PairedRuns(p.keys, p.cand));
    PromotableTotals(r, p, ci, base, cand);
    TotalsFollow(r, p, base, cand);
    RatesFollow(r, p, base, cand);
  }

  lemma {:induction false} TotalsFollow(r: Round, p: Pairing, base: Metrics, cand: Metrics)
    requires IsPairing(r, p) && Paired(p) && ExactPairing(p, r.limits)
    requires base == Aggregated(PairedRuns(p.keys, p.base)) && cand == Aggregated(PairedRuns(p.keys, p.cand))
    requires MetricsHold(base, cand, |p.keys|, r.limits)
    ensures TotalsHold(r)
  {
    KeysAreAll(r, p);
    RunsPerKey(r.baselineRuns);
    TotalsOfPaired(r.baselineRuns, p.keys, p.base);
    TotalsOfPaired(r.candidateRuns, p.keys, p.cand);
  }

  lemma {:induction false} RateIsRateOf(num: int, den: int, x: real, y: real)
    requires num as real == x && den as real == y
    ensures Rate(num, den) == RateOf(x, y)
  {
  }

  lemma {:induction false} RatesAre(m: Metrics, runs: seq<Run>)
    requires ClaimsAre(m, runs)
    ensures Rate(m.constraintsPassed, m.constraintsTotal) == RateOver(runs, ConstraintsPassedOf, ConstraintsTotalOf)
    ensures Rate(m.grounded, m.claims) == RateOver(runs, GroundedOf, ClaimsOf)
    ensures Rate(m.sourced, m.claims) == RateOver(runs, SourcedOf, ClaimsOf)
  {
    RateIsRateOf(m.constraintsPassed, m.constraintsTotal, Total(runs, ConstraintsPassedOf), Total(runs, ConstraintsTotalOf));
    RateIsRateOf(m.grounded, m.claims, Total(runs, GroundedOf), Total(runs, ClaimsOf));
    RateIsRateOf(m.sourced, m.claims, Total(runs, SourcedOf), Total(runs, ClaimsOf));
  }

  lemma {:induction false} RatesFollow(r: Round, p: Pairing, base: Metrics, cand: Metrics)
    requires IsPairing(r, p) && Paired(p) && ExactPairing(p, r.limits)
    requires base == Aggregated(PairedRuns(p.keys, p.base)) && cand == Aggregated(PairedRuns(p.keys, p.cand))
    requires MetricRatesHold(base, cand, r.limits)
    ensures RatesHold(r)
  {
    KeysAreAll(r, p);
    TotalsOfPaired(r.baselineRuns, p.keys, p.base);
    TotalsOfPaired(r.candidateRuns, p.keys, p.cand);
    RatesAre(base, r.baselineRuns);
    RatesAre(cand, r.candidateRuns);
  }
}
