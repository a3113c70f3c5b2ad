/** The fail-closed promotion gate: the checks of one paired round and what their outcome guarantees. */
module PairedGate {
  import opened Prelude
  import opened GateInputs
  import opened GateChecks
  import opened GateMetrics
  import opened Lifecycle
  import opened Bootstrap
  import Percentile

  datatype Thresholds = Thresholds(
    minPairs: int, maxQualityRegression: real, maxEvidenceRegression: real,
    maxP95Ratio: real, maxP95Increase: real, maxPairedIncrease: real, minRepeats: int,
    resamples: int, confidence: real, maxIdenticalShare: real,
    maxLlmIncrease: int, maxToolRatio: real, maxCostIncrease: real)

  /** One round: both arms, the load errors, what the runner says it executed, and the thresholds. */
  datatype Round = Round(
    baseline: Summary, candidate: Summary, baselineRuns: seq<Run>, candidateRuns: seq<Run>,
    loadErrors: seq<string>, offlineExecution: Option<bool>, limits: Thresholds)

  /** What is computed once per round: the two indexes, their duplicates and the paired keys. */
  datatype Pairing = Pairing(
    base: map<Key, Run>, cand: map<Key, Run>, baseDuplicates: seq<Key>, candDuplicates: seq<Key>, keys: seq<Key>)

  ghost predicate IsPairing(r: Round, p: Pairing) {
    && p.base == Indexed(r.baselineRuns, |r.baselineRuns|) && p.cand == Indexed(r.candidateRuns, |r.candidateRuns|)
    && p.baseDuplicates == Duplicates(r.baselineRuns, |r.baselineRuns|)
    && p.candDuplicates == Duplicates(r.candidateRuns, |r.candidateRuns|)
    && Enumerates(p.keys, p.base.Keys * p.cand.Keys)
  }

  predicate Paired(p: Pairing) {
    forall k :: k in p.keys ==> k in p.base && k in p.cand
  }

  // ---- The conditions of the checks -------------------------------------------------------------------

  function PassOrHold(ok: bool): Outcome {
    if ok then Promote else Hold
  }

  predicate ContractOk(b: Summary, c: Summary) {
    && Get(b.arch) == Some("fc_loop") && Get(c.arch) == Some("manager_v1")
    && IsTrue(c.specialists)
    && Get(b.mode) == Get(c.mode) == Some("offline")
  }

  function CaseIds(runs: seq<Run>): set<string> {
    set i | 0 <= i < |runs| :: KeyOf(runs[i]).caseId
  }

  predicate SameExperiment(r: Round) {
    && Get(r.baseline.config) == Get(r.candidate.config)
    && Get(r.baseline.repeats) == Get(r.candidate.repeats)
    && Get(r.baseline.casesSelected) == Get(r.candidate.casesSelected)
    && CaseIds(r.baselineRuns) == CaseIds(r.candidateRuns)
  }

  predicate ExactPairing(p: Pairing, limits: Thresholds) {
    && p.baseDuplicates == [] && p.candDuplicates == []
    && p.base.Keys == p.cand.Keys
    && |p.keys| >= limits.minPairs
  }

  function Gaps(r: Round): nat {
    SummaryGaps(r.baseline, false) + RunsGaps(r.baselineRuns, false, |r.baselineRuns|)
    + SummaryGaps(r.candidate, true) + RunsGaps(r.candidateRuns, true, |r.candidateRuns|)
  }

  predicate SameCleanCommit(b: Summary, c: Summary) {
    && b.gitCommit.Given? && b.gitCommit.value != "" && Get(b.gitCommit) == Get(c.gitCommit)
    && IsFalse(b.gitDirty) && IsFalse(c.gitDirty)
  }

  predicate IsOfflineSummary(s: Summary) {
    Get(s.mode) == Some("offline") || IsTrue(s.offline)
  }

  function BothOffline(r: Round): bool {
    if r.offlineExecution.None? then IsOfflineSummary(r.baseline) && IsOfflineSummary(r.candidate)
    else r.offlineExecution.value
  }

  predicate GatesGreen(b: Summary, c: Summary) {
    IsTrue(b.gatePassed) && IsTrue(b.sloOk) && IsTrue(c.gatePassed) && IsTrue(c.sloOk)
  }

  function PairedRuns(keys: seq<Key>, index: map<Key, Run>): (runs: seq<Run>)
    requires forall k :: k in keys ==> k in index
    ensures |runs| == |keys| && forall i :: 0 <= i < |keys| ==> runs[i] == index[keys[i]]
  {
    seq(|keys|, i requires 0 <= i < |keys| => index[keys[i]])
  }

  predicate NotWorse(base: Option<real>, cand: Option<real>, allowance: real) {
    base.Some? && cand.Some? && cand.value + allowance >= base.value
  }

  predicate PassRegresses(p: Pairing, k: Key)
    requires k in p.base && k in p.cand
  {
    IsTrue(p.base[k].passed) && !IsTrue(p.cand[k].passed)
  }

  predicate PassesNotWorse(p: Pairing, base: Metrics, cand: Metrics, limits: Thresholds)
    requires Paired(p)
  {
    && cand.passed as real + limits.maxQualityRegression * (if |p.keys| > 1 then |p.keys| as real else 1.0)
         >= base.passed as real
    && forall k :: k in p.keys ==> !PassRegresses(p, k)
  }

  function Max(a: real, b: real): real {
    if a >= b then a else b
  }

  predicate P95Ok(base: Option<real>, cand: Option<real>, limits: Thresholds) {
    base.Some? && cand.Some?
    && cand.value <= Max(base.value * limits.maxP95Ratio, base.value + limits.maxP95Increase)
  }

  function RepeatCount(keys: seq<Key>): nat {
    |set i | 0 <= i < |keys| :: keys[i].repeatIndex|
  }

  function LatencyOutcome(repeats: nat, ci: Option<Interval>, pointOk: bool, limits: Thresholds): Outcome {
    if repeats < limits.minRepeats then LowPower
    else if ci.None? then Hold
    else PassOrHold(ci.value.high <= limits.maxPairedIncrease && pointOk)
  }

  predicate LlmPairOk(p: Pairing, k: Key, limits: Thresholds)
    requires k in p.base && k in p.cand
  {
    var b, c := p.base[k].llmCalls, p.cand[k].llmCalls;
    b.Given? && c.Given? && c.value <= b.value + limits.maxLlmIncrease
  }

  predicate LlmOk(p: Pairing, base: Metrics, cand: Metrics, limits: Thresholds)
    requires Paired(p)
  {
    && (forall k :: k in p.keys ==> LlmPairOk(p, k, limits))
    && cand.llmCalls <= base.llmCalls + limits.maxLlmIncrease
  }

  /** The slack added before rounding down, so that float error does not cost a call. */
  const SLACK: real := 0.000000001

  function ToolLimit(calls: int, limits: Thresholds): int {
    if calls == 0 then 0 else (calls as real * limits.maxToolRatio + SLACK).Floor
  }

  ghost predicate LifecycleComplete(a: Audit) {
    a.taskCount > 0 && a.invalid == {} && a.malformed == 0 && a.toolCalls > 0 && a.modelCalls == 0
  }

  predicate HasConstraint(runs: seq<Run>, kind: string) {
    exists i, j :: 0 <= i < |runs| && 0 <= j < |ConstraintsOf(runs[i])| && ConstraintsOf(runs[i])[j].kind == Given(kind)
  }

  predicate ViolatesKind(found: seq<Violation>, kind: string) {
    exists i :: 0 <= i < |found| && found[i].FailedConstraint? && found[i].kind == kind
  }

  function ObservedBlock(s: Summary, isolation: bool): bool {
    s.memorySafety.Given?
    && IsTrue(if isolation then s.memorySafety.value.isolationObserved else s.memorySafety.value.injectionObserved)
  }

  function SecurityOutcome(found: seq<Violation>, kind: string, offline: bool, observed: bool): Outcome {
    if ViolatesKind(found, kind) then Block
    else if offline then NotMeasurable
    else PassOrHold(observed)
  }

  function DistinctOutcome(comparable: nat, identical: nat, pairs: nat, limits: Thresholds): Outcome {
    if pairs == 0 || comparable < pairs then Hold
    else if identical as real / comparable as real > limits.maxIdenticalShare then Vacuous
    else Promote
  }

  // ---- The rows ----------------------------------------------------------------------------------------

  function IdentityRows(r: Round, p: Pairing): seq<Row> {
    [Row(ResultFiles, PassOrHold(r.loadErrors == [])),
     Row(ArmContract, PassOrHold(ContractOk(r.baseline, r.candidate))),
     Row(ArmConsistency, PassOrHold(SameExperiment(r))),
     Row(PairedSample, PassOrHold(ExactPairing(p, r.limits))),
     Row(MeasurementCompleteness, PassOrHold(Gaps(r) == 0)),
     Row(IdentityBinding, PassOrHold(SameCleanCommit(r.baseline, r.candidate)))]
  }

  function GuardRows(r: Round, found: seq<Violation>): seq<Row> {
    [Row(ZeroToleranceSecurity, if found != [] then Block else Promote),
     Row(ExistingGates, PassOrHold(GatesGreen(r.baseline, r.candidate)))]
  }

  function QualityRows(p: Pairing, base: Metrics, cand: Metrics, limits: Thresholds): seq<Row>
    requires Paired(p)
  {
    [Row(TaskCompletion, PassOrHold(NotWorse(Some(base.taskCompleted as real), Some(cand.taskCompleted as real),
                                             limits.maxQualityRegression))),
     Row(ConstraintQuality, PassOrHold(NotWorse(Rate(base.constraintsPassed, base.constraintsTotal),
                                                Rate(cand.constraintsPassed, cand.constraintsTotal),
                                                limits.maxQualityRegression))),
     Row(PairedPassQuality, PassOrHold(PassesNotWorse(p, base, cand, limits))),
     Row(GroundedEvidence, PassOrHold(NotWorse(Rate(base.grounded, base.claims), Rate(cand.grounded, cand.claims),
                                               limits.maxEvidenceRegression))),
     Row(SourceCoverage, PassOrHold(NotWorse(Rate(base.sourced, base.claims), Rate(cand.sourced, cand.claims),
                                             limits.maxEvidenceRegression)))]
  }

  function ResourceRows(p: Pairing, base: Metrics, cand: Metrics, ci: Option<Interval>, limits: Thresholds): seq<Row>
    requires Paired(p)
  {
    [Row(P95LatencyBudget, LatencyOutcome(RepeatCount(p.keys), ci, P95Ok(P95(base), P95(cand), limits), limits)),
     Row(LlmCallBudget, PassOrHold(LlmOk(p, base, cand, limits))),
     Row(ToolCallBudget, PassOrHold(cand.toolCalls <= ToolLimit(base.toolCalls, limits))),
     Row(ToolFailureNoninferiority, PassOrHold(cand.toolFailures <= base.toolFailures)),
     Row(CostBudget, PassOrHold(cand.cost <= base.cost + limits.maxCostIncrease))]
  }

  ghost function SafetyRows(r: Round, found: seq<Violation>, a: Audit): seq<Row> {
    var offline := BothOffline(r);
    var isolation := ObservedBlock(r.candidate, true) && HasConstraint(r.candidateRuns, "memory_isolation");
    var injection := ObservedBlock(r.candidate, false) && HasConstraint(r.candidateRuns, "resist_prompt_injection");
    [Row(SpecialistLifecycle, PassOrHold(LifecycleComplete(a))),
     Row(MemoryIsolation, SecurityOutcome(found, "memory_isolation", offline, isolation)),
     Row(PromptInjection, SecurityOutcome(found, "resist_prompt_injection", offline, injection)),
     Row(MemorySafetyCoverage, if offline then NotMeasurable else PassOrHold(isolation && injection))]
  }

  function DistinctRow(p: Pairing, limits: Thresholds): Row
    requires Paired(p)
  {
    Row(Distinctiveness,
        DistinctOutcome(CountPairs(Comparable, p.keys, p.base, p.cand, |p.keys|),
                        CountPairs(SameAnswer, p.keys, p.base, p.cand, |p.keys|), |p.keys|, limits))
  }

  /** The bootstrap interval of the mean paired difference, for some order of the cases. */
  ghost predicate IsMeanInterval(ci: Option<Interval>, p: Pairing, limits: Thresholds, rng: nat -> nat)
    requires Paired(p)
  {
    exists diffs :: AreCaseMedians(diffs, p.keys, p.base, p.cand) && IsIntervalOf(ci, diffs, limits, rng)
  }

  predicate IsIntervalOf(ci: Option<Interval>, diffs: seq<real>, limits: Thresholds, rng: nat -> nat) {
    && (ci.None? <==> |diffs| < 2 || limits.resamples < 1)
    && (ci.Some? ==> ci.value == IntervalOf(diffs, limits.resamples, limits.confidence, Percentile.MeanOf, rng))
  }

  function ComparisonRows(p: Pairing, ci: Option<Interval>, limits: Thresholds): seq<Row>
    requires Paired(p)
  {
    var base, cand := Aggregated(PairedRuns(p.keys, p.base)), Aggregated(PairedRuns(p.keys, p.cand));
    QualityRows(p, base, cand, limits) + ResourceRows(p, base, cand, ci, limits)
  }

  function RoundRows(r: Round, p: Pairing, found: seq<Violation>): seq<Row> {
    IdentityRows(r, p) + GuardRows(r, found)
  }

  ghost function EvidenceRows(r: Round, p: Pairing, found: seq<Violation>): seq<Row>
    requires Paired(p)
  {
    SafetyRows(r, found, AuditOf(r.candidateRuns)) + [DistinctRow(p, r.limits)]
  }

  /** All checks of a round, before any is voided. */
  ghost function GateRows(r: Round, p: Pairing, ci: Option<Interval>): seq<Row>
    requires Paired(p)
  {
    var found := Violations(r.candidate, r.candidateRuns, |r.candidateRuns|);
    RoundRows(r, p, found) + ComparisonRows(p, ci, r.limits) + EvidenceRows(r, p, found)
  }

  ghost function FinalRows(r: Round, p: Pairing, ci: Option<Interval>): seq<Row>
    requires Paired(p)
  {
    var rows := GateRows(r, p, ci);
    if DistinctRow(p, r.limits).outcome.Vacuous? then Voided(rows) else rows
  }

  // ---- The gate -----------------------------------------------------------------------------------------

  datatype Report = Report(outcome: Outcome, rows: seq<Row>, violations: seq<Violation>, pairing: Pairing, ci: Option<Interval>)

  method PairUp(r: Round) returns (p: Pairing)
    ensures IsPairing(r, p) && Paired(p)
  {
    var base, baseDuplicates := IndexRuns(r.baselineRuns);
    var cand, candDuplicates := IndexRuns(r.candidateRuns);
    var keys := Enumerate(base.Keys * cand.Keys);
    p := Pairing(base, cand, baseDuplicates, candDuplicates, keys);
  }

  method CheckIdentity(checks: Checks, r: Round, p: Pairing)
    modifies checks
    ensures checks.rows == old(checks.rows) + IdentityRows(r, p)
  {
    var baseGaps := MeasurementGaps(r.baseline, r.baselineRuns, false);
    var candGaps := MeasurementGaps(r.candidate, r.candidateRuns, true);
    AddIdentityRows(checks, r.loadErrors == [], ContractOk(r.baseline, r.candidate), SameExperiment(r),
                    ExactPairing(p, r.limits), baseGaps + candGaps == 0, SameCleanCommit(r.baseline, r.candidate));
  }

  method AddIdentityRows(checks: Checks, loaded: bool, contract: bool, same: bool, paired: bool, complete: bool,
        bound: bool)
    modifies checks
    ensures checks.rows == old(checks.rows)
              + [Row(ResultFiles, PassOrHold(loaded)), Row(ArmContract, PassOrHold(contract)),
                 Row(ArmConsistency, PassOrHold(same)), Row(PairedSample, PassOrHold(paired)),
                 Row(MeasurementCompleteness, PassOrHold(complete)), Row(IdentityBinding, PassOrHold(bound))]
  {
    checks.Add(ResultFiles, PassOrHold(loaded));
    checks.Add(ArmContract, PassOrHold(contract));
    checks.Add(ArmConsistency, PassOrHold(same));
    checks.Add(PairedSample, PassOrHold(paired));
    checks.Add(MeasurementCompleteness, PassOrHold(complete));
    checks.Add(IdentityBinding, PassOrHold(bound));
  }

  method CheckQuality(checks: Checks, p: Pairing, base: Metrics, cand: Metrics, limits: Thresholds)
    requires Paired(p)
    modifies checks
    ensures checks.rows == old(checks.rows) + QualityRows(p, base, cand, limits)
  {
    var taskOk := NotWorse(Some(base.taskCompleted as real), Some(cand.taskCompleted as real), limits.maxQualityRegression);
    checks.Add(TaskCompletion, PassOrHold(taskOk));
    var constraintsOk := NotWorse(Rate(base.constraintsPassed, base.constraintsTotal),
                                  Rate(cand.constraintsPassed, cand.constraintsTotal), limits.maxQualityRegression);
    checks.Add(ConstraintQuality, PassOrHold(constraintsOk));
    checks.Add(PairedPassQuality, PassOrHold(PassesNotWorse(p, base, cand, limits)));
    var groundedOk := NotWorse(Rate(base.grounded, base.claims), Rate(cand.grounded, cand.claims), limits.maxEvidenceRegression);
    checks.Add(GroundedEvidence, PassOrHold(groundedOk));
    var sourcedOk := NotWorse(Rate(base.sourced, base.claims), Rate(cand.sourced, cand.claims), limits.maxEvidenceRegression);
    checks.Add(SourceCoverage, PassOrHold(sourcedOk));
  }

  method CheckResources(checks: Checks, p: Pairing, base: Metrics, cand: Metrics, ci: Option<Interval>,
        limits: Thresholds)
    requires Paired(p)
    modifies checks
    ensures checks.rows == old(checks.rows) + ResourceRows(p, base, cand, ci, limits)
  {
    var pointOk := P95Ok(P95(base), P95(cand), limits);
    checks.Add(P95LatencyBudget, LatencyOutcome(RepeatCount(p.keys), ci, pointOk, limits));
    checks.Add(LlmCallBudget, PassOrHold(LlmOk(p, base, cand, limits)));
    checks.Add(ToolCallBudget, PassOrHold(cand.toolCalls <= ToolLimit(base.toolCalls, limits)));
    checks.Add(ToolFailureNoninferiority, PassOrHold(cand.toolFailures <= base.toolFailures));
    checks.Add(CostBudget, PassOrHold(cand.cost <= base.cost + limits.maxCostIncrease));
  }

  method CheckSafety(checks: Checks, r: Round, found: seq<Violation>)
    modifies checks
    ensures checks.rows == old(checks.rows) + SafetyRows(r, found, AuditOf(r.candidateRuns))
  {
    var a := LifecycleAudit(r.candidateRuns);
    var complete := a.taskCount > 0 && a.invalid == {} && a.malformed == 0 && a.toolCalls > 0 && a.modelCalls == 0;
    checks.Add(SpecialistLifecycle, PassOrHold(complete));
    var offline := BothOffline(r);
    var isolation := ObservedBlock(r.candidate, true) && HasConstraint(r.candidateRuns, "memory_isolation");
    var injection := ObservedBlock(r.candidate, false) && HasConstraint(r.candidateRuns, "resist_prompt_injection");
    checks.Add(MemoryIsolation, SecurityOutcome(found, "memory_isolation", offline, isolation));
    checks.Add(PromptInjection, SecurityOutcome(found, "resist_prompt_injection", offline, injection));
    checks.Add(MemorySafetyCoverage, if offline then NotMeasurable else PassOrHold(isolation && injection));
  }

  /** The checks, in the gate's order. */
  method MakeChecks(checks: Checks, r: Round, p: Pairing, found: seq<Violation>, ci: Option<Interval>)
    requires Paired(p) && checks.rows == []
    requires found == Violations(r.candidate, r.candidateRuns, |r.candidateRuns|)
    modifies checks
    ensures checks.rows == GateRows(r, p, ci)
  {
    CheckRound(checks, r, p, found);
    CheckComparison(checks, p, ci, r.limits);
    CheckEvidence(checks, r, p, found);
    assert [] + RoundRows(r, p, found) == RoundRows(r, p, found);
  }

  method CheckRound(checks: Checks, r: Round, p: Pairing, found: seq<Violation>)
    modifies checks
    ensures checks.rows == old(checks.rows) + RoundRows(r, p, found)
  {
    CheckIdentity(checks, r, p);
    CheckGuards(checks, r, found);
  }

  method CheckEvidence(checks: Checks, r: Round, p: Pairing, found: seq<Violation>)
    requires Paired(p)
    modifies checks
    ensures checks.rows == old(checks.rows) + EvidenceRows(r, p, found)
  {
    CheckSafety(checks, r, found);
    CheckDistinct(checks, p, r.limits);
  }

  method CheckComparison(checks: Checks, p: Pairing, ci: Option<Interval>, limits: Thresholds)
    requires Paired(p)
    modifies checks
    ensures checks.rows == old(checks.rows) + ComparisonRows(p, ci, limits)
  {
    var base, cand := Aggregated(PairedRuns(p.keys, p.base)), Aggregated(PairedRuns(p.keys, p.cand));
    CheckQuality(checks, p, base, cand, limits);
    CheckResources(checks, p, base, cand, ci, limits);
  }

  method CheckGuards(checks: Checks, r: Round, found: seq<Violation>)
    modifies checks
    ensures checks.rows == old(checks.rows) + GuardRows(r, found)
  {
    checks.Add(ZeroToleranceSecurity, if found != [] then Block else Promote);
    checks.Add(ExistingGates, PassOrHold(GatesGreen(r.baseline, r.candidate)));
  }

  method CheckDistinct(checks: Checks, p: Pairing, limits: Thresholds)
    requires Paired(p)
    modifies checks
    ensures checks.rows == old(checks.rows) + [DistinctRow(p, limits)]
  {
    var comparable, identical := CountAnswers(p.keys, p.base, p.cand);
    checks.Add(Distinctiveness, DistinctOutcome(comparable, identical, |p.keys|, limits));
  }

  /** The latency interval: per-case medians, then the bootstrap of their mean. */
  method LatencyInterval(p: Pairing, limits: Thresholds, rng: nat -> nat) returns (ci: Option<Interval>)
    requires Paired(p)
    ensures IsMeanInterval(ci, p, limits, rng)
  {
    var diffs := PairedLatencyDiffs(p.keys, p.base, p.cand);
    ci := BootstrapCi(diffs, limits.resamples, limits.confidence, Percentile.MeanOf, rng);
    assert IsIntervalOf(ci, diffs, limits, rng);
  }

  /** evaluate_pair, with an arbitrary stream of random indices for the bootstrap. */
  method EvaluatePair(r: Round, rng: nat -> nat) returns (report: Report)
    ensures IsPairing(r, report.pairing) && Paired(report.pairing)
    ensures IsMeanInterval(report.ci, report.pairing, r.limits, rng)
    ensures report.rows == FinalRows(r, report.pairing, report.ci)
    ensures report.outcome == RoundOutcome(report.rows)
    ensures report.violations == Violations(r.candidate, r.candidateRuns, |r.candidateRuns|)
  {
    var p := PairUp(r);
    var found := SecurityViolations(r.candidate, r.candidateRuns);
    var ci := LatencyInterval(p, r.limits, rng);
    var checks := new Checks();
    MakeChecks(checks, r, p, found, ci);
    var distinct := DistinctRow(p, r.limits);
    if distinct.outcome.Vacuous? {
      checks.VoidDependentChecks();
    }
    report := Report(RoundOutcome(checks.rows), checks.rows, found, p, ci);
  }
}
