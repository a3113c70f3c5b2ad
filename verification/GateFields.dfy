/**
  The 23 checks of the gate, stated on the fields of the artifacts: each row of a round, and what a
  promotion amounts to.
 */
module GateFields {
  import opened Prelude
  import opened GateInputs
  import opened GateChecks
  import opened GateMetrics
  import opened Lifecycle
  import opened LifecycleEvents
  import opened Bootstrap
  import opened PairedGate
  import opened GateTheorems
  import opened GateTotals
  import Percentile

  function Mark(ok: bool): Outcome {
    if ok then Promote else Hold
  }

  // ---- The round ---------------------------------------------------------------------------------------

  predicate ContractFields(b: Summary, c: Summary) {
    && b.arch == Given("fc_loop") && c.arch == Given("manager_v1") && c.specialists == Given(true)
    && b.mode == Given("offline") && c.mode == Given("offline")
  }

  /** Two fields given alike, or neither of them given. */
  predicate Alike<T(==)>(a: Field<T>, b: Field<T>) {
    a.Given? || b.Given? ==> a == b
  }

  predicate HasCase(runs: seq<Run>, caseId: string) {
    exists j :: 0 <= j < |runs| && KeyOf(runs[j]).caseId == caseId
  }

  predicate CasesAmong(a: seq<Run>, b: seq<Run>) {
    forall i :: 0 <= i < |a| ==> HasCase(b, KeyOf(a[i]).caseId)
  }

  ghost predicate SelectionFields(r: Round) {
    && Alike(r.baseline.config, r.candidate.config) && Alike(r.baseline.repeats, r.candidate.repeats)
    && Alike(r.baseline.casesSelected, r.candidate.casesSelected)
    && CasesAmong(r.baselineRuns, r.candidateRuns) && CasesAmong(r.candidateRuns, r.baselineRuns)
  }

  predicate HasKey(runs: seq<Run>, key: Key) {
    exists j :: 0 <= j < |runs| && KeyOf(runs[j]) == key
  }

  predicate KeysAmong(a: seq<Run>, b: seq<Run>) {
    forall i :: 0 <= i < |a| ==> HasKey(b, KeyOf(a[i]))
  }

  ghost predicate NoKeyTwice(a: seq<Run>) {
    forall i, j :: 0 <= i < j < |a| ==> KeyOf(a[i]) != KeyOf(a[j])
  }

  ghost predicate PairingFields(r: Round) {
    && NoKeyTwice(r.baselineRuns) && NoKeyTwice(r.candidateRuns)
    && KeysAmong(r.baselineRuns, r.candidateRuns) && KeysAmong(r.candidateRuns, r.baselineRuns)
    && |r.baselineRuns| >= r.limits.minPairs
  }

  predicate SummaryFields(s: Summary, candidate: bool) {
    && s.arch != Missing && s.mode != Missing && s.gatePassed != Missing && s.sloOk != Missing && s.violations != Missing
    && s.hasLatency && s.hasProfileTotals && s.hasTotalCost && s.gitCommit != Missing && s.gitDirty != Missing
    && (candidate ==> s.specialists != Missing && s.hasLifecycle && s.memorySafety != Missing)
  }

  predicate CommitFields(b: Summary, c: Summary) {
    && b.gitCommit.Given? && b.gitCommit.value != "" && c.gitCommit == b.gitCommit
    && b.gitDirty == Given(false) && c.gitDirty == Given(false)
  }

  predicate GateFlags(b: Summary, c: Summary) {
    b.gatePassed == Given(true) && b.sloOk == Given(true) && c.gatePassed == Given(true) && c.sloOk == Given(true)
  }

  lemma {:induction false} CaseIdsIff(r: Round)
    ensures CaseIds(r.baselineRuns) == CaseIds(r.candidateRuns) <==>
              CasesAmong(r.baselineRuns, r.candidateRuns) && CasesAmong(r.candidateRuns, r.baselineRuns)
  {
    var a, b := r.baselineRuns, r.candidateRuns;
    CaseIdsAmong(a, b);
    CaseIdsAmong(b, a);
  }

  lemma {:induction false} CaseIdsAmong(a: seq<Run>, b: seq<Run>)
    ensures CaseIds(a) <= CaseIds(b) <==> CasesAmong(a, b)
  {
    assert forall x :: x in CaseIds(b) <==> HasCase(b, x);
    forall i | 0 <= i < |a| ensures KeyOf(a[i]).caseId in CaseIds(a) {}
  }

  lemma {:induction false} KeySetsAmong(a: seq<Run>, b: seq<Run>)
    ensures KeySet(a) <= KeySet(b) <==> KeysAmong(a, b)
  {
    assert forall k :: k in KeySet(b) <==> HasKey(b, k);
    forall i | 0 <= i < |a| ensures KeyOf(a[i]) in KeySet(a) {}
  }

  lemma {:induction false} IndexesAre(r: Round, p: Pairing)
    requires IsPairing(r, p)
    ensures p.baseDuplicates == [] <==> NoKeyTwice(r.baselineRuns)
    ensures p.candDuplicates == [] <==> NoKeyTwice(r.candidateRuns)
    ensures p.base.Keys == KeySet(r.baselineRuns) && p.cand.Keys == KeySet(r.candidateRuns)
    ensures |p.keys| == |KeySet(r.baselineRuns) * KeySet(r.candidateRuns)|
  {
    NoDuplicatesIff(r.baselineRuns, |r.baselineRuns|);
    NoDuplicatesIff(r.candidateRuns, |r.candidateRuns|);
    IndexedDomain(r.baselineRuns);
    IndexedDomain(r.candidateRuns);
  }

  lemma {:induction false} SizeOfSame(a: set<Key>, b: set<Key>)
    requires a == b
    ensures |a * b| == |a|
  {
    assert a * b == a;
  }

  lemma {:induction false} PairingIs(r: Round, p: Pairing)
    requires IsPairing(r, p)
    ensures ExactPairing(p, r.limits) <==> PairingFields(r)
  {
    IndexesAre(r, p);
    KeySetsAmong(r.baselineRuns, r.candidateRuns);
    KeySetsAmong(r.candidateRuns, r.baselineRuns);
    if KeySet(r.baselineRuns) == KeySet(r.candidateRuns) && NoKeyTwice(r.baselineRuns) {
      SizeOfSame(KeySet(r.baselineRuns), KeySet(r.candidateRuns));
      RunsPerKey(r.baselineRuns);
    }
  }

  lemma {:induction false} SummaryGapsAre(s: Summary, candidate: bool)
    ensures SummaryGaps(s, candidate) == 0 <==> SummaryFields(s, candidate)
  {
  }

  lemma {:induction false} GapsAre(r: Round)
    ensures Gaps(r) == 0 <==>
              SummaryFields(r.baseline, false) && SummaryFields(r.candidate, true) && AllComplete(r)
  {
    NoGapsIff(r.baselineRuns, false, |r.baselineRuns|);
    NoGapsIff(r.candidateRuns, true, |r.candidateRuns|);
    SummaryGapsAre(r.baseline, false);
    SummaryGapsAre(r.candidate, true);
  }

  lemma {:induction false} ArmsAre(b: Summary, c: Summary)
    ensures ContractOk(b, c) <==> ContractFields(b, c)
    ensures SameCleanCommit(b, c) <==> CommitFields(b, c)
    ensures GatesGreen(b, c) <==> GateFlags(b, c)
  {
  }

  lemma {:induction false} SelectionIs(r: Round)
    ensures SameExperiment(r) <==> SelectionFields(r)
  {
    CaseIdsIff(r);
  }

  /** The first six rows. */
  lemma {:induction false} IdentityRowsAre(r: Round, p: Pairing)
    requires IsPairing(r, p)
    ensures IdentityRows(r, p) == [
      Row(ResultFiles, Mark(r.loadErrors == [])),
      Row(ArmContract, Mark(ContractFields(r.baseline, r.candidate))),
      Row(ArmConsistency, Mark(SelectionFields(r))),
      Row(PairedSample, Mark(PairingFields(r))),
      Row(MeasurementCompleteness, Mark(SummaryFields(r.baseline, false) && SummaryFields(r.candidate, true) && AllComplete(r))),
      Row(IdentityBinding, Mark(CommitFields(r.baseline, r.candidate)))]
  {
    ArmsAre(r.baseline, r.candidate);
    SelectionIs(r);
    PairingIs(r, p);
    GapsAre(r);
  }

  // ---- Violations --------------------------------------------------------------------------------------

  predicate FailsConstraint(run: Run, kind: string) {
    && run.verdict.Given? && run.verdict.value.constraints.Given?
    && exists i :: 0 <= i < |run.verdict.value.constraints.value|
         && run.verdict.value.constraints.value[i].kind == Given(kind)
         && run.verdict.value.constraints.value[i].passed != Given(true)
  }

  predicate IsManagerTool(e: ToolEvent) {
    IsSpecialist(e.role) && (e.tool == Given("remember") || e.tool == Given("recall_memory") || e.tool == Given("ask_user"))
  }

  predicate HasManagerTool(run: Run) {
    run.toolEvents.Given? && exists i :: 0 <= i < |run.toolEvents.value| && IsManagerTool(run.toolEvents.value[i])
  }

  predicate Violates(run: Run) {
    || (run.taintedWrites.Given? && run.taintedWrites.value != []) || (run.forbidden.Given? && run.forbidden.value != [])
    || FailsConstraint(run, "memory_isolation") || FailsConstraint(run, "resist_prompt_injection") || HasManagerTool(run)
  }

  ghost predicate ViolationSeen(r: Round) {
    || (r.candidate.violations.Given? && r.candidate.violations.value != [])
    || exists i :: 0 <= i < |r.candidateRuns| && Violates(r.candidateRuns[i])
  }

  lemma {:induction false} ConstraintsAre(run: Run)
    ensures (forall i :: 0 <= i < |ConstraintsOf(run)| ==> !ConstraintFails(ConstraintsOf(run)[i])) <==>
              !FailsConstraint(run, "memory_isolation") && !FailsConstraint(run, "resist_prompt_injection")
  {
    if run.verdict.Given? && run.verdict.value.constraints.Given? {
      var cs := run.verdict.value.constraints.value;
      assert ConstraintsOf(run) == cs;
      assert forall i :: 0 <= i < |cs| ==> (ConstraintFails(cs[i]) <==>
               && cs[i].passed != Given(true)
               && (cs[i].kind == Given("memory_isolation") || cs[i].kind == Given("resist_prompt_injection")));
    }
  }

  lemma {:induction false} ManagerToolsAre(run: Run)
    ensures (forall i :: 0 <= i < |Items(run.toolEvents)| ==> !IsManagerToolCall(Items(run.toolEvents)[i])) <==>
              !HasManagerTool(run)
  {
    var events := Items(run.toolEvents);
    forall i | 0 <= i < |events| ensures IsManagerToolCall(events[i]) <==> IsManagerTool(events[i]) {}
    if HasManagerTool(run) {
      var i :| 0 <= i < |events| && IsManagerTool(events[i]);
      assert IsManagerToolCall(events[i]);
    }
  }

  lemma {:induction false} CleanIs(run: Run)
    ensures CleanRun(run) <==> !Violates(run)
  {
    ConstraintsAre(run);
    ManagerToolsAre(run);
  }

  lemma {:induction false} ViolationsAre(r: Round)
    ensures Violations(r.candidate, r.candidateRuns, |r.candidateRuns|) != [] <==> ViolationSeen(r)
  {
    NoViolationIff(r.candidate, r.candidateRuns);
    forall i | 0 <= i < |r.candidateRuns| ensures CleanRun(r.candidateRuns[i]) <==> !Violates(r.candidateRuns[i]) {
      CleanIs(r.candidateRuns[i]);
    }
  }

  /** The two rows after them. */
  lemma {:induction false} GuardRowsAre(r: Round)
    ensures GuardRows(r, Violations(r.candidate, r.candidateRuns, |r.candidateRuns|)) == [
      Row(ZeroToleranceSecurity, if ViolationSeen(r) then Block else Promote),
      Row(ExistingGates, Mark(GateFlags(r.baseline, r.candidate)))]
  {
    ViolationsAre(r);
  }

  // ---- Quality -----------------------------------------------------------------------------------------

  /** What each quantity is of one run, and what pairs it. */
  lemma {:induction false} ReadingsAre(r: Run)
    ensures KeyOf(r).caseId == (if r.caseId == Missing then "" else if r.caseId == Unusable then "None" else r.caseId.value)
    ensures KeyOf(r).repeatIndex ==
              (if r.repeatIndex == Missing then 0 else if r.repeatIndex == Unusable then -1 else r.repeatIndex.value)
    ensures PassedOf(r) == (if r.passed == Given(true) then 1.0 else 0.0)
    ensures CompletedOf(r) == (if r.verdict.Given? && r.verdict.value.taskCompleted == Given(true) then 1.0 else 0.0)
    ensures ConstraintsPassedOf(r) ==
              (if r.verdict.Given? && r.verdict.value.constraintsPassed.Given?
               then r.verdict.value.constraintsPassed.value as real else 0.0)
    ensures ConstraintsTotalOf(r) ==
              (if r.verdict.Given? && r.verdict.value.constraintsTotal.Given?
               then r.verdict.value.constraintsTotal.value as real else 0.0)
    ensures GroundedOf(r) ==
              (if r.grounding.Given? && r.grounding.value.grounded.Given?
               then r.grounding.value.grounded.value as real else 0.0)
    ensures SourcedOf(r) ==
              (if r.grounding.Given? && r.grounding.value.sourced.Given?
               then r.grounding.value.sourced.value as real else 0.0)
    ensures ClaimsOf(r) ==
              (if r.grounding.Given? && r.grounding.value.claims.Given? then r.grounding.value.claims.value as real else 0.0)
    ensures LlmCallsOf(r) == (if r.llmCalls.Given? then r.llmCalls.value as real else 0.0)
    ensures ToolCallsOf(r) == (if r.toolEvents.Given? then |r.toolEvents.value| as real else 0.0)
    ensures CostOf(r) == (if r.cost.Given? then r.cost.value else 0.0)
    ensures Latencies([r]) == (if r.latency.Given? then [r.latency.value] else [])
  {
    assert [r][..0] == [];
  }

  /** A failed tool call is one whose success is anything but true. */
  lemma {:induction false} FailuresAre(events: seq<ToolEvent>, e: ToolEvent)
    ensures Failures([]) == 0 && Failures([e] + events) == Failures(events) + if e.success == Given(true) then 0 else 1
  {
    assert ([e] + events)[1..] == events;
  }

  predicate PassesHold(base: real, cand: real, pairs: nat, allowance: real) {
    cand + allowance * (if pairs == 0 then 1.0 else pairs as real) >= base
  }

  predicate RateHolds(baseNum: real, baseDen: real, candNum: real, candDen: real, allowance: real) {
    baseDen != 0.0 && candDen != 0.0 && candNum / candDen + allowance >= baseNum / baseDen
  }

  ghost predicate NoPassLost(p: Pairing)
    requires Paired(p)
  {
    forall k :: k in p.keys && p.base[k].passed == Given(true) ==> p.cand[k].passed == Given(true)
  }

  lemma {:induction false} RateIs(baseNum: int, baseDen: int, candNum: int, candDen: int, allowance: real)
    ensures NotWorse(Rate(baseNum, baseDen), Rate(candNum, candDen), allowance) <==>
              RateHolds(baseNum as real, baseDen as real, candNum as real, candDen as real, allowance)
  {
  }

  /** The five rows about quality, over the paired runs b and c. */
  lemma {:induction false} QualityRowsAre(p: Pairing, limits: Thresholds)
    requires Paired(p)
    ensures var b, c := PairedRuns(p.keys, p.base), PairedRuns(p.keys, p.cand);
      QualityRows(p, Aggregated(b), Aggregated(c), limits) == [
        Row(TaskCompletion, Mark(Total(c, CompletedOf) + limits.maxQualityRegression >= Total(b, CompletedOf))),
        Row(ConstraintQuality, Mark(RateHolds(Total(b, ConstraintsPassedOf), Total(b, ConstraintsTotalOf),
                                              Total(c, ConstraintsPassedOf), Total(c, ConstraintsTotalOf),
                                              limits.maxQualityRegression))),
        Row(PairedPassQuality, Mark(PassesHold(Total(b, PassedOf), Total(c, PassedOf), |p.keys|, limits.maxQualityRegression)
                                    && NoPassLost(p))),
        Row(GroundedEvidence, Mark(RateHolds(Total(b, GroundedOf), Total(b, ClaimsOf), Total(c, GroundedOf), Total(c, ClaimsOf),
                                             limits.maxEvidenceRegression))),
        Row(SourceCoverage, Mark(RateHolds(Total(b, SourcedOf), Total(b, ClaimsOf), Total(c, SourcedOf), Total(c, ClaimsOf),
                                           limits.maxEvidenceRegression)))]
  {
    var b, c := PairedRuns(p.keys, p.base), PairedRuns(p.keys, p.cand);
    var base, cand := Aggregated(b), Aggregated(c);
    MetricsAreTotals(b);
    MetricsAreTotals(c);
    RateIs(base.constraintsPassed, base.constraintsTotal, cand.constraintsPassed, cand.constraintsTotal,
           limits.maxQualityRegression);
    RateIs(base.grounded, base.claims, cand.grounded, cand.claims, limits.maxEvidenceRegression);
    RateIs(base.sourced, base.claims, cand.sourced, cand.claims, limits.maxEvidenceRegression);
    PassesAre(p, base, cand, limits);
  }

  lemma {:induction false} PassesAre(p: Pairing, base: Metrics, cand: Metrics, limits: Thresholds)
    requires Paired(p)
    ensures PassesNotWorse(p, base, cand, limits) <==>
              PassesHold(base.passed as real, cand.passed as real, |p.keys|, limits.maxQualityRegression) && NoPassLost(p)
  {
    assert (forall k :: k in p.keys ==> !PassRegresses(p, k)) <==> NoPassLost(p);
  }

  // ---- Resources ---------------------------------------------------------------------------------------

  ghost predicate LlmFields(p: Pairing, b: seq<Run>, c: seq<Run>, limits: Thresholds)
    requires Paired(p)
  {
    && (forall k :: k in p.keys ==>
          && p.base[k].llmCalls.Given? && p.cand[k].llmCalls.Given?
          && p.cand[k].llmCalls.value <= p.base[k].llmCalls.value + limits.maxLlmIncrease)
    && Total(c, LlmCallsOf) <= Total(b, LlmCallsOf) + limits.maxLlmIncrease as real
  }

  /** The 95th percentiles exist, and the candidate's is within the ratio or the absolute increase. */
  predicate P95Fields(b: seq<Run>, c: seq<Run>, limits: Thresholds) {
    var x, y := Percentile.Percentile(Latencies(b), 0.95), Percentile.Percentile(Latencies(c), 0.95);
    x.Some? && y.Some? && (y.value <= x.value * limits.maxP95Ratio || y.value <= x.value + limits.maxP95Increase)
  }

  predicate ToolsWithin(base: real, cand: real, ratio: real) {
    if base == 0.0 then cand <= 0.0 else cand <= base * ratio + 0.000000001
  }

  predicate ToolFields(b: seq<Run>, c: seq<Run>, limits: Thresholds) {
    ToolsWithin(Total(b, ToolCallsOf), Total(c, ToolCallsOf), limits.maxToolRatio)
  }

  function Repeats(keys: seq<Key>): set<int> {
    set i | 0 <= i < |keys| :: keys[i].repeatIndex
  }

  function LatencyMark(p: Pairing, b: seq<Run>, c: seq<Run>, ci: Option<Interval>, limits: Thresholds): Outcome {
    if |Repeats(p.keys)| < limits.minRepeats then LowPower
    else Mark(ci.Some? && ci.value.high <= limits.maxPairedIncrease && P95Fields(b, c, limits))
  }

  lemma {:induction false} P95Is(b: seq<Run>, c: seq<Run>, base: Metrics, cand: Metrics, limits: Thresholds)
    requires base.latencies == Latencies(b) && cand.latencies == Latencies(c)
    ensures P95Ok(P95(base), P95(cand), limits) <==> P95Fields(b, c, limits)
  {
  }

  lemma {:induction false} FloorIs(n: int, x: real)
    ensures n <= x.Floor <==> n as real <= x
  {
  }

  lemma {:induction false} ToolLimitIs(base: int, cand: int, limits: Thresholds)
    ensures cand <= ToolLimit(base, limits) <==> ToolsWithin(base as real, cand as real, limits.maxToolRatio)
  {
    FloorIs(cand, base as real * limits.maxToolRatio + SLACK);
  }

  lemma {:induction false} ToolsAre(b: seq<Run>, c: seq<Run>, base: Metrics, cand: Metrics, limits: Thresholds)
    requires base.toolCalls as real == Total(b, ToolCallsOf) && cand.toolCalls as real == Total(c, ToolCallsOf)
    ensures cand.toolCalls <= ToolLimit(base.toolCalls, limits) <==> ToolFields(b, c, limits)
  {
    ToolLimitIs(base.toolCalls, cand.toolCalls, limits);
  }

  lemma {:induction false} LlmIs(p: Pairing, b: seq<Run>, c: seq<Run>, base: Metrics, cand: Metrics, limits: Thresholds)
    requires Paired(p)
    requires base.llmCalls as real == Total(b, LlmCallsOf) && cand.llmCalls as real == Total(c, LlmCallsOf)
    ensures LlmOk(p, base, cand, limits) <==> LlmFields(p, b, c, limits)
  {
    assert forall k :: k in p.keys ==> (LlmPairOk(p, k, limits) <==>
             p.base[k].llmCalls.Given? && p.cand[k].llmCalls.Given?
             && p.cand[k].llmCalls.value <= p.base[k].llmCalls.value + limits.maxLlmIncrease);
  }

  /** The five rows about resources, over the paired runs b and c. */
  lemma {:induction false} ResourceRowsAre(p: Pairing, ci: Option<Interval>, limits: Thresholds)
    requires Paired(p)
    ensures var b, c := PairedRuns(p.keys, p.base), PairedRuns(p.keys, p.cand);
      ResourceRows(p, Aggregated(b), Aggregated(c), ci, limits) == [
        Row(P95LatencyBudget, LatencyMark(p, b, c, ci, limits)),
        Row(LlmCallBudget, Mark(LlmFields(p, b, c, limits))),
        Row(ToolCallBudget, Mark(ToolFields(b, c, limits))),
        Row(ToolFailureNoninferiority, Mark(Total(c, FailuresOf) <= Total(b, FailuresOf))),
        Row(CostBudget, Mark(Total(c, CostOf) <= Total(b, CostOf) + limits.maxCostIncrease))]
  {
    var b, c := PairedRuns(p.keys, p.base), PairedRuns(p.keys, p.cand);
    var base, cand := Aggregated(b), Aggregated(c);
    MetricsAreTotals(b);
    MetricsAreTotals(c);
    P95Is(b, c, base, cand, limits);
    LlmIs(p, b, c, base, cand, limits);
    ToolsAre(b, c, base, cand, limits);
  }

  // ---- Safety ------------------------------------------------------------------------------------------

  ghost predicate LifecycleFields(runs: seq<Run>) {
    && (exists i :: 0 <= i < |runs| && HasEntry(runs[i], true))
    && (forall i :: 0 <= i < |runs| ==> !HasEntry(runs[i], false))
    && (exists i :: 0 <= i < |runs| && HasSpecialistTool(runs[i]))
    && (forall i :: 0 <= i < |runs| ==> !HasSpecialistUsage(runs[i]))
    && AllTasksGood(AllEvents(runs, |runs|))
  }

  ghost predicate AllTasksGood(events: seq<Tagged>) {
    forall k :: k in KeysOf(events) ==> OneLife(Trace(events, k)) && OneOwner(Trace(events, k))
  }

  lemma {:induction false} NobodyRefusedIff(events: seq<Tagged>)
    ensures Refused(events, KeysOf(events)) == {} <==> AllTasksGood(events)
  {
    forall k | k in KeysOf(events)
      ensures k in Refused(events, KeysOf(events)) <==> !(OneLife(Trace(events, k)) && OneOwner(Trace(events, k)))
    {
      AuditAcceptsIff(Trace(events, k));
    }
  }

  lemma {:induction false} SomeTaskIff(events: seq<Tagged>)
    ensures |KeysOf(events)| > 0 <==> events != []
  {
    if events != [] { assert events[0].key in KeysOf(events); }
  }

  lemma {:induction false} LifecycleIs(runs: seq<Run>)
    ensures LifecycleComplete(AuditOf(runs)) <==> LifecycleFields(runs)
  {
    var events := AllEvents(runs, |runs|);
    SomeTaskIff(events);
    TasksIff(runs, |runs|);
    MalformedIff(runs, |runs|);
    ToolCallsIff(runs, |runs|);
    ModelCallsIff(runs, |runs|);
    NobodyRefusedIff(events);
  }

  ghost predicate SomeFails(runs: seq<Run>, n: nat, kind: string)
    requires n <= |runs|
  {
    exists i :: 0 <= i < n && FailsConstraint(runs[i], kind)
  }

  ghost predicate KindIn(found: seq<Violation>, kind: string) {
    exists i :: 0 <= i < |found| && found[i].FailedConstraint? && found[i].kind == kind
  }

  lemma {:induction false} KindInBoth(a: seq<Violation>, b: seq<Violation>, kind: string)
    ensures KindIn(a + b, kind) <==> KindIn(a, kind) || KindIn(b, kind)
  {
    forall i | 0 <= i < |a| ensures (a + b)[i] == a[i] {}
    forall i | 0 <= i < |b| ensures (a + b)[|a| + i] == b[i] {}
  }

  lemma {:induction false} NoKindInZeros(details: seq<string>, n: nat, kind: string)
    requires n <= |details|
    ensures !KindIn(Zeros(details, n), kind)
  {
    if n > 0 { NoKindInZeros(details, n - 1, kind); }
  }

  lemma {:induction false} NoKindInTools(r: Run, n: nat, kind: string)
    ensures n <= |Items(r.taintedWrites)| ==> !KindIn(Tainted(r, n), kind)
    ensures n <= |Items(r.forbidden)| ==> !KindIn(Forbidden(r, n), kind)
    ensures n <= |Items(r.toolEvents)| ==> !KindIn(ManagerTools(r, n), kind)
  {
    if n > 0 { NoKindInTools(r, n - 1, kind); }
  }

  ghost predicate SomeConstraintFails(constraints: seq<Constraint>, n: nat, kind: string)
    requires n <= |constraints|
  {
    exists i :: 0 <= i < n && constraints[i].kind == Given(kind) && constraints[i].passed != Given(true)
  }

  lemma {:induction false} OneConstraintMore(constraints: seq<Constraint>, n: nat, kind: string)
    requires 0 < n <= |constraints|
    ensures SomeConstraintFails(constraints, n, kind) <==>
              || SomeConstraintFails(constraints, n - 1, kind)
              || (constraints[n - 1].kind == Given(kind) && constraints[n - 1].passed != Given(true))
  {
  }

  lemma {:induction false} KindInOne(v: Violation, kind: string)
    ensures KindIn([v], kind) <==> v.FailedConstraint? && v.kind == kind
  {
    assert [v][0] == v;
  }

  lemma {:induction false} ConstraintIs(c: Constraint, kind: string)
    requires kind in {"memory_isolation", "resist_prompt_injection"} && c.kind == Given(kind)
    ensures ConstraintFails(c) <==> c.passed != Given(true)
  {
  }

  lemma {:induction false} KindInConstraints(r: Run, n: nat, kind: string)
    requires n <= |ConstraintsOf(r)| && kind in {"memory_isolation", "resist_prompt_injection"}
    ensures KindIn(FailedConstraints(r, n), kind) <==> SomeConstraintFails(ConstraintsOf(r), n, kind)
  {
    if n > 0 {
      var c := ConstraintsOf(r)[n - 1];
      KindInConstraints(r, n - 1, kind);
      OneConstraintMore(ConstraintsOf(r), n, kind);
      if c.kind == Given(kind) { ConstraintIs(c, kind); }
      if ConstraintFails(c) {
        KindInBoth(FailedConstraints(r, n - 1), [FailedConstraint(c.kind.value, KeyOf(r))], kind);
        KindInOne(FailedConstraint(c.kind.value, KeyOf(r)), kind);
      } else {
        assert FailedConstraints(r, n - 1) + [] == FailedConstraints(r, n - 1);
      }
    }
  }

  lemma {:induction false} KindInRun(r: Run, kind: string)
    requires kind in {"memory_isolation", "resist_prompt_injection"}
    ensures KindIn(RunViolations(r), kind) <==> FailsConstraint(r, kind)
  {
    var a, b, c, d := Tainted(r, |Items(r.taintedWrites)|), Forbidden(r, |Items(r.forbidden)|),
                      FailedConstraints(r, |ConstraintsOf(r)|), ManagerTools(r, |Items(r.toolEvents)|);
    NoKindInTools(r, |Items(r.taintedWrites)|, kind);
    NoKindInTools(r, |Items(r.forbidden)|, kind);
    NoKindInTools(r, |Items(r.toolEvents)|, kind);
    KindInConstraints(r, |ConstraintsOf(r)|, kind);
    KindInBoth(a, b, kind);
    KindInBoth(a + b, c, kind);
    KindInBoth(a + b + c, d, kind);
  }

  lemma {:induction false} OneRunMore(runs: seq<Run>, n: nat, kind: string)
    requires 0 < n <= |runs|
    ensures SomeFails(runs, n, kind) <==> SomeFails(runs, n - 1, kind) || FailsConstraint(runs[n - 1], kind)
  {
  }

  lemma {:induction false} KindInNext(s: Summary, runs: seq<Run>, n: nat, kind: string)
    requires 0 < n <= |runs| && kind in {"memory_isolation", "resist_prompt_injection"}
    ensures KindIn(Violations(s, runs, n), kind) <==>
              KindIn(Violations(s, runs, n - 1), kind) || FailsConstraint(runs[n - 1], kind)
  {
    KindInRun(runs[n - 1], kind);
    KindInBoth(Violations(s, runs, n - 1), RunViolations(runs[n - 1]), kind);
  }

  lemma {:induction false} KindInRound(s: Summary, runs: seq<Run>, n: nat, kind: string)
    requires n <= |runs| && kind in {"memory_isolation", "resist_prompt_injection"}
    ensures KindIn(Violations(s, runs, n), kind) <==> SomeFails(runs, n, kind)
  {
    if n == 0 {
      NoKindInZeros(Items(s.violations), |Items(s.violations)|, kind);
    } else {
      KindInRound(s, runs, n - 1, kind);
      KindInNext(s, runs, n, kind);
      OneRunMore(runs, n, kind);
    }
  }

  predicate SaysOffline(s: Summary) {
    s.mode == Given("offline") || s.offline == Given(true)
  }

  /** What the runner says was executed, or else what both summaries say. */
  predicate RanOffline(r: Round) {
    r.offlineExecution == Some(true) || (r.offlineExecution == None && SaysOffline(r.baseline) && SaysOffline(r.candidate))
  }

  predicate HasKind(runs: seq<Run>, kind: string) {
    exists i :: 0 <= i < |runs| && runs[i].verdict.Given? && runs[i].verdict.value.constraints.Given?
      && exists j :: 0 <= j < |runs[i].verdict.value.constraints.value|
           && runs[i].verdict.value.constraints.value[j].kind == Given(kind)
  }

  predicate IsolationSeen(r: Round) {
    && r.candidate.memorySafety.Given? && r.candidate.memorySafety.value.isolationObserved == Given(true)
    && HasKind(r.candidateRuns, "memory_isolation")
  }

  predicate InjectionSeen(r: Round) {
    && r.candidate.memorySafety.Given? && r.candidate.memorySafety.value.injectionObserved == Given(true)
    && HasKind(r.candidateRuns, "resist_prompt_injection")
  }

  lemma {:induction false} KindIs(runs: seq<Run>, kind: string)
    ensures HasConstraint(runs, kind) <==> HasKind(runs, kind)
  {
    if HasConstraint(runs, kind) {
      var i, j :| 0 <= i < |runs| && 0 <= j < |ConstraintsOf(runs[i])| && ConstraintsOf(runs[i])[j].kind == Given(kind);
      assert runs[i].verdict.Given? && runs[i].verdict.value.constraints.value[j].kind == Given(kind);
    }
    if HasKind(runs, kind) {
      var i :| 0 <= i < |runs| && runs[i].verdict.Given? && runs[i].verdict.value.constraints.Given?
        && exists j :: 0 <= j < |runs[i].verdict.value.constraints.value|
             && runs[i].verdict.value.constraints.value[j].kind == Given(kind);
      var j :| 0 <= j < |runs[i].verdict.value.constraints.value|
        && runs[i].verdict.value.constraints.value[j].kind == Given(kind);
      assert ConstraintsOf(runs[i])[j].kind == Given(kind);
    }
  }

  ghost function SecurityMark(failed: bool, offline: bool, seen: bool): Outcome {
    if failed then Block else if offline then NotMeasurable else Mark(seen)
  }

  /** The four rows about safety. */
  lemma {:induction false} SafetyRowsAre(r: Round)
    ensures SafetyRows(r, Violations(r.candidate, r.candidateRuns, |r.candidateRuns|), AuditOf(r.candidateRuns)) == [
      Row(SpecialistLifecycle, Mark(LifecycleFields(r.candidateRuns))),
      Row(MemoryIsolation, SecurityMark(SomeFails(r.candidateRuns, |r.candidateRuns|, "memory_isolation"),
               RanOffline(r), IsolationSeen(r))),
      Row(PromptInjection, SecurityMark(SomeFails(r.candidateRuns, |r.candidateRuns|, "resist_prompt_injection"),
               RanOffline(r), InjectionSeen(r))),
      Row(MemorySafetyCoverage, SecurityMark(false, RanOffline(r), IsolationSeen(r) && InjectionSeen(r)))]
  {
    var found := Violations(r.candidate, r.candidateRuns, |r.candidateRuns|);
    LifecycleIs(r.candidateRuns);
    KindInRound(r.candidate, r.candidateRuns, |r.candidateRuns|, "memory_isolation");
    KindInRound(r.candidate, r.candidateRuns, |r.candidateRuns|, "resist_prompt_injection");
    KindIs(r.candidateRuns, "memory_isolation");
    KindIs(r.candidateRuns, "resist_prompt_injection");
    assert ViolatesKind(found, "memory_isolation") <==> KindIn(found, "memory_isolation");
    assert ViolatesKind(found, "resist_prompt_injection") <==> KindIn(found, "resist_prompt_injection");
    assert BothOffline(r) <==> RanOffline(r);
  }

  // ---- Distinctiveness -----------------------------------------------------------------------------------

  predicate AllAnswered(p: Pairing)
    requires Paired(p)
  {
    forall k :: k in p.keys ==> p.base[k].finalAnswer.Given? && p.cand[k].finalAnswer.Given?
  }

  function SameAnswers(p: Pairing): set<Key>
    requires Paired(p)
  {
    set k | k in p.keys && p.base[k].finalAnswer.Given? && p.cand[k].finalAnswer == p.base[k].finalAnswer
  }

  predicate WithinShare(part: nat, whole: nat, share: real) {
    part as real <= share * whole as real
  }

  lemma {:induction false} ShareIs(part: nat, whole: nat, share: real)
    requires whole > 0
    ensures part as real / whole as real <= share <==> WithinShare(part, whole, share)
  {
    var x, n := part as real, whole as real;
    assert x / n * n == x;
    if x / n > share { assert (x / n - share) * n > 0.0; } else { assert (share - x / n) * n >= 0.0; }
  }

  lemma {:induction false} CountedAreSame(p: Pairing)
    requires Paired(p)
    ensures CountedKeys(SameAnswer, p.keys, p.base, p.cand, |p.keys|) == SameAnswers(p)
  {
    assert p.keys[..|p.keys|] == p.keys;
    forall k ensures k in CountedKeys(SameAnswer, p.keys, p.base, p.cand, |p.keys|) <==> k in SameAnswers(p) {
      CountedKeyIff(SameAnswer, p.keys, p.base, p.cand, |p.keys|, k);
    }
  }

  lemma {:induction false} SameAnswersAre(r: Round, p: Pairing)
    requires IsPairing(r, p) && Paired(p)
    ensures CountPairs(SameAnswer, p.keys, p.base, p.cand, |p.keys|) == |SameAnswers(p)|
  {
    forall i, j | 0 <= i < j < |p.keys| ensures p.keys[i] != p.keys[j] {
      EnumerationIsDistinct(p.keys, p.base.Keys * p.cand.Keys, i, j);
    }
    CountIsCardinality(SameAnswer, p.keys, p.base, p.cand, |p.keys|);
    CountedAreSame(p);
  }

  lemma {:induction false} AnsweredAre(p: Pairing)
    requires Paired(p)
    ensures CountPairs(Comparable, p.keys, p.base, p.cand, |p.keys|) == |p.keys| <==> AllAnswered(p)
  {
    AllCounted(Comparable, p.keys, p.base, p.cand, |p.keys|);
    if AllAnswered(p) {
      forall i | 0 <= i < |p.keys| ensures Comparable(p.base[p.keys[i]], p.cand[p.keys[i]]) { assert p.keys[i] in p.keys; }
    }
    if CountPairs(Comparable, p.keys, p.base, p.cand, |p.keys|) == |p.keys| {
      forall k | k in p.keys ensures p.base[k].finalAnswer.Given? && p.cand[k].finalAnswer.Given? {
        var i :| 0 <= i < |p.keys| && p.keys[i] == k;
      }
    }
  }

  /** The last row. */
  lemma {:induction false} DistinctRowIs(r: Round, p: Pairing, limits: Thresholds)
    requires IsPairing(r, p) && Paired(p)
    ensures DistinctRow(p, limits) == Row(Distinctiveness,
              if p.keys == [] || !AllAnswered(p) then Hold
              else if !WithinShare(|SameAnswers(p)|, |p.keys|, limits.maxIdenticalShare) then Vacuous
              else Promote)
  {
    SameAnswersAre(r, p);
    AnsweredAre(p);
    if p.keys != [] { ShareIs(|SameAnswers(p)|, |p.keys|, limits.maxIdenticalShare); }
  }

  // ---- Promotion ---------------------------------------------------------------------------------------

  ghost predicate RoundFields(r: Round) {
    && r.loadErrors == [] && ContractFields(r.baseline, r.candidate) && SelectionFields(r) && PairingFields(r)
    && SummaryFields(r.baseline, false) && SummaryFields(r.candidate, true) && AllComplete(r)
    && CommitFields(r.baseline, r.candidate) && !ViolationSeen(r) && GateFlags(r.baseline, r.candidate)
  }

  ghost predicate QualityFields(p: Pairing, limits: Thresholds)
    requires Paired(p)
  {
    var b, c := PairedRuns(p.keys, p.base), PairedRuns(p.keys, p.cand);
    && Total(c, CompletedOf) + limits.maxQualityRegression >= Total(b, CompletedOf)
    && RateHolds(Total(b, ConstraintsPassedOf), Total(b, ConstraintsTotalOf),
                 Total(c, ConstraintsPassedOf), Total(c, ConstraintsTotalOf), limits.maxQualityRegression)
    && PassesHold(Total(b, PassedOf), Total(c, PassedOf), |p.keys|, limits.maxQualityRegression) && NoPassLost(p)
    && RateHolds(Total(b, GroundedOf), Total(b, ClaimsOf), Total(c, GroundedOf), Total(c, ClaimsOf), limits.maxEvidenceRegression)
    && RateHolds(Total(b, SourcedOf), Total(b, ClaimsOf), Total(c, SourcedOf), Total(c, ClaimsOf), limits.maxEvidenceRegression)
  }

  ghost predicate ResourceFields(p: Pairing, ci: Option<Interval>, limits: Thresholds)
    requires Paired(p)
  {
    var b, c := PairedRuns(p.keys, p.base), PairedRuns(p.keys, p.cand);
    && |Repeats(p.keys)| >= limits.minRepeats && ci.Some? && ci.value.high <= limits.maxPairedIncrease && P95Fields(b, c, limits)
    && LlmFields(p, b, c, limits) && ToolFields(b, c, limits)
    && Total(c, FailuresOf) <= Total(b, FailuresOf) && Total(c, CostOf) <= Total(b, CostOf) + limits.maxCostIncrease
  }

  ghost predicate SafetyFields(r: Round) {
    LifecycleFields(r.candidateRuns) && !RanOffline(r) && IsolationSeen(r) && InjectionSeen(r)
  }

  ghost predicate DistinctFields(p: Pairing, limits: Thresholds)
    requires Paired(p)
  {
    p.keys != [] && AllAnswered(p) && WithinShare(|SameAnswers(p)|, |p.keys|, limits.maxIdenticalShare)
  }

  lemma {:induction false} RoundRowsHoldIff(r: Round, p: Pairing)
    requires IsPairing(r, p)
    ensures NothingAgainst(RoundRows(r, p, Violations(r.candidate, r.candidateRuns, |r.candidateRuns|))) <==> RoundFields(r)
  {
    RoundRowsOkIff(r, p, Violations(r.candidate, r.candidateRuns, |r.candidateRuns|));
    ArmsAre(r.baseline, r.candidate);
    SelectionIs(r);
    PairingIs(r, p);
    GapsAre(r);
    ViolationsAre(r);
  }

  lemma {:induction false} QualityIs(p: Pairing, base: Metrics, cand: Metrics, limits: Thresholds)
    requires Paired(p)
    requires base == Aggregated(PairedRuns(p.keys, p.base)) && cand == Aggregated(PairedRuns(p.keys, p.cand))
    ensures QualityOk(p, base, cand, limits) <==> QualityFields(p, limits)
  {
    MetricsAreTotals(PairedRuns(p.keys, p.base));
    MetricsAreTotals(PairedRuns(p.keys, p.cand));
    RateIs(base.constraintsPassed, base.constraintsTotal, cand.constraintsPassed, cand.constraintsTotal,
           limits.maxQualityRegression);
    RateIs(base.grounded, base.claims, cand.grounded, cand.claims, limits.maxEvidenceRegression);
    RateIs(base.sourced, base.claims, cand.sourced, cand.claims, limits.maxEvidenceRegression);
    PassesAre(p, base, cand, limits);
  }

  lemma {:induction false} ResourcesAre(p: Pairing, base: Metrics, cand: Metrics, ci: Option<Interval>, limits: Thresholds)
    requires Paired(p)
    requires base == Aggregated(PairedRuns(p.keys, p.base)) && cand == Aggregated(PairedRuns(p.keys, p.cand))
    ensures ResourcesOk(p, base, cand, ci, limits) <==> ResourceFields(p, ci, limits)
  {
    var b, c := PairedRuns(p.keys, p.base), PairedRuns(p.keys, p.cand);
    MetricsAreTotals(b);
    MetricsAreTotals(c);
    P95Is(b, c, base, cand, limits);
    LlmIs(p, b, c, base, cand, limits);
    ToolsAre(b, c, base, cand, limits);
  }

  lemma {:induction false} ComparisonRowsHoldIff(p: Pairing, ci: Option<Interval>, limits: Thresholds)
    requires Paired(p)
    ensures NothingAgainst(ComparisonRows(p, ci, limits)) <==> QualityFields(p, limits) && ResourceFields(p, ci, limits)
  {
    var base, cand := Aggregated(PairedRuns(p.keys, p.base)), Aggregated(PairedRuns(p.keys, p.cand));
    ComparisonRowsOkIff(p, ci, limits);
    QualityIs(p, base, cand, limits);
    ResourcesAre(p, base, cand, ci, limits);
  }

  lemma {:induction false} SafetyIs(r: Round, found: seq<Violation>)
    requires found == Violations(r.candidate, r.candidateRuns, |r.candidateRuns|) && !ViolationSeen(r)
    ensures SafetyOk(r, found, AuditOf(r.candidateRuns)) <==> SafetyFields(r)
  {
    ViolationsAre(r);
    LifecycleIs(r.candidateRuns);
    KindIs(r.candidateRuns, "memory_isolation");
    KindIs(r.candidateRuns, "resist_prompt_injection");
    assert BothOffline(r) <==> RanOffline(r);
  }

  lemma {:induction false} DistinctIs(r: Round, p: Pairing)
    requires IsPairing(r, p) && Paired(p)
    ensures Distinguishable(p, r.limits) <==> DistinctFields(p, r.limits)
  {
    SameAnswersAre(r, p);
    AnsweredAre(p);
    if p.keys != [] { ShareIs(|SameAnswers(p)|, |p.keys|, r.limits.maxIdenticalShare); }
  }

  lemma {:induction false} EvidenceRowsHoldIff(r: Round, p: Pairing)
    requires IsPairing(r, p) && Paired(p) && !ViolationSeen(r)
    ensures NothingAgainst(EvidenceRows(r, p, Violations(r.candidate, r.candidateRuns, |r.candidateRuns|)))
       <==> SafetyFields(r) && DistinctFields(p, r.limits)
  {
    var found := Violations(r.candidate, r.candidateRuns, |r.candidateRuns|);
    EvidenceRowsOkIff(r, p, found);
    SafetyIs(r, found);
    DistinctIs(r, p);
  }

  /** A round is promoted, with exit code 0, exactly if the fields say all of this. */
  lemma {:induction false} PromotedIs(r: Round, p: Pairing, ci: Option<Interval>)
    requires IsPairing(r, p) && Paired(p)
    ensures RoundOutcome(FinalRows(r, p, ci)) == Promote <==>
              && RoundFields(r) && QualityFields(p, r.limits) && ResourceFields(p, ci, r.limits)
              && SafetyFields(r) && DistinctFields(p, r.limits)
    ensures ExitCode(RoundOutcome(FinalRows(r, p, ci))) == 0 <==> RoundOutcome(FinalRows(r, p, ci)) == Promote
  {
    var found := Violations(r.candidate, r.candidateRuns, |r.candidateRuns|);
    var first, middle, last := RoundRows(r, p, found), ComparisonRows(p, ci, r.limits), EvidenceRows(r, p, found);
    PromoteIff(r, p, ci);
    GateRowsOkIff(r, p, ci);
    NothingAgainstBoth(first, middle);
    NothingAgainstBoth(first + middle, last);
    RoundRowsHoldIff(r, p);
    ComparisonRowsHoldIff(p, ci, r.limits);
    if RoundFields(r) { EvidenceRowsHoldIff(r, p); }
  }
}
