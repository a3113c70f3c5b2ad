/** What the outcome of a round guarantees, whatever the two arms contain. */
module GateTheorems {
  import opened Prelude
  import opened GateInputs
  import opened GateChecks
  import opened GateMetrics
  import opened Lifecycle
  import opened Bootstrap
  import opened PairedGate
  import Percentile

  // ---- The rows are 23 different checks ------------------------------------------------------------------

  function Number(name: CheckName): nat {
    match name
    case ResultFiles => 0 case ArmContract => 1 case ArmConsistency => 2 case PairedSample => 3
    case MeasurementCompleteness => 4 case IdentityBinding => 5 case ZeroToleranceSecurity => 6 case ExistingGates => 7
    case TaskCompletion => 8 case ConstraintQuality => 9 case PairedPassQuality => 10 case GroundedEvidence => 11
    case SourceCoverage => 12 case P95LatencyBudget => 13 case LlmCallBudget => 14 case ToolCallBudget => 15
    case ToolFailureNoninferiority => 16 case CostBudget => 17 case SpecialistLifecycle => 18 case MemoryIsolation => 19
    case PromptInjection => 20 case MemorySafetyCoverage => 21 case Distinctiveness => 22
  }

  ghost predicate NumberedFrom(rows: seq<Row>, first: nat) {
    forall i :: 0 <= i < |rows| ==> Number(rows[i].name) == first + i
  }

  lemma {:induction false} NumberedTogether(a: seq<Row>, b: seq<Row>, first: nat)
    requires NumberedFrom(a, first) && NumberedFrom(b, first + |a|)
    ensures NumberedFrom(a + b, first)
  {
  }

  lemma {:induction false} NumberedAreDistinct(rows: seq<Row>)
    requires NumberedFrom(rows, 0)
    ensures DistinctNames(rows)
  {
  }

  lemma {:induction false} RoundRowsAreNumbered(r: Round, p: Pairing, found: seq<Violation>)
    ensures |RoundRows(r, p, found)| == 8 && NumberedFrom(RoundRows(r, p, found), 0)
  {
    NumberedTogether(IdentityRows(r, p), GuardRows(r, found), 0);
  }

  lemma {:induction false} QualityRowsAreNumbered(p: Pairing, base: Metrics, cand: Metrics, limits: Thresholds)
    requires Paired(p)
    ensures |QualityRows(p, base, cand, limits)| == 5 && NumberedFrom(QualityRows(p, base, cand, limits), 8)
  {
  }

  lemma {:induction false} ResourceRowsAreNumbered(p: Pairing, base: Metrics, cand: Metrics, ci: Option<Interval>,
        limits: Thresholds)
    requires Paired(p)
    ensures |ResourceRows(p, base, cand, ci, limits)| == 5 && NumberedFrom(ResourceRows(p, base, cand, ci, limits), 13)
  {
  }

  lemma {:induction false} ComparisonRowsAreNumbered(p: Pairing, ci: Option<Interval>, limits: Thresholds)
    requires Paired(p)
    ensures |ComparisonRows(p, ci, limits)| == 10 && NumberedFrom(ComparisonRows(p, ci, limits), 8)
  {
    var base, cand := Aggregated(PairedRuns(p.keys, p.base)), Aggregated(PairedRuns(p.keys, p.cand));
    QualityRowsAreNumbered(p, base, cand, limits);
    ResourceRowsAreNumbered(p, base, cand, ci, limits);
    NumberedTogether(QualityRows(p, base, cand, limits), ResourceRows(p, base, cand, ci, limits), 8);
  }

  lemma {:induction false} SafetyRowsAreNumbered(r: Round, found: seq<Violation>, a: Audit)
    ensures |SafetyRows(r, found, a)| == 4 && NumberedFrom(SafetyRows(r, found, a), 18)
  {
  }

  lemma {:induction false} EvidenceRowsAreNumbered(r: Round, p: Pairing, found: seq<Violation>)
    requires Paired(p)
    ensures |EvidenceRows(r, p, found)| == 5 && NumberedFrom(EvidenceRows(r, p, found), 18)
  {
    SafetyRowsAreNumbered(r, found, AuditOf(r.candidateRuns));
    NumberedTogether(SafetyRows(r, found, AuditOf(r.candidateRuns)), [DistinctRow(p, r.limits)], 18);
  }

  lemma {:induction false} GateRowsAreDistinct(r: Round, p: Pairing, ci: Option<Interval>)
    requires Paired(p)
    ensures |GateRows(r, p, ci)| == 23 && DistinctNames(GateRows(r, p, ci))
  {
    var found := Violations(r.candidate, r.candidateRuns, |r.candidateRuns|);
    var a, b, c := RoundRows(r, p, found), ComparisonRows(p, ci, r.limits), EvidenceRows(r, p, found);
    RoundRowsAreNumbered(r, p, found);
    ComparisonRowsAreNumbered(p, ci, r.limits);
    EvidenceRowsAreNumbered(r, p, found);
    NumberedTogether(a, b, 0);
    NumberedTogether(a + b, c, 0);
    NumberedAreDistinct(a + b + c);
  }

  // ---- BLOCK -----------------------------------------------------------------------------------------

  predicate NoBlock(rows: seq<Row>) {
    forall i :: 0 <= i < |rows| ==> !rows[i].outcome.Block?
  }

  lemma {:induction false} NoBlockTogether(a: seq<Row>, b: seq<Row>)
    ensures NoBlock(a + b) <==> NoBlock(a) && NoBlock(b)
  {
    forall i | 0 <= i < |a| ensures (a + b)[i] == a[i] {}
    forall i | 0 <= i < |b| ensures (a + b)[|a| + i] == b[i] {}
  }

  lemma {:induction false} RoundRowsBlockIff(r: Round, p: Pairing, found: seq<Violation>)
    ensures NoBlock(RoundRows(r, p, found)) <==> found == []
  {
    NoBlockTogether(IdentityRows(r, p), GuardRows(r, found));
    assert GuardRows(r, found)[0].outcome.Block? <==> found != [];
  }

  lemma {:induction false} QualityRowsNeverBlock(p: Pairing, base: Metrics, cand: Metrics, limits: Thresholds)
    requires Paired(p)
    ensures NoBlock(QualityRows(p, base, cand, limits))
  {
  }

  lemma {:induction false} ResourceRowsNeverBlock(p: Pairing, base: Metrics, cand: Metrics, ci: Option<Interval>,
        limits: Thresholds)
    requires Paired(p)
    ensures NoBlock(ResourceRows(p, base, cand, ci, limits))
  {
  }

  lemma {:induction false} ComparisonRowsNeverBlock(p: Pairing, ci: Option<Interval>, limits: Thresholds)
    requires Paired(p)
    ensures NoBlock(ComparisonRows(p, ci, limits))
  {
    var base, cand := Aggregated(PairedRuns(p.keys, p.base)), Aggregated(PairedRuns(p.keys, p.cand));
    QualityRowsNeverBlock(p, base, cand, limits);
    ResourceRowsNeverBlock(p, base, cand, ci, limits);
    NoBlockTogether(QualityRows(p, base, cand, limits), ResourceRows(p, base, cand, ci, limits));
  }

  lemma {:induction false} EvidenceRowsBlock(r: Round, p: Pairing, found: seq<Violation>)
    requires Paired(p)
    ensures found == [] ==> NoBlock(EvidenceRows(r, p, found))
  {
    NoBlockTogether(SafetyRows(r, found, AuditOf(r.candidateRuns)), [DistinctRow(p, r.limits)]);
  }

  lemma {:induction false} GateRowsBlockIff(r: Round, p: Pairing, ci: Option<Interval>)
    requires Paired(p)
    ensures AnyBlock(GateRows(r, p, ci)) <==> Violations(r.candidate, r.candidateRuns, |r.candidateRuns|) != []
  {
    var found := Violations(r.candidate, r.candidateRuns, |r.candidateRuns|);
    var a, b, c := RoundRows(r, p, found), ComparisonRows(p, ci, r.limits), EvidenceRows(r, p, found);
    RoundRowsBlockIff(r, p, found);
    ComparisonRowsNeverBlock(p, ci, r.limits);
    EvidenceRowsBlock(r, p, found);
    NoBlockTogether(a, b);
    NoBlockTogether(a + b, c);
    assert AnyBlock(a + b + c) <==> !NoBlock(a + b + c);
  }

  /** BLOCK exactly when a security violation was observed in the candidate. */
  lemma {:induction false} BlockIffViolation(r: Round, p: Pairing, ci: Option<Interval>)
    requires Paired(p)
    ensures RoundOutcome(FinalRows(r, p, ci)) == Block <==>
              Items(r.candidate.violations) != [] || exists i :: 0 <= i < |r.candidateRuns| && !CleanRun(r.candidateRuns[i])
  {
    GateRowsAreDistinct(r, p, ci);
    GateRowsBlockIff(r, p, ci);
    OutcomeIff(GateRows(r, p, ci));
    VoidingChangesOutcomeIff(GateRows(r, p, ci));
    NoViolationIff(r.candidate, r.candidateRuns);
  }

  /** The voiding pass of a round, seen from outside: what it keeps. */
  lemma {:induction false} FinalKeepsReasons(r: Round, p: Pairing, ci: Option<Interval>, name: CheckName)
    requires Paired(p)
    ensures var before, after := GateRows(r, p, ci), FinalRows(r, p, ci);
      && (AnyBlock(after) <==> AnyBlock(before))
      && (name in HoldReasons(before) ==> name in HoldReasons(after))
      && (name in HoldReasons(after) <==> name in MeasuredRegressions(after) || name in UnmeasuredHoldReasons(after))
      && !(name in MeasuredRegressions(after) && name in UnmeasuredHoldReasons(after))
  {
    var before := GateRows(r, p, ci);
    GateRowsAreDistinct(r, p, ci);
    VoidingKeepsReasons(before, name);
    VoidedRows(before);
    HoldReasonsAreDisjoint(before, name);
    HoldReasonsAreDisjoint(Voided(before), name);
  }

  // ---- PROMOTE ---------------------------------------------------------------------------------------

  predicate NothingAgainst(rows: seq<Row>) {
    forall i :: 0 <= i < |rows| ==> !rows[i].outcome.Block? && !Holds(rows[i]) && !rows[i].outcome.NotMeasurable?
  }

  lemma {:induction false} NothingAgainstBoth(a: seq<Row>, b: seq<Row>)
    ensures NothingAgainst(a + b) <==> NothingAgainst(a) && NothingAgainst(b)
  {
    forall i | 0 <= i < |a| ensures (a + b)[i] == a[i] {}
    forall i | 0 <= i < |b| ensures (a + b)[|a| + i] == b[i] {}
  }

  predicate IdentityOk(r: Round, p: Pairing) {
    && r.loadErrors == [] && ContractOk(r.baseline, r.candidate) && SameExperiment(r)
    && ExactPairing(p, r.limits) && Gaps(r) == 0 && SameCleanCommit(r.baseline, r.candidate)
  }

  lemma {:induction false} IdentityRowsOkIff(r: Round, p: Pairing)
    ensures NothingAgainst(IdentityRows(r, p)) <==> IdentityOk(r, p)
  {
    var rows := IdentityRows(r, p);
    if NothingAgainst(rows) {
      assert !Holds(rows[0]) && !Holds(rows[1]) && !Holds(rows[2]) && !Holds(rows[3]) && !Holds(rows[4]) && !Holds(rows[5]);
    }
  }

  lemma {:induction false} GuardRowsOkIff(r: Round, found: seq<Violation>)
    ensures NothingAgainst(GuardRows(r, found)) <==> found == [] && GatesGreen(r.baseline, r.candidate)
  {
    var rows := GuardRows(r, found);
    if NothingAgainst(rows) {
      assert !rows[0].outcome.Block? && !Holds(rows[1]);
    }
  }

  predicate QualityOk(p: Pairing, base: Metrics, cand: Metrics, limits: Thresholds)
    requires Paired(p)
  {
    && NotWorse(Some(base.taskCompleted as real), Some(cand.taskCompleted as real), limits.maxQualityRegression)
    && NotWorse(Rate(base.constraintsPassed, base.constraintsTotal), Rate(cand.constraintsPassed, cand.constraintsTotal),
                limits.maxQualityRegression)
    && PassesNotWorse(p, base, cand, limits)
    && NotWorse(Rate(base.grounded, base.claims), Rate(cand.grounded, cand.claims), limits.maxEvidenceRegression)
    && NotWorse(Rate(base.sourced, base.claims), Rate(cand.sourced, cand.claims), limits.maxEvidenceRegression)
  }

  lemma {:induction false} QualityRowsOkIff(p: Pairing, base: Metrics, cand: Metrics, limits: Thresholds)
    requires Paired(p)
    ensures NothingAgainst(QualityRows(p, base, cand, limits)) <==> QualityOk(p, base, cand, limits)
  {
    var rows := QualityRows(p, base, cand, limits);
    if NothingAgainst(rows) {
      assert !Holds(rows[0]) && !Holds(rows[1]) && !Holds(rows[2]) && !Holds(rows[3]) && !Holds(rows[4]);
    }
  }

  /** Enough repeats, an interval, and both latency limits met. */
  predicate LatencyOk(p: Pairing, base: Metrics, cand: Metrics, ci: Option<Interval>, limits: Thresholds) {
    && RepeatCount(p.keys) >= limits.minRepeats && ci.Some?
    && ci.value.high <= limits.maxPairedIncrease && P95Ok(P95(base), P95(cand), limits)
  }

  predicate ResourcesOk(p: Pairing, base: Metrics, cand: Metrics, ci: Option<Interval>, limits: Thresholds)
    requires Paired(p)
  {
    && LatencyOk(p, base, cand, ci, limits)
    && LlmOk(p, base, cand, limits)
    && cand.toolCalls <= ToolLimit(base.toolCalls, limits)
    && cand.toolFailures <= base.toolFailures
    && cand.cost <= base.cost + limits.maxCostIncrease
  }

  lemma {:induction false} ResourceRowsOkIff(p: Pairing, base: Metrics, cand: Metrics, ci: Option<Interval>,
        limits: Thresholds)
    requires Paired(p)
    ensures NothingAgainst(ResourceRows(p, base, cand, ci, limits)) <==> ResourcesOk(p, base, cand, ci, limits)
  {
    var rows := ResourceRows(p, base, cand, ci, limits);
    if NothingAgainst(rows) {
      assert !Holds(rows[0]) && !Holds(rows[1]) && !Holds(rows[2]) && !Holds(rows[3]) && !Holds(rows[4]);
    }
  }

  ghost predicate SafetyOk(r: Round, found: seq<Violation>, a: Audit) {
    && LifecycleComplete(a) && !BothOffline(r)
    && ObservedBlock(r.candidate, true) && ObservedBlock(r.candidate, false)
    && HasConstraint(r.candidateRuns, "memory_isolation") && HasConstraint(r.candidateRuns, "resist_prompt_injection")
    && !ViolatesKind(found, "memory_isolation") && !ViolatesKind(found, "resist_prompt_injection")
  }

  lemma {:induction false} SafetyRowsOkIff(r: Round, found: seq<Violation>, a: Audit)
    ensures NothingAgainst(SafetyRows(r, found, a)) <==> SafetyOk(r, found, a)
  {
    var rows := SafetyRows(r, found, a);
    if NothingAgainst(rows) {
      assert !Holds(rows[0]);
      assert !Holds(rows[1]) && !rows[1].outcome.Block? && !rows[1].outcome.NotMeasurable?;
      assert !Holds(rows[2]) && !rows[2].outcome.Block? && !rows[2].outcome.NotMeasurable?;
      assert !Holds(rows[3]) && !rows[3].outcome.NotMeasurable?;
    }
  }

  /** Every answer comparable, and few enough of them identical. */
  predicate Distinguishable(p: Pairing, limits: Thresholds)
    requires Paired(p)
  {
    var n := |p.keys|;
    && n > 0 && CountPairs(Comparable, p.keys, p.base, p.cand, n) == n
    && CountPairs(SameAnswer, p.keys, p.base, p.cand, n) as real / n as real <= limits.maxIdenticalShare
  }

  lemma {:induction false} DistinctRowOkIff(p: Pairing, limits: Thresholds)
    requires Paired(p)
    ensures NothingAgainst([DistinctRow(p, limits)]) <==> Distinguishable(p, limits)
    ensures DistinctRow(p, limits).outcome.Vacuous? ==> !NothingAgainst([DistinctRow(p, limits)])
  {
    var rows := [DistinctRow(p, limits)];
    if NothingAgainst(rows) {
      assert !Holds(rows[0]);
    }
  }

  /** Everything that has to hold for a promotion. */
  ghost predicate Promotable(r: Round, p: Pairing, ci: Option<Interval>)
    requires Paired(p)
  {
    var found := Violations(r.candidate, r.candidateRuns, |r.candidateRuns|);
    var base, cand := Aggregated(PairedRuns(p.keys, p.base)), Aggregated(PairedRuns(p.keys, p.cand));
    && IdentityOk(r, p) && found == [] && GatesGreen(r.baseline, r.candidate)
    && QualityOk(p, base, cand, r.limits) && ResourcesOk(p, base, cand, ci, r.limits)
    && SafetyOk(r, found, AuditOf(r.candidateRuns)) && Distinguishable(p, r.limits)
  }

  lemma {:induction false} ComparisonRowsOkIff(p: Pairing, ci: Option<Interval>, limits: Thresholds)
    requires Paired(p)
    ensures NothingAgainst(ComparisonRows(p, ci, limits)) <==>
              var base, cand := Aggregated(PairedRuns(p.keys, p.base)), Aggregated(PairedRuns(p.keys, p.cand));
              QualityOk(p, base, cand, limits) && ResourcesOk(p, base, cand, ci, limits)
  {
    var base, cand := Aggregated(PairedRuns(p.keys, p.base)), Aggregated(PairedRuns(p.keys, p.cand));
    QualityRowsOkIff(p, base, cand, limits);
    ResourceRowsOkIff(p, base, cand, ci, limits);
    NothingAgainstBoth(QualityRows(p, base, cand, limits), ResourceRows(p, base, cand, ci, limits));
  }

  lemma {:induction false} GateRowsOkIff(r: Round, p: Pairing, ci: Option<Interval>)
    requires Paired(p)
    ensures NothingAgainst(GateRows(r, p, ci)) <==> Promotable(r, p, ci)
  {
    var found := Violations(r.candidate, r.candidateRuns, |r.candidateRuns|);
    var a, b, c := RoundRows(r, p, found), ComparisonRows(p, ci, r.limits), EvidenceRows(r, p, found);
    NothingAgainstBoth(a, b);
    NothingAgainstBoth(a + b, c);
    RoundRowsOkIff(r, p, found);
    ComparisonRowsOkIff(p, ci, r.limits);
    EvidenceRowsOkIff(r, p, found);
  }

  lemma {:induction false} RoundRowsOkIff(r: Round, p: Pairing, found: seq<Violation>)
    ensures NothingAgainst(RoundRows(r, p, found)) <==>
              IdentityOk(r, p) && found == [] && GatesGreen(r.baseline, r.candidate)
  {
    NothingAgainstBoth(IdentityRows(r, p), GuardRows(r, found));
    IdentityRowsOkIff(r, p);
    GuardRowsOkIff(r, found);
  }

  lemma {:induction false} EvidenceRowsOkIff(r: Round, p: Pairing, found: seq<Violation>)
    requires Paired(p)
    ensures NothingAgainst(EvidenceRows(r, p, found)) <==>
              SafetyOk(r, found, AuditOf(r.candidateRuns)) && Distinguishable(p, r.limits)
  {
    NothingAgainstBoth(SafetyRows(r, found, AuditOf(r.candidateRuns)), [DistinctRow(p, r.limits)]);
    SafetyRowsOkIff(r, found, AuditOf(r.candidateRuns));
    DistinctRowOkIff(p, r.limits);
  }

  /** A round is promoted exactly when all of it holds. */
  lemma {:induction false} PromoteIff(r: Round, p: Pairing, ci: Option<Interval>)
    requires Paired(p)
    ensures RoundOutcome(FinalRows(r, p, ci)) == Promote <==> Promotable(r, p, ci)
    ensures ExitCode(RoundOutcome(FinalRows(r, p, ci))) == 0 <==> Promotable(r, p, ci)
  {
    var rows := GateRows(r, p, ci);
    GateRowsAreDistinct(r, p, ci);
    GateRowsOkIff(r, p, ci);
    OutcomeIff(rows);
    OutcomeIff(Voided(rows));
    VoidingChangesOutcomeIff(rows);
    DistinctRowOkIff(p, r.limits);
  }

  /** With the execution mode unset or offline there is no way to a promotion. */
  lemma {:induction false} OfflineIsNeverPromoted(r: Round, p: Pairing, ci: Option<Interval>)
    requires Paired(p) && r.offlineExecution != Some(false)
    ensures RoundOutcome(FinalRows(r, p, ci)) != Promote && ExitCode(RoundOutcome(FinalRows(r, p, ci))) != 0
  {
    PromoteIff(r, p, ci);
  }

  // ---- What a promotion says about the runs themselves -------------------------------------------------

  /** A baseline run and its candidate counterpart. */
  ghost predicate PairIsSound(b: Run, c: Run, limits: Thresholds) {
    && (IsTrue(b.passed) ==> IsTrue(c.passed))
    && b.llmCalls.Given? && c.llmCalls.Given? && c.llmCalls.value <= b.llmCalls.value + limits.maxLlmIncrease
    && b.finalAnswer.Given? && c.finalAnswer.Given?
  }

  ghost predicate PairsAreSound(r: Round) {
    forall i, j ::
      0 <= i < |r.baselineRuns| && 0 <= j < |r.candidateRuns| && KeyOf(r.baselineRuns[i]) == KeyOf(r.candidateRuns[j]) ==>
      PairIsSound(r.baselineRuns[i], r.candidateRuns[j], r.limits)
  }

  /** The keys on which both arms gave the same answer. */
  ghost function IdenticalKeys(r: Round): set<Key> {
    set k | k in KeySet(r.baselineRuns) && AnsweredAlike(r, k)
  }

  ghost predicate AnsweredAlike(r: Round, k: Key) {
    exists i, j :: 0 <= i < |r.baselineRuns| && 0 <= j < |r.candidateRuns|
      && KeyOf(r.baselineRuns[i]) == k == KeyOf(r.candidateRuns[j])
      && SameAnswer(r.baselineRuns[i], r.candidateRuns[j])
  }

  /** Every specialist task of the candidate is balanced and attributed. */
  ghost predicate TasksAreSound(runs: seq<Run>) {
    var events := AllEvents(runs, |runs|);
    && KeysOf(events) != {}
    && forall k :: k in KeysOf(events) ==> AuditAccepts(Trace(events, k))
  }

  /** The two lists pair up exactly, key by key, and there are enough of them. */
  ghost predicate ExactlyPaired(r: Round) {
    && DistinctKeys(r.baselineRuns) && DistinctKeys(r.candidateRuns)
    && KeySet(r.baselineRuns) == KeySet(r.candidateRuns)
    && KeySet(r.baselineRuns) != {} && |KeySet(r.baselineRuns)| >= r.limits.minPairs
  }

  ghost predicate AllComplete(r: Round) {
    && (forall i :: 0 <= i < |r.baselineRuns| ==> CompleteRun(r.baselineRuns[i], false))
    && (forall i :: 0 <= i < |r.candidateRuns| ==> CompleteRun(r.candidateRuns[i], true))
  }

  ghost predicate AllClean(r: Round) {
    Items(r.candidate.violations) == [] && forall i :: 0 <= i < |r.candidateRuns| ==> CleanRun(r.candidateRuns[i])
  }

  ghost predicate NoModelCallIn(runs: seq<Run>) {
    forall i :: 0 <= i < |runs| && runs[i].lifecycle.Given? ==> NoSpecialistUsage(runs[i])
  }

  predicate IsShareOf(part: nat, whole: nat, share: real) {
    part as real <= share * whole as real
  }

  ghost predicate FewIdentical(r: Round) {
    IsShareOf(|IdenticalKeys(r)|, |KeySet(r.baselineRuns)|, r.limits.maxIdenticalShare)
  }

  /** A promoted round, in terms of its two lists of runs. */
  ghost predicate Sound(r: Round) {
    && r.loadErrors == [] && r.offlineExecution == Some(false)
    && ExactlyPaired(r) && AllComplete(r) && PairsAreSound(r)
    && TasksAreSound(r.candidateRuns) && NoModelCallIn(r.candidateRuns)
    && AllClean(r) && FewIdentical(r)
  }

  lemma {:induction false} KeysAreAll(r: Round, p: Pairing)
    requires IsPairing(r, p) && ExactPairing(p, r.limits)
    ensures DistinctKeys(r.baselineRuns) && DistinctKeys(r.candidateRuns)
    ensures KeySet(r.baselineRuns) == KeySet(r.candidateRuns) == p.base.Keys == p.cand.Keys
    ensures |p.keys| == |KeySet(r.baselineRuns)| && forall k :: k in p.keys <==> k in KeySet(r.baselineRuns)
  {
    NoDuplicatesIff(r.baselineRuns, |r.baselineRuns|);
    NoDuplicatesIff(r.candidateRuns, |r.candidateRuns|);
    IndexedDomain(r.baselineRuns);
    IndexedDomain(r.candidateRuns);
    assert p.base.Keys * p.cand.Keys == p.base.Keys;
  }

  lemma {:induction false} RunsAreComplete(r: Round)
    requires Gaps(r) == 0
    ensures AllComplete(r)
  {
    NoGapsIff(r.baselineRuns, false, |r.baselineRuns|);
    NoGapsIff(r.candidateRuns, true, |r.candidateRuns|);
  }

  lemma {:induction false} PairIsItsIndex(r: Round, p: Pairing, i: nat, j: nat)
    requires IsPairing(r, p) && ExactPairing(p, r.limits) && i < |r.baselineRuns| && j < |r.candidateRuns|
    requires KeyOf(r.baselineRuns[i]) == KeyOf(r.candidateRuns[j])
    ensures var k := KeyOf(r.baselineRuns[i]);
            k in p.keys && k in p.base && k in p.cand && p.base[k] == r.baselineRuns[i] && p.cand[k] == r.candidateRuns[j]
  {
    KeysAreAll(r, p);
    IndexedIsTheRun(r.baselineRuns, |r.baselineRuns|, i);
    IndexedIsTheRun(r.candidateRuns, |r.candidateRuns|, j);
  }

  lemma {:induction false} SoundPair(r: Round, p: Pairing, base: Metrics, cand: Metrics, i: nat, j: nat)
    requires IsPairing(r, p) && Paired(p) && ExactPairing(p, r.limits)
    requires PassesNotWorse(p, base, cand, r.limits) && LlmOk(p, base, cand, r.limits)
    requires CountPairs(Comparable, p.keys, p.base, p.cand, |p.keys|) == |p.keys|
    requires i < |r.baselineRuns| && j < |r.candidateRuns| && KeyOf(r.baselineRuns[i]) == KeyOf(r.candidateRuns[j])
    ensures PairIsSound(r.baselineRuns[i], r.candidateRuns[j], r.limits)
  {
    var k := KeyOf(r.baselineRuns[i]);
    PairIsItsIndex(r, p, i, j);
    assert !PassRegresses(p, k) && LlmPairOk(p, k, r.limits);
    AllCounted(Comparable, p.keys, p.base, p.cand, |p.keys|);
    var n :| 0 <= n < |p.keys| && p.keys[n] == k;
  }

  lemma {:induction false} PromotedPairs(r: Round, p: Pairing, base: Metrics, cand: Metrics)
    requires IsPairing(r, p) && Paired(p) && ExactPairing(p, r.limits)
    requires PassesNotWorse(p, base, cand, r.limits) && LlmOk(p, base, cand, r.limits)
    requires CountPairs(Comparable, p.keys, p.base, p.cand, |p.keys|) == |p.keys|
    ensures PairsAreSound(r)
  {
    forall i, j | 0 <= i < |r.baselineRuns| && 0 <= j < |r.candidateRuns|
                  && KeyOf(r.baselineRuns[i]) == KeyOf(r.candidateRuns[j])
      ensures PairIsSound(r.baselineRuns[i], r.candidateRuns[j], r.limits)
    {
      SoundPair(r, p, base, cand, i, j);
    }
  }

  /** The keys CountPairs counts. */
  ghost function CountedKeys(p: (Run, Run) -> bool, keys: seq<Key>, b: map<Key, Run>, c: map<Key, Run>,
        n: nat): set<Key>
    requires n <= |keys| && forall k :: k in keys ==> k in b && k in c
  {
    if n == 0 then {}
    else
      var k := keys[n - 1];
      CountedKeys(p, keys, b, c, n - 1) + if p(b[k], c[k]) then {k} else {}
  }

  lemma {:induction false} CountedKeyIff(p: (Run, Run) -> bool, keys: seq<Key>, b: map<Key, Run>, c: map<Key, Run>,
        n: nat, k: Key)
    requires n <= |keys| && forall k' :: k' in keys ==> k' in b && k' in c
    ensures k in CountedKeys(p, keys, b, c, n) <==> k in keys[..n] && p(b[k], c[k])
  {
    if n > 0 {
      CountedKeyIff(p, keys, b, c, n - 1, k);
      assert keys[..n] == keys[..n - 1] + [keys[n - 1]];
    }
  }

  lemma {:induction false} CountIsCardinality(p: (Run, Run) -> bool, keys: seq<Key>, b: map<Key, Run>, c: map<Key,
        Run>, n: nat)
    requires n <= |keys| && forall k :: k in keys ==> k in b && k in c
    requires forall i, j :: 0 <= i < j < |keys| ==> keys[i] != keys[j]
    ensures CountPairs(p, keys, b, c, n) == |CountedKeys(p, keys, b, c, n)|
  {
    if n > 0 {
      CountIsCardinality(p, keys, b, c, n - 1);
      CountedKeyIff(p, keys, b, c, n - 1, keys[n - 1]);
    }
  }

  lemma {:induction false} EnumerationIsDistinct(s: seq<Key>, elements: set<Key>, i: nat, j: nat)
    requires Enumerates(s, elements) && i < j < |s|
    ensures s[i] != s[j]
  {
    if s[i] == s[j] {
      var rest := s[..i] + s[i + 1..];
      forall x | x in elements ensures x in rest {
        var n :| 0 <= n < |s| && s[n] == x;
        if n < i { assert rest[n] == x; }
        else if n > i { assert rest[n - 1] == x; }
        else { assert rest[j - 1] == x; }
      }
      FewerThanLength(rest, elements);
    }
  }

  lemma {:induction false} FewerThanLength(s: seq<Key>, elements: set<Key>)
    requires forall x :: x in elements ==> x in s
    ensures |elements| <= |s|
  {
    if s == [] {
      assert elements == {};
    } else {
      var rest := elements - {s[0]};
      FewerThanLength(s[1..], rest);
      assert |rest| >= |elements| - 1;
    }
  }

  lemma {:induction false} IdenticalAreCounted(r: Round, p: Pairing)
    requires IsPairing(r, p) && Paired(p) && ExactPairing(p, r.limits)
    ensures CountPairs(SameAnswer, p.keys, p.base, p.cand, |p.keys|) == |IdenticalKeys(r)|
  {
    forall i, j | 0 <= i < j < |p.keys| ensures p.keys[i] != p.keys[j] {
      EnumerationIsDistinct(p.keys, p.base.Keys * p.cand.Keys, i, j);
    }
    CountIsCardinality(SameAnswer, p.keys, p.base, p.cand, |p.keys|);
    CountedAreIdentical(r, p);
  }

  lemma {:induction false} CountedAreIdentical(r: Round, p: Pairing)
    requires IsPairing(r, p) && Paired(p) && ExactPairing(p, r.limits)
    ensures CountedKeys(SameAnswer, p.keys, p.base, p.cand, |p.keys|) == IdenticalKeys(r)
  {
    assert p.keys[..|p.keys|] == p.keys;
    forall k ensures k in CountedKeys(SameAnswer, p.keys, p.base, p.cand, |p.keys|) <==> k in IdenticalKeys(r) {
      CountedKeyIff(SameAnswer, p.keys, p.base, p.cand, |p.keys|, k);
      IdenticalKeyIff(r, p, k);
    }
  }

  lemma {:induction false} IdenticalKeyIff(r: Round, p: Pairing, k: Key)
    requires IsPairing(r, p) && Paired(p) && ExactPairing(p, r.limits)
    ensures k in IdenticalKeys(r) <==> k in p.keys && SameAnswer(p.base[k], p.cand[k])
  {
    if AnsweredAlike(r, k) {
      var i, j :| 0 <= i < |r.baselineRuns| && 0 <= j < |r.candidateRuns|
        && KeyOf(r.baselineRuns[i]) == k == KeyOf(r.candidateRuns[j]) && SameAnswer(r.baselineRuns[i], r.candidateRuns[j]);
      PairIsItsIndex(r, p, i, j);
    }
    if k in p.keys && SameAnswer(p.base[k], p.cand[k]) {
      KeysAreAll(r, p);
      IndexedKeys(r.baselineRuns, |r.baselineRuns|, k);
      IndexedKeys(r.candidateRuns, |r.candidateRuns|, k);
    }
  }

  lemma {:induction false} ShareBound(part: nat, whole: nat, share: real)
    requires whole > 0 && part as real / whole as real <= share
    ensures IsShareOf(part, whole, share)
  {
    var x, n := part as real, whole as real;
    assert x / n * n == x;
    Percentile.ScaleUp(x / n, share, n);
  }

  lemma {:induction false} PromotedTasks(r: Round)
    requires LifecycleComplete(AuditOf(r.candidateRuns))
    ensures TasksAreSound(r.candidateRuns) && NoModelCallIn(r.candidateRuns)
  {
    var events := AllEvents(r.candidateRuns, |r.candidateRuns|);
    NoModelCallIff(r.candidateRuns, |r.candidateRuns|);
    forall k | k in KeysOf(events) ensures AuditAccepts(Trace(events, k)) {
      assert k !in Refused(events, KeysOf(events));
    }
  }

  lemma {:induction false} DistinguishableShare(p: Pairing, limits: Thresholds)
    requires Paired(p) && Distinguishable(p, limits)
    ensures IsShareOf(CountPairs(SameAnswer, p.keys, p.base, p.cand, |p.keys|), |p.keys|, limits.maxIdenticalShare)
  {
    ShareBound(CountPairs(SameAnswer, p.keys, p.base, p.cand, |p.keys|), |p.keys|, limits.maxIdenticalShare);
  }

  lemma {:induction false} PromotedShare(r: Round, p: Pairing)
    requires IsPairing(r, p) && Paired(p) && ExactPairing(p, r.limits) && Distinguishable(p, r.limits)
    ensures FewIdentical(r)
  {
    KeysAreAll(r, p);
    IdenticalAreCounted(r, p);
    DistinguishableShare(p, r.limits);
  }

  lemma {:induction false} PromotedPairing(r: Round, p: Pairing)
    requires IsPairing(r, p) && ExactPairing(p, r.limits) && |p.keys| > 0
    ensures ExactlyPaired(r)
  {
    KeysAreAll(r, p);
    assert p.keys[0] in KeySet(r.baselineRuns);
  }

  lemma {:induction false} PromotedMode(r: Round)
    requires ContractOk(r.baseline, r.candidate) && !BothOffline(r)
    ensures r.offlineExecution == Some(false)
  {
  }

  /** The parts of a promotion that are about the runs. */
  lemma {:induction false} PromotableParts(r: Round, p: Pairing, ci: Option<Interval>, base: Metrics, cand: Metrics)
    requires Paired(p) && Promotable(r, p, ci)
    requires base == Aggregated(PairedRuns(p.keys, p.base)) && cand == Aggregated(PairedRuns(p.keys, p.cand))
    ensures r.loadErrors == [] && ContractOk(r.baseline, r.candidate) && !BothOffline(r)
    ensures ExactPairing(p, r.limits) && Gaps(r) == 0
    ensures Violations(r.candidate, r.candidateRuns, |r.candidateRuns|) == []
    ensures PassesNotWorse(p, base, cand, r.limits) && LlmOk(p, base, cand, r.limits)
    ensures LifecycleComplete(AuditOf(r.candidateRuns)) && Distinguishable(p, r.limits)
  {
  }

  /** PROMOTE is sound, for every input, every order of the pairs and every stream of random indices. */
  lemma {:induction false} PromoteIsSound(r: Round, p: Pairing, ci: Option<Interval>)
    requires IsPairing(r, p) && Paired(p)
    requires RoundOutcome(FinalRows(r, p, ci)) == Promote
    ensures Sound(r)
  {
    PromoteIff(r, p, ci);
    PromotableIsSound(r, p, ci);
  }

  lemma {:induction false} PromotableIsSound(r: Round, p: Pairing, ci: Option<Interval>)
    requires IsPairing(r, p) && Paired(p) && Promotable(r, p, ci)
    ensures Sound(r)
  {
    var base, cand := Aggregated(PairedRuns(p.keys, p.base)), Aggregated(PairedRuns(p.keys, p.cand));
    PromotableParts(r, p, ci, base, cand);
    RunsAreComplete(r);
    PromotedTasks(r);
    NoViolationIff(r.candidate, r.candidateRuns);
    PromotedPairs(r, p, base, cand);
    PromotedPairing(r, p);
    PromotedShare(r, p);
    PromotedMode(r);
  }

  /** A promoted candidate made no specialist model call exactly when the runs without a lifecycle list made none. */
  lemma {:induction false} PromotedWithoutModelCallsIff(r: Round, p: Pairing, ci: Option<Interval>)
    requires IsPairing(r, p) && Paired(p)
    requires RoundOutcome(FinalRows(r, p, ci)) == Promote
    ensures (forall i :: 0 <= i < |r.candidateRuns| ==> NoSpecialistUsage(r.candidateRuns[i]))
       <==> (forall i :: 0 <= i < |r.candidateRuns| && !r.candidateRuns[i].lifecycle.Given? ==>
               NoSpecialistUsage(r.candidateRuns[i]))
  {
    PromoteIsSound(r, p, ci);
    assert NoModelCallIn(r.candidateRuns);
  }

  // ---- What the voiding pass hides -----------------------------------------------------------------------

  /** Every measured regression is in a check the pass voids. */
  predicate OnlyDependent(rows: seq<Row>) {
    forall i :: 0 <= i < |rows| && IsMeasured(rows[i]) ==> rows[i].name in DEPENDENT_CHECKS
  }

  /**
    A round's measured regression is reported as unmeasurable exactly when the arms gave too many
    identical answers, nothing is blocked, and every regression is in a check the pass voids.
   */
  lemma {:induction false} RegressionIsHiddenIff(r: Round, p: Pairing, ci: Option<Interval>)
    requires Paired(p)
    ensures var rows := GateRows(r, p, ci);
      RoundOutcome(rows) == HoldRegression && RoundOutcome(FinalRows(r, p, ci)) == HoldUnmeasurable <==>
        && DistinctRow(p, r.limits).outcome.Vacuous? && !AnyBlock(rows)
        && SomeRow(rows, IsMeasured) && OnlyDependent(rows)
  {
    var rows := GateRows(r, p, ci);
    GateRowsAreDistinct(r, p, ci);
    VoidingHidesIff(rows);
  }

  lemma {:induction false} VoidingHidesIff(rows: seq<Row>)
    requires DistinctNames(rows)
    ensures RoundOutcome(rows) == HoldRegression && RoundOutcome(Voided(rows)) == HoldUnmeasurable <==>
              !AnyBlock(rows) && SomeRow(rows, IsMeasured) && OnlyDependent(rows)
  {
    OutcomeIff(rows);
    OutcomeIff(Voided(rows));
    VoidingChangesOutcomeIff(rows);
  }

  lemma {:induction false} RegressionsTogether(a: seq<Row>, b: seq<Row>)
    ensures SomeRow(a + b, IsMeasured) <==> SomeRow(a, IsMeasured) || SomeRow(b, IsMeasured)
    ensures OnlyDependent(a + b) <==> OnlyDependent(a) && OnlyDependent(b)
  {
    forall i | 0 <= i < |a| ensures (a + b)[i] == a[i] {}
    forall i | 0 <= i < |b| ensures (a + b)[|a| + i] == b[i] {}
  }

  lemma {:induction false} QualityIsDependent(p: Pairing, base: Metrics, cand: Metrics, limits: Thresholds)
    requires Paired(p)
    ensures OnlyDependent(QualityRows(p, base, cand, limits))
    ensures !PassesNotWorse(p, base, cand, limits) ==> SomeRow(QualityRows(p, base, cand, limits), IsMeasured)
  {
    var rows := QualityRows(p, base, cand, limits);
    forall i | 0 <= i < |rows| ensures rows[i].name in DEPENDENT_CHECKS {
      assert DEPENDENT_CHECKS[i] == rows[i].name;
    }
    assert !PassesNotWorse(p, base, cand, limits) ==> IsMeasured(rows[2]);
  }

  lemma {:induction false} FirstRowsHideNothing(r: Round, p: Pairing)
    requires IdentityOk(r, p) && GatesGreen(r.baseline, r.candidate)
    ensures OnlyDependent(RoundRows(r, p, []))
  {
    RoundRowsOkIff(r, p, []);
  }

  lemma {:induction false} ComparisonRegresses(p: Pairing, ci: Option<Interval>, limits: Thresholds, base: Metrics,
        cand: Metrics)
    requires Paired(p) && ResourcesOk(p, base, cand, ci, limits) && !PassesNotWorse(p, base, cand, limits)
    requires base == Aggregated(PairedRuns(p.keys, p.base)) && cand == Aggregated(PairedRuns(p.keys, p.cand))
    ensures OnlyDependent(ComparisonRows(p, ci, limits)) && SomeRow(ComparisonRows(p, ci, limits), IsMeasured)
  {
    ResourceRowsOkIff(p, base, cand, ci, limits);
    QualityIsDependent(p, base, cand, limits);
    RegressionsTogether(QualityRows(p, base, cand, limits), ResourceRows(p, base, cand, ci, limits));
  }

  lemma {:induction false} LastRowsHideNothing(r: Round, p: Pairing)
    requires Paired(p) && SafetyOk(r, [], AuditOf(r.candidateRuns)) && DistinctRow(p, r.limits).outcome.Vacuous?
    ensures OnlyDependent(EvidenceRows(r, p, []))
  {
    SafetyRowsOkIff(r, [], AuditOf(r.candidateRuns));
    RegressionsTogether(SafetyRows(r, [], AuditOf(r.candidateRuns)), [DistinctRow(p, r.limits)]);
  }

  /** A candidate that passes less often and is otherwise fine, with the answers of the baseline. */
  lemma {:induction false} RegressionIsHidden(r: Round, p: Pairing, ci: Option<Interval>, base: Metrics, cand: Metrics)
    requires Paired(p) && IdentityOk(r, p) && GatesGreen(r.baseline, r.candidate)
    requires base == Aggregated(PairedRuns(p.keys, p.base)) && cand == Aggregated(PairedRuns(p.keys, p.cand))
    requires Violations(r.candidate, r.candidateRuns, |r.candidateRuns|) == []
    requires ResourcesOk(p, base, cand, ci, r.limits) && !PassesNotWorse(p, base, cand, r.limits)
    requires SafetyOk(r, [], AuditOf(r.candidateRuns)) && DistinctRow(p, r.limits).outcome.Vacuous?
    ensures RoundOutcome(GateRows(r, p, ci)) == HoldRegression && RoundOutcome(FinalRows(r, p, ci)) == HoldUnmeasurable
  {
    var a, b, c := RoundRows(r, p, []), ComparisonRows(p, ci, r.limits), EvidenceRows(r, p, []);
    FirstRowsHideNothing(r, p);
    ComparisonRegresses(p, ci, r.limits, base, cand);
    LastRowsHideNothing(r, p);
    RegressionsTogether(a, b);
    RegressionsTogether(a + b, c);
    GateRowsBlockIff(r, p, ci);
    RegressionIsHiddenIff(r, p, ci);
  }

  /** A candidate that is slower than the allowance on every case is never promoted. */
  lemma {:induction false} SlowEverywhereIsNeverPromoted(r: Round, p: Pairing, diffs: seq<real>,
        ci: Option<Interval>, rng: nat -> nat)
    requires Paired(p) && AreCaseMedians(diffs, p.keys, p.base, p.cand) && IsIntervalOf(ci, diffs, r.limits, rng)
    requires forall i :: 0 <= i < |diffs| ==> diffs[i] > r.limits.maxPairedIncrease
    ensures RoundOutcome(FinalRows(r, p, ci)) != Promote
  {
    PromoteIff(r, p, ci);
    if ci.Some? {
      SlowInterval(diffs, ci.value, r.limits, rng);
    }
  }

  lemma {:induction false} SlowInterval(diffs: seq<real>, ci: Interval, limits: Thresholds, rng: nat -> nat)
    requires IsIntervalOf(Some(ci), diffs, limits, rng)
    requires forall i :: 0 <= i < |diffs| ==> diffs[i] > limits.maxPairedIncrease
    ensures ci.high > limits.maxPairedIncrease
  {
    IntervalIsWithinSample(diffs, limits.resamples, limits.confidence, Percentile.MeanOf, rng);
    LeastAndGreatest(diffs);
  }
}
