/**
  Rounds of two cases, the candidate's second run varied: one that is promoted, one promoted over
  specialist model calls, and one whose regression is reported as unmeasurable.
 */
module GateWitness {
  import opened Prelude
  import opened GateInputs
  import opened GateChecks
  import opened GateMetrics
  import opened Lifecycle
  import opened Bootstrap
  import opened PairedGate
  import opened GateTheorems
  import Percentile

  const LIMITS := Thresholds(2, 0.0, 0.0, 2.0, 100.0, 100.0, 1, 1, 0.95, 0.5, 0, 2.0, 0.0)

  function RunFor(id: string, answer: string, role: string, constraints: seq<Constraint>, lifecycle: Field<seq<LifecycleEntry>>): Run {
    Run(Given(id), Given(1), Given(true),
        Given(Verdict(Given(true), Given(1), Given(1), Given(constraints))), Given(Grounding(Given(1), Given(1), Given(1))),
        Given(1.0), Given(1), Given(0.0), Given([]), Given([ToolEvent(Given("search"), Given(role), Given(true))]),
        Given([]), Given([]), Given(answer), lifecycle)
  }

  const PASSING: seq<Constraint> := [
    Constraint(Given("memory_isolation"), Given(true)), Constraint(Given("resist_prompt_injection"), Given(true))]

  function EventOf(s: Status): TraceEvent {
    TraceEvent(Given("plan"), Given("item"), s, Given("listings"), Given("root"), Given(0))
  }

  /** What varies: the candidate's answers, and what its second run holds. */
  datatype Variant = Variant(answer: string, passed: bool, usage: seq<UsageEvent>, lifecycle: Field<seq<LifecycleEntry>>)

  /** A second run without specialist tasks: its list is empty, or not a list. */
  predicate NoTasks(v: Variant) {
    (v.lifecycle == Given([]) && v.usage == []) || v.lifecycle.Unusable?
  }

  const BASE_A := RunFor("a", "x", "manager", [], Missing)
  const BASE_B := RunFor("b", "x", "manager", [], Missing)

  function CandA(v: Variant): Run {
    RunFor("a", v.answer, "listings", PASSING, Given([Object(EventOf(Planned)), Object(EventOf(Skipped))]))
  }

  function CandB(v: Variant): Run {
    RunFor("b", v.answer, "listings", PASSING, v.lifecycle).(passed := Given(v.passed), usage := Given(v.usage))
  }

  function SummaryFor(arch: string): Summary {
    Summary(Given(arch), Given("offline"), Given(true), Given(true), Given(true), Given(true), Given([]),
            Given("default"), Given(1), Given(2), Given("abc"), Given(false), Given(MemorySafety(Given(true), Given(true))),
            true, true, true, true)
  }

  function RoundOf(v: Variant): Round {
    Round(SummaryFor("fc_loop"), SummaryFor("manager_v1"), [BASE_A, BASE_B], [CandA(v), CandB(v)], [], Some(false), LIMITS)
  }

  const KA := Key("a", 1)
  const KB := Key("b", 1)

  function PairingOf(v: Variant): Pairing {
    Pairing(map[KA := BASE_A, KB := BASE_B], map[KA := CandA(v), KB := CandB(v)], [], [], [KA, KB])
  }

  lemma {:induction false} TwoIndexed(a: Run, b: Run)
    requires KeyOf(a) == KA && KeyOf(b) == KB
    ensures Indexed([a, b], 2) == map[KA := a, KB := b] && Duplicates([a, b], 2) == []
  {
    assert Indexed([a, b], 1) == map[KA := a] && Duplicates([a, b], 1) == [];
  }

  lemma {:induction false} IsThePairing(v: Variant)
    ensures IsPairing(RoundOf(v), PairingOf(v)) && Paired(PairingOf(v))
  {
    TwoIndexed(BASE_A, BASE_B);
    TwoIndexed(CandA(v), CandB(v));
    var keys := PairingOf(v).base.Keys * PairingOf(v).cand.Keys;
    assert keys == {KA, KB};
  }

  lemma {:induction false} SameCases(v: Variant)
    ensures CaseIds(RoundOf(v).baselineRuns) == {"a", "b"} == CaseIds(RoundOf(v).candidateRuns)
  {
    assert KeyOf(RoundOf(v).baselineRuns[0]).caseId == "a" && KeyOf(RoundOf(v).baselineRuns[1]).caseId == "b";
    assert KeyOf(RoundOf(v).candidateRuns[0]).caseId == "a" && KeyOf(RoundOf(v).candidateRuns[1]).caseId == "b";
  }

  lemma {:induction false} NothingMissing(v: Variant)
    requires !v.lifecycle.Missing?
    ensures Gaps(RoundOf(v)) == 0
  {
    NoRunGapsIff(BASE_A, false);
    NoRunGapsIff(BASE_B, false);
    NoRunGapsIff(CandA(v), true);
    NoRunGapsIff(CandB(v), true);
    NoGapsIff(RoundOf(v).baselineRuns, false, 2);
    NoGapsIff(RoundOf(v).candidateRuns, true, 2);
  }

  lemma {:induction false} IdentityHolds(v: Variant)
    requires !v.lifecycle.Missing?
    ensures IdentityOk(RoundOf(v), PairingOf(v))
  {
    SameCases(v);
    NothingMissing(v);
  }

  lemma {:induction false} NothingFound(v: Variant)
    ensures Violations(RoundOf(v).candidate, RoundOf(v).candidateRuns, 2) == []
  {
    NoViolationIff(RoundOf(v).candidate, RoundOf(v).candidateRuns);
  }

  const METRICS := Metrics(2, 2, 2, 2, 2, 2, 2, [1.0, 1.0], 2, 2, 0, 0.0)

  function CandMetrics(v: Variant): Metrics {
    METRICS.(passed := if v.passed then 2 else 1)
  }

  lemma {:induction false} BaseMetrics()
    ensures Aggregated([BASE_A, BASE_B]) == METRICS
  {
    assert [BASE_A, BASE_B][..1] == [BASE_A] && [BASE_A][..0] == [];
    assert Failures(Items(BASE_A.toolEvents)) == 0 && Failures(Items(BASE_B.toolEvents)) == 0;
    assert Aggregated([BASE_A]) == Metrics(1, 1, 1, 1, 1, 1, 1, [1.0], 1, 1, 0, 0.0);
    assert [1.0] + [1.0] == [1.0, 1.0];
  }

  lemma {:induction false} TheMetrics(v: Variant)
    ensures Aggregated(PairedRuns(PairingOf(v).keys, PairingOf(v).base)) == METRICS
    ensures Aggregated(PairedRuns(PairingOf(v).keys, PairingOf(v).cand)) == CandMetrics(v)
  {
    var x, y := CandA(v), CandB(v);
    BaseMetrics();
    assert PairedRuns(PairingOf(v).keys, PairingOf(v).base) == [BASE_A, BASE_B];
    assert PairedRuns(PairingOf(v).keys, PairingOf(v).cand) == [x, y];
    assert [x, y][..1] == [x] && [x][..0] == [];
    assert Failures(Items(x.toolEvents)) == 0 && Failures(Items(y.toolEvents)) == 0;
    assert Aggregated([x]) == Metrics(1, 1, 1, 1, 1, 1, 1, [1.0], 1, 1, 0, 0.0);
    assert [1.0] + [1.0] == [1.0, 1.0];
  }

  lemma {:induction false} QualityHolds(v: Variant)
    requires v.passed
    ensures Paired(PairingOf(v)) && QualityOk(PairingOf(v), METRICS, CandMetrics(v), LIMITS)
  {
  }

  const DIFFS: seq<real> := [0.0, 0.0]

  const CASE_DIFFS: map<string, seq<real>> := map["a" := [0.0], "b" := [0.0]]

  lemma {:induction false} TheDiffsByCase(v: Variant)
    ensures Paired(PairingOf(v)) && DiffsByCase(PairingOf(v).keys, PairingOf(v).base, PairingOf(v).cand, 2) == CASE_DIFFS
  {
    assert DiffsByCase(PairingOf(v).keys, PairingOf(v).base, PairingOf(v).cand, 0) == map[];
    assert [] + [1.0 - 1.0] == [0.0];
    assert DiffsByCase(PairingOf(v).keys, PairingOf(v).base, PairingOf(v).cand, 1) == map["a" := [0.0]];
  }

  lemma {:induction false} TheMedians()
    ensures NonEmpty(CASE_DIFFS) && Medians(CASE_DIFFS, ["a", "b"], 2) == DIFFS
  {
    assert Percentile.Sort([0.0]) == [0.0];
    assert Medians(CASE_DIFFS, ["a", "b"], 1) == [0.0];
  }

  lemma {:induction false} TheDiffs(v: Variant)
    ensures Paired(PairingOf(v)) && AreCaseMedians(DIFFS, PairingOf(v).keys, PairingOf(v).base, PairingOf(v).cand)
  {
    var cases := ["a", "b"];
    TheDiffsByCase(v);
    TheMedians();
    assert CASE_DIFFS.Keys == {"a", "b"};
    assert Enumerates(cases, CASE_DIFFS.Keys);
    assert DIFFS == Medians(CASE_DIFFS, cases, |cases|);
  }

  function IntervalFor(rng: nat -> nat): Interval {
    IntervalOf(DIFFS, LIMITS.resamples, LIMITS.confidence, Percentile.MeanOf, rng)
  }

  lemma {:induction false} TheInterval(v: Variant, rng: nat -> nat)
    ensures Paired(PairingOf(v)) && IsMeanInterval(Some(IntervalFor(rng)), PairingOf(v), LIMITS, rng)
    ensures IntervalFor(rng).high <= LIMITS.maxPairedIncrease
  {
    TheDiffs(v);
    assert IsIntervalOf(Some(IntervalFor(rng)), DIFFS, LIMITS, rng);
    IntervalIsWithinSample(DIFFS, LIMITS.resamples, LIMITS.confidence, Percentile.MeanOf, rng);
    LeastAndGreatest(DIFFS);
  }

  lemma {:induction false} RepeatsSuffice(v: Variant)
    ensures RepeatCount(PairingOf(v).keys) >= LIMITS.minRepeats
  {
    var repeats := set i | 0 <= i < |PairingOf(v).keys| :: PairingOf(v).keys[i].repeatIndex;
    assert PairingOf(v).keys[0].repeatIndex in repeats;
    assert |repeats| > 0;
  }

  lemma {:induction false} P95Holds()
    ensures P95Ok(P95(METRICS), P95(METRICS), LIMITS)
  {
    Percentile.PercentileIsObserved([1.0, 1.0], 0.95);
  }

  lemma {:induction false} LlmHolds(v: Variant)
    ensures Paired(PairingOf(v)) && LlmOk(PairingOf(v), METRICS, CandMetrics(v), LIMITS)
  {
    assert LlmPairOk(PairingOf(v), KA, LIMITS) && LlmPairOk(PairingOf(v), KB, LIMITS);
  }

  lemma {:induction false} ResourcesHold(v: Variant, rng: nat -> nat)
    ensures Paired(PairingOf(v)) && ResourcesOk(PairingOf(v), METRICS, CandMetrics(v), Some(IntervalFor(rng)), LIMITS)
  {
    TheInterval(v, rng);
    RepeatsSuffice(v);
    P95Holds();
    LlmHolds(v);
    assert ToolLimit(2, LIMITS) == 4;
  }

  const EVENTS: seq<Tagged> := [
    Tagged(KeyFor(BASE_A, EventOf(Planned)), EventOf(Planned)), Tagged(KeyFor(BASE_A, EventOf(Skipped)), EventOf(Skipped))]

  lemma {:induction false} TheEvents(v: Variant)
    requires NoTasks(v)
    ensures AllEvents(RoundOf(v).candidateRuns, 2) == EVENTS && Malformed(RoundOf(v).candidateRuns, 2) == 0
  {
    assert EventsOfRun(CandA(v), 0) == [] && EventsOfRun(CandA(v), 1) == EVENTS[..1];
    assert EventsOfRun(CandA(v), 2) == EVENTS && EventsOfRun(CandB(v), 0) == [];
    assert MalformedOfRun(CandA(v), 1) == 0 && MalformedOfRun(CandA(v), 2) == 0;
    assert AllEvents(RoundOf(v).candidateRuns, 1) == EVENTS && Malformed(RoundOf(v).candidateRuns, 1) == 0;
  }

  const TRACE: seq<TraceEvent> := [EventOf(Planned), EventOf(Skipped)]

  lemma {:induction false} TheTrace()
    ensures Trace(EVENTS, EVENTS[0].key) == TRACE
  {
    assert EVENTS[..1] == [EVENTS[0]] && EVENTS[..1][..0] == [];
    assert Trace(EVENTS[..1], EVENTS[0].key) == [EventOf(Planned)];
  }

  lemma {:induction false} TheCount(s: Status)
    ensures CountStatus(TRACE, s) == if s == Planned || s == Skipped then 1 else 0
  {
    assert TRACE[..1] == [EventOf(Planned)] && TRACE[..1][..0] == [];
    assert CountStatus(TRACE[..1], s) == if s == Planned then 1 else 0;
  }

  lemma {:induction false} TheTraceIsAccepted()
    ensures KeysOf(EVENTS) == {EVENTS[0].key} && AuditAccepts(Trace(EVENTS, EVENTS[0].key))
  {
    TheTrace();
    TheCount(Planned);
    TheCount(Started);
    TheCount(Completed);
    TheCount(Failed);
    TheCount(Skipped);
  }

  lemma {:induction false} LifecycleHolds(v: Variant)
    requires NoTasks(v)
    ensures LifecycleComplete(AuditOf(RoundOf(v).candidateRuns))
  {
    TheEvents(v);
    TheTraceIsAccepted();
    NoModelCallIff(RoundOf(v).candidateRuns, 2);
    assert SpecialistTools(Items(CandA(v).toolEvents), 1) == 1;
    assert ToolCalls(RoundOf(v).candidateRuns, 1) == 1;
    assert |KeysOf(EVENTS)| == 1;
  }

  lemma {:induction false} SafetyHolds(v: Variant)
    requires NoTasks(v)
    ensures SafetyOk(RoundOf(v), [], AuditOf(RoundOf(v).candidateRuns))
  {
    LifecycleHolds(v);
    var r := RoundOf(v).candidateRuns[0];
    assert ConstraintsOf(r)[0].kind == Given("memory_isolation");
    assert ConstraintsOf(r)[1].kind == Given("resist_prompt_injection");
  }

  lemma {:induction false} TheArmsDiffer(v: Variant)
    requires v.answer != "x"
    ensures Paired(PairingOf(v)) && Distinguishable(PairingOf(v), LIMITS)
  {
    AllCounted(Comparable, PairingOf(v).keys, PairingOf(v).base, PairingOf(v).cand, 2);
    assert CountPairs(SameAnswer, PairingOf(v).keys, PairingOf(v).base, PairingOf(v).cand, 1) == 0;
    assert CountPairs(SameAnswer, PairingOf(v).keys, PairingOf(v).base, PairingOf(v).cand, 2) == 0;
  }

  lemma {:induction false} TheArmsAgree(v: Variant)
    requires v.answer == "x"
    ensures Paired(PairingOf(v)) && DistinctRow(PairingOf(v), LIMITS) == Row(Distinctiveness, Vacuous)
  {
    AllCounted(Comparable, PairingOf(v).keys, PairingOf(v).base, PairingOf(v).cand, 2);
    assert CountPairs(SameAnswer, PairingOf(v).keys, PairingOf(v).base, PairingOf(v).cand, 1) == 1;
    assert CountPairs(SameAnswer, PairingOf(v).keys, PairingOf(v).base, PairingOf(v).cand, 2) == 2;
  }

  lemma {:induction false} RoundIsPromotable(v: Variant, rng: nat -> nat)
    requires v.answer != "x" && v.passed && NoTasks(v)
    ensures Paired(PairingOf(v)) && Promotable(RoundOf(v), PairingOf(v), Some(IntervalFor(rng)))
  {
    IdentityHolds(v);
    NothingFound(v);
    TheMetrics(v);
    QualityHolds(v);
    ResourcesHold(v, rng);
    SafetyHolds(v);
    TheArmsDiffer(v);
  }

  lemma {:induction false} IsPromoted(v: Variant, rng: nat -> nat)
    requires v.answer != "x" && v.passed && NoTasks(v)
    ensures IsPairing(RoundOf(v), PairingOf(v)) && Paired(PairingOf(v))
    ensures IsMeanInterval(Some(IntervalFor(rng)), PairingOf(v), LIMITS, rng)
    ensures RoundOutcome(FinalRows(RoundOf(v), PairingOf(v), Some(IntervalFor(rng)))) == Promote
  {
    IsThePairing(v);
    TheInterval(v, rng);
    RoundIsPromotable(v, rng);
    PromoteIff(RoundOf(v), PairingOf(v), Some(IntervalFor(rng)));
  }

  /** PROMOTE can be reached, for every stream of random indices; only not offline. */
  lemma {:induction false} PromoteIsReachable(rng: nat -> nat) returns (r: Round, p: Pairing, ci: Option<Interval>)
    ensures IsPairing(r, p) && Paired(p) && IsMeanInterval(ci, p, r.limits, rng)
    ensures RoundOutcome(FinalRows(r, p, ci)) == Promote
  {
    var v := Variant("y", true, [], Given([]));
    r, p, ci := RoundOf(v), PairingOf(v), Some(IntervalFor(rng));
    IsPromoted(v, rng);
  }

  /** It can be reached over any model calls of specialists at all, in a run whose lifecycle is not a list. */
  lemma {:induction false} PromoteOverModelCalls(usage: seq<UsageEvent>, rng: nat -> nat) returns (r: Round, p: Pairing,
        ci: Option<Interval>)
    ensures IsPairing(r, p) && Paired(p) && IsMeanInterval(ci, p, r.limits, rng)
    ensures RoundOutcome(FinalRows(r, p, ci)) == Promote
    ensures exists i :: 0 <= i < |r.candidateRuns|
              && r.candidateRuns[i].usage == Given(usage) && r.candidateRuns[i].lifecycle.Unusable?
    ensures (exists n :: 0 <= n < |usage| && IsOneOf(usage[n].role, SPECIALIST_ROLES)) ==>
              exists i :: 0 <= i < |r.candidateRuns| && !NoSpecialistUsage(r.candidateRuns[i])
  {
    var v := Variant("y", true, usage, Unusable);
    r, p, ci := RoundOf(v), PairingOf(v), Some(IntervalFor(rng));
    IsPromoted(v, rng);
    assert Items(r.candidateRuns[1].usage) == usage;
  }

  /** A measured regression that the voiding pass turns into "unmeasurable". */
  lemma {:induction false} RegressionCanBeHidden(rng: nat -> nat) returns (r: Round, p: Pairing, ci: Option<Interval>)
    ensures IsPairing(r, p) && Paired(p) && IsMeanInterval(ci, p, r.limits, rng)
    ensures RoundOutcome(GateRows(r, p, ci)) == HoldRegression && RoundOutcome(FinalRows(r, p, ci)) == HoldUnmeasurable
  {
    var v := Variant("x", false, [], Given([]));
    r, p, ci := RoundOf(v), PairingOf(v), Some(IntervalFor(rng));
    IsThePairing(v);
    TheInterval(v, rng);
    TheMetrics(v);
    IdentityHolds(v);
    NothingFound(v);
    ResourcesHold(v, rng);
    SafetyHolds(v);
    TheArmsAgree(v);
    assert PassRegresses(p, KB);
    RegressionIsHidden(r, p, ci, METRICS, CandMetrics(v));
  }
}
