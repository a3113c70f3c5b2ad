/** The gate's list of checks, how it is folded into one outcome, and the pass that voids checks. */
module GateChecks {
  import opened Prelude

  /** What a check, or a whole round, can come out as. */
  datatype Outcome =
    | Promote | Hold | Block | Vacuous | LowPower | NotMeasurable | HoldRegression | HoldUnmeasurable | Unrecognised

  /** The checks, in the order the gate makes them. */
  datatype CheckName =
    | ResultFiles | ArmContract | ArmConsistency | PairedSample | MeasurementCompleteness | IdentityBinding
    | ZeroToleranceSecurity | ExistingGates
    | TaskCompletion | ConstraintQuality | PairedPassQuality | GroundedEvidence | SourceCoverage
    | P95LatencyBudget | LlmCallBudget | ToolCallBudget | ToolFailureNoninferiority | CostBudget
    | SpecialistLifecycle | MemoryIsolation | PromptInjection | MemorySafetyCoverage | Distinctiveness

  datatype Row = Row(name: CheckName, outcome: Outcome)

  /** A plain Hold on this check says the round is not attributable, not that anything got worse. */
  const PREREQUISITE_CHECKS: set<CheckName> := {IdentityBinding}

  const DEPENDENT_CHECKS: seq<CheckName> := [
    TaskCompletion, ConstraintQuality, PairedPassQuality, GroundedEvidence, SourceCoverage, MemorySafetyCoverage]

  predicate Holds(r: Row) {
    r.outcome.Hold? || r.outcome.Vacuous? || r.outcome.LowPower?
  }

  predicate IsMeasured(r: Row) {
    r.outcome.Hold? && r.name !in PREREQUISITE_CHECKS
  }

  predicate IsUnmeasured(r: Row) {
    r.outcome.Vacuous? || r.outcome.LowPower? || (r.outcome.Hold? && r.name in PREREQUISITE_CHECKS)
  }

  /** The names of the rows that satisfy p, in order. */
  function Names(rows: seq<Row>, p: Row -> bool): seq<CheckName> {
    if rows == [] then []
    else
      var last := rows[|rows| - 1];
      Names(rows[..|rows| - 1], p) + if p(last) then [last.name] else []
  }

  function HoldReasons(rows: seq<Row>): seq<CheckName> {
    Names(rows, Holds)
  }

  function MeasuredRegressions(rows: seq<Row>): seq<CheckName> {
    Names(rows, IsMeasured)
  }

  function UnmeasuredHoldReasons(rows: seq<Row>): seq<CheckName> {
    Names(rows, IsUnmeasured)
  }

  function UnsatisfiedPrerequisites(rows: seq<Row>): seq<CheckName> {
    Names(rows, (r: Row) => r.outcome.NotMeasurable?)
  }

  predicate AnyBlock(rows: seq<Row>) {
    exists i :: 0 <= i < |rows| && rows[i].outcome.Block?
  }

  function RoundOutcome(rows: seq<Row>): Outcome {
    if AnyBlock(rows) then Block
    else if MeasuredRegressions(rows) != [] then HoldRegression
    else if HoldReasons(rows) != [] || UnsatisfiedPrerequisites(rows) != [] then HoldUnmeasurable
    else Promote
  }

  predicate PromotableModuloOffline(rows: seq<Row>) {
    HoldReasons(rows) == [] && !AnyBlock(rows)
  }

  function ExitCode(o: Outcome): int {
    match o
    case Promote => 0
    case Hold => 2
    case HoldUnmeasurable => 2
    case HoldRegression => 4
    case Block => 3
    case Vacuous => 2
    case LowPower => 2
    case NotMeasurable => 2
    case Unrecognised => 2
  }

  function IndexOf(rows: seq<Row>, name: CheckName): (i: nat)
    ensures i <= |rows|
    ensures i < |rows| ==> rows[i].name == name
    ensures forall j :: 0 <= j < i ==> rows[j].name != name
  {
    if rows == [] || rows[0].name == name then 0 else 1 + IndexOf(rows[1..], name)
  }

  /** set_outcome: the first row of that name, unless it is a BLOCK. */
  function WithOutcome(rows: seq<Row>, name: CheckName, outcome: Outcome): seq<Row> {
    var i := IndexOf(rows, name);
    if i == |rows| || rows[i].outcome.Block? then rows else rows[i := rows[i].(outcome := outcome)]
  }

  class Checks {
    var rows: seq<Row>

    constructor ()
      ensures rows == []
    {
      rows := [];
    }

    method Add(name: CheckName, outcome: Outcome)
      modifies this
      ensures rows == old(rows) + [Row(name, outcome)]
    {
      rows := rows + [Row(name, outcome)];
    }

    method Find(name: CheckName) returns (index: Option<nat>)
      ensures index == if IndexOf(rows, name) < |rows| then Some(IndexOf(rows, name)) else None
    {
      var i := 0;
      while i < |rows| && rows[i].name != name
        invariant 0 <= i <= |rows| && forall j :: 0 <= j < i ==> rows[j].name != name
      {
        i := i + 1;
      }
      index := if i < |rows| then Some(i) else None;
    }

    method SetOutcome(name: CheckName, outcome: Outcome) returns (done: bool)
      modifies this
      ensures rows == WithOutcome(old(rows), name, outcome)
      ensures done <==> IndexOf(old(rows), name) < |old(rows)| && !old(rows)[IndexOf(old(rows), name)].outcome.Block?
    {
      var index := Find(name);
      if index.None? || rows[index.value].outcome.Block? {
        return false;
      }
      rows := rows[index.value := rows[index.value].(outcome := outcome)];
      done := true;
    }

    /** What an indistinguishable round does to the checks that depend on a difference. */
    method VoidDependentChecks()
      modifies this
      ensures rows == VoidedUpTo(old(rows), |DEPENDENT_CHECKS|)
    {
      for n := 0 to |DEPENDENT_CHECKS|
        invariant rows == VoidedUpTo(old(rows), n)
      {
        var name := DEPENDENT_CHECKS[n];
        var index := Find(name);
        if index.Some? && !rows[index.value].outcome.Block? && !rows[index.value].outcome.NotMeasurable? {
          var done := SetOutcome(name, Vacuous);
        }
      }
    }
  }

  predicate CanBeVoided(r: Row) {
    !r.outcome.Block? && !r.outcome.NotMeasurable?
  }

  /** One dependent check is voided, if it can be. */
  function VoidOne(rows: seq<Row>, name: CheckName): seq<Row> {
    var i := IndexOf(rows, name);
    if i < |rows| && CanBeVoided(rows[i]) then WithOutcome(rows, name, Vacuous) else rows
  }

  function VoidedUpTo(rows: seq<Row>, n: nat): seq<Row>
    requires n <= |DEPENDENT_CHECKS|
  {
    if n == 0 then rows else VoidOne(VoidedUpTo(rows, n - 1), DEPENDENT_CHECKS[n - 1])
  }

  function Voided(rows: seq<Row>): seq<Row> {
    VoidedUpTo(rows, |DEPENDENT_CHECKS|)
  }

  // ---- The fold -------------------------------------------------------------------------------------

  lemma {:induction false} NamesAre(rows: seq<Row>, p: Row -> bool, name: CheckName)
    ensures name in Names(rows, p) <==> exists i :: 0 <= i < |rows| && rows[i].name == name && p(rows[i])
  {
    if rows != [] {
      var front := rows[..|rows| - 1];
      NamesAre(front, p, name);
      assert forall i :: 0 <= i < |front| ==> front[i] == rows[i];
      assert rows == front + [rows[|rows| - 1]];
    }
  }

  lemma {:induction false} NamesEmptyIff(rows: seq<Row>, p: Row -> bool)
    ensures Names(rows, p) == [] <==> forall i :: 0 <= i < |rows| ==> !p(rows[i])
  {
    if rows != [] {
      NamesEmptyIff(rows[..|rows| - 1], p);
      assert forall i :: 0 <= i < |rows| - 1 ==> rows[..|rows| - 1][i] == rows[i];
    }
  }

  ghost predicate SomeRow(rows: seq<Row>, p: Row -> bool) {
    exists i :: 0 <= i < |rows| && p(rows[i])
  }

  /** Which rows decide the outcome. */
  lemma {:induction false} OutcomeIff(rows: seq<Row>)
    ensures RoundOutcome(rows) == Block <==> AnyBlock(rows)
    ensures RoundOutcome(rows) == HoldRegression <==> !AnyBlock(rows) && SomeRow(rows, IsMeasured)
    ensures RoundOutcome(rows) == Promote <==>
              forall i :: 0 <= i < |rows| ==> !rows[i].outcome.Block? && !Holds(rows[i]) && !rows[i].outcome.NotMeasurable?
    ensures RoundOutcome(rows) in {Block, HoldRegression, HoldUnmeasurable, Promote}
    ensures ExitCode(RoundOutcome(rows)) == 0 <==> RoundOutcome(rows) == Promote
  {
    NamesEmptyIff(rows, IsMeasured);
    NamesEmptyIff(rows, Holds);
    NamesEmptyIff(rows, (r: Row) => r.outcome.NotMeasurable?);
    assert forall r :: IsMeasured(r) ==> Holds(r);
  }

  /** The one signal an offline round can give: nothing is missing to a promotion but what it cannot measure. */
  lemma {:induction false} ModuloOfflineIff(rows: seq<Row>)
    ensures PromotableModuloOffline(rows) <==> forall i :: 0 <= i < |rows| ==> !rows[i].outcome.Block? && !Holds(rows[i])
    ensures RoundOutcome(rows) == Promote <==> PromotableModuloOffline(rows) && UnsatisfiedPrerequisites(rows) == []
  {
    OutcomeIff(rows);
    NamesEmptyIff(rows, Holds);
    NamesEmptyIff(rows, (r: Row) => r.outcome.NotMeasurable?);
  }

  /** Every reason to hold is either a measured regression or an unmeasured one, never both. */
  lemma {:induction false} HoldReasonsSplit(rows: seq<Row>)
    ensures multiset(HoldReasons(rows)) == multiset(MeasuredRegressions(rows)) + multiset(UnmeasuredHoldReasons(rows))
  {
    if rows != [] {
      HoldReasonsSplit(rows[..|rows| - 1]);
    }
  }

  ghost predicate DistinctNames(rows: seq<Row>) {
    forall i, j :: 0 <= i < j < |rows| ==> rows[i].name != rows[j].name
  }

  lemma {:induction false} HoldReasonsAreDisjoint(rows: seq<Row>, name: CheckName)
    requires DistinctNames(rows)
    ensures name in HoldReasons(rows) <==> name in MeasuredRegressions(rows) || name in UnmeasuredHoldReasons(rows)
    ensures !(name in MeasuredRegressions(rows) && name in UnmeasuredHoldReasons(rows))
  {
    NamesAre(rows, Holds, name);
    NamesAre(rows, IsMeasured, name);
    NamesAre(rows, IsUnmeasured, name);
  }

  // ---- The voiding pass -----------------------------------------------------------------------------

  ghost predicate DependentUpTo(name: CheckName, n: nat)
    requires n <= |DEPENDENT_CHECKS|
  {
    exists k :: 0 <= k < n && DEPENDENT_CHECKS[k] == name
  }

  function VoidedRow(r: Row): Row {
    if r.name in DEPENDENT_CHECKS && CanBeVoided(r) then r.(outcome := Vacuous) else r
  }

  ghost predicate SameNames(a: seq<Row>, b: seq<Row>) {
    |a| == |b| && forall i :: 0 <= i < |a| ==> a[i].name == b[i].name
  }

  lemma {:induction false} VoidOneAt(rows: seq<Row>, name: CheckName, i: nat)
    requires i < |rows| && DistinctNames(rows)
    ensures |VoidOne(rows, name)| == |rows|
    ensures VoidOne(rows, name)[i] ==
              if rows[i].name == name && CanBeVoided(rows[i]) then rows[i].(outcome := Vacuous) else rows[i]
  {
    var k := IndexOf(rows, name);
    assert k < |rows| && k != i ==> rows[k].name != rows[i].name;
  }

  lemma {:induction false} VoidedNames(rows: seq<Row>, n: nat)
    requires n <= |DEPENDENT_CHECKS|
    ensures SameNames(VoidedUpTo(rows, n), rows)
  {
    if n > 0 { VoidedNames(rows, n - 1); }
  }

  lemma {:induction false} VoidedUpToAt(rows: seq<Row>, n: nat, i: nat)
    requires n <= |DEPENDENT_CHECKS| && i < |rows| && DistinctNames(rows)
    ensures |VoidedUpTo(rows, n)| == |rows|
    ensures VoidedUpTo(rows, n)[i] ==
              if DependentUpTo(rows[i].name, n) && CanBeVoided(rows[i]) then rows[i].(outcome := Vacuous) else rows[i]
  {
    if n > 0 {
      var name := DEPENDENT_CHECKS[n - 1];
      VoidedUpToAt(rows, n - 1, i);
      VoidedNames(rows, n - 1);
      VoidOneAt(VoidedUpTo(rows, n - 1), name, i);
      assert DependentUpTo(rows[i].name, n) <==> DependentUpTo(rows[i].name, n - 1) || rows[i].name == name;
    }
  }

  /** The pass, row by row. */
  lemma {:induction false} VoidedAt(rows: seq<Row>, i: nat)
    requires i < |rows| && DistinctNames(rows)
    ensures |Voided(rows)| == |rows| && Voided(rows)[i] == VoidedRow(rows[i])
  {
    VoidedUpToAt(rows, |DEPENDENT_CHECKS|, i);
  }

  lemma {:induction false} VoidedRows(rows: seq<Row>)
    requires DistinctNames(rows)
    ensures |Voided(rows)| == |rows| && forall i :: 0 <= i < |rows| ==> Voided(rows)[i] == VoidedRow(rows[i])
    ensures DistinctNames(Voided(rows))
  {
    if rows != [] { VoidedAt(rows, 0); } else { EmptyStaysEmpty(|DEPENDENT_CHECKS|); }
    forall i | 0 <= i < |rows| ensures Voided(rows)[i] == VoidedRow(rows[i]) { VoidedAt(rows, i); }
  }

  lemma {:induction false} EmptyStaysEmpty(n: nat)
    requires n <= |DEPENDENT_CHECKS|
    ensures VoidedUpTo([], n) == []
  {
    if n > 0 { EmptyStaysEmpty(n - 1); }
  }

  /**
    The pass never clears a BLOCK and never drops a reason to hold; it adds the dependent checks
    it voids, and nothing else.
   */
  lemma {:induction false} VoidingKeepsReasons(rows: seq<Row>, name: CheckName)
    requires DistinctNames(rows)
    ensures AnyBlock(Voided(rows)) <==> AnyBlock(rows)
    ensures name in HoldReasons(Voided(rows)) <==>
              name in HoldReasons(rows) || exists i :: 0 <= i < |rows| && rows[i].name == name && VoidedRow(rows[i]).outcome.Vacuous?
    ensures UnsatisfiedPrerequisites(Voided(rows)) == [] <==> UnsatisfiedPrerequisites(rows) == []
  {
    VoidedRows(rows);
    NamesAre(rows, Holds, name);
    NamesAre(Voided(rows), Holds, name);
    NamesEmptyIff(rows, (r: Row) => r.outcome.NotMeasurable?);
    NamesEmptyIff(Voided(rows), (r: Row) => r.outcome.NotMeasurable?);
    forall i | 0 <= i < |rows| && Holds(rows[i]) ensures Holds(Voided(rows)[i]) {}
  }

  /**
    What the pass can do to the outcome: BLOCK stays, and a measured regression survives exactly when
    it lies outside the dependent checks.
   */
  lemma {:induction false} VoidingChangesOutcomeIff(rows: seq<Row>)
    requires DistinctNames(rows)
    ensures RoundOutcome(Voided(rows)) == Block <==> RoundOutcome(rows) == Block
    ensures RoundOutcome(Voided(rows)) == HoldRegression <==>
              !AnyBlock(rows) && exists i :: 0 <= i < |rows| && IsMeasured(rows[i]) && rows[i].name !in DEPENDENT_CHECKS
    ensures RoundOutcome(Voided(rows)) == Promote ==> RoundOutcome(rows) == Promote
  {
    var v := Voided(rows);
    VoidedRows(rows);
    OutcomeIff(rows);
    OutcomeIff(v);
    VoidingKeepsReasons(rows, TaskCompletion);
    if SomeRow(v, IsMeasured) {
      var i :| 0 <= i < |v| && IsMeasured(v[i]);
      assert v[i] == VoidedRow(rows[i]);
    }
    if i :| 0 <= i < |rows| && IsMeasured(rows[i]) && rows[i].name !in DEPENDENT_CHECKS {
      assert IsMeasured(v[i]);
    }
    if RoundOutcome(v) == Promote {
      forall i | 0 <= i < |rows| ensures !rows[i].outcome.Block? && !Holds(rows[i]) && !rows[i].outcome.NotMeasurable? {
        assert v[i] == VoidedRow(rows[i]);
      }
    }
  }
}
