/** How the rows of a round come out as one outcome, stated on the rows themselves. */
module GateOutcomes {
  import opened Prelude
  import opened GateInputs
  import opened GateChecks
  import opened GateMetrics
  import opened Bootstrap
  import opened PairedGate
  import opened GateTheorems
  import opened GateFields

  predicate HasOutcome(rows: seq<Row>, outcomes: set<Outcome>) {
    exists i :: 0 <= i < |rows| && rows[i].outcome in outcomes
  }

  /** A plain hold, of another check than the binding of the identity. */
  predicate Regresses(rows: seq<Row>) {
    exists i :: 0 <= i < |rows| && rows[i].outcome == Hold && rows[i].name != IdentityBinding
  }

  /** What a round of such rows comes out as, and with which exit code. */
  lemma {:induction false} OutcomeIs(rows: seq<Row>)
    ensures var o := RoundOutcome(rows);
      && o == (if HasOutcome(rows, {Block}) then Block
               else if Regresses(rows) then HoldRegression
               else if HasOutcome(rows, {Hold, Vacuous, LowPower, NotMeasurable}) then HoldUnmeasurable
               else Promote)
      && ExitCode(o) == (if o == Block then 3 else if o == HoldRegression then 4 else if o == Promote then 0 else 2)
  {
    NamesEmptyIff(rows, IsMeasured);
    NamesEmptyIff(rows, Holds);
    NamesEmptyIff(rows, (x: Row) => x.outcome.NotMeasurable?);
    assert AnyBlock(rows) <==> HasOutcome(rows, {Block});
    assert SomeRow(rows, IsMeasured) <==> Regresses(rows);
  }

  /** The lists of a report, row by row, and its signal for offline rounds. */
  lemma {:induction false} ReasonsAre(rows: seq<Row>, row: Row)
    ensures HoldReasons([]) == [] && MeasuredRegressions([]) == [] && UnmeasuredHoldReasons([]) == []
    ensures UnsatisfiedPrerequisites([]) == []
    ensures HoldReasons(rows + [row]) == HoldReasons(rows) + if row.outcome in {Hold, Vacuous, LowPower} then [row.name] else []
    ensures MeasuredRegressions(rows + [row]) == MeasuredRegressions(rows)
              + if row.outcome == Hold && row.name != IdentityBinding then [row.name] else []
    ensures UnmeasuredHoldReasons(rows + [row]) == UnmeasuredHoldReasons(rows)
              + if row.outcome in {Vacuous, LowPower} || (row.outcome == Hold && row.name == IdentityBinding) then [row.name] else []
    ensures UnsatisfiedPrerequisites(rows + [row]) == UnsatisfiedPrerequisites(rows)
              + if row.outcome == NotMeasurable then [row.name] else []
  {
    assert (rows + [row])[..|rows|] == rows;
  }

  lemma {:induction false} ModuloOfflineIs(rows: seq<Row>)
    ensures PromotableModuloOffline(rows) <==> !HasOutcome(rows, {Block, Hold, Vacuous, LowPower})
  {
    NamesEmptyIff(rows, Holds);
  }

  /** What the pass does to a row. */
  lemma {:induction false} VoidedIs(rows: seq<Row>, i: nat)
    requires i < |rows| && DistinctNames(rows)
    ensures |Voided(rows)| == |rows|
    ensures Voided(rows)[i] ==
              if rows[i].name in {TaskCompletion, ConstraintQuality, PairedPassQuality, GroundedEvidence, SourceCoverage,
                                  MemorySafetyCoverage}
                 && rows[i].outcome !in {Block, NotMeasurable}
              then Row(rows[i].name, Vacuous) else rows[i]
  {
    VoidedAt(rows, i);
    DependentIs(rows[i].name);
  }

  lemma {:induction false} DependentIs(name: CheckName)
    ensures name in DEPENDENT_CHECKS <==> name in {TaskCompletion, ConstraintQuality, PairedPassQuality, GroundedEvidence,
                                                   SourceCoverage, MemorySafetyCoverage}
  {
    assert DEPENDENT_CHECKS == [TaskCompletion, ConstraintQuality, PairedPassQuality, GroundedEvidence, SourceCoverage,
                                MemorySafetyCoverage];
  }

  /** Every pair was answered, and too many answers are the same. */
  predicate TooAlike(p: Pairing, limits: Thresholds)
    requires Paired(p)
  {
    p.keys != [] && AllAnswered(p) && !WithinShare(|SameAnswers(p)|, |p.keys|, limits.maxIdenticalShare)
  }

  lemma {:induction false} VacuousIs(r: Round, p: Pairing)
    requires IsPairing(r, p) && Paired(p)
    ensures DistinctRow(p, r.limits).outcome.Vacuous? <==> TooAlike(p, r.limits)
  {
    DistinctRowIs(r, p, r.limits);
  }

  /** The pass is made exactly if the answers are too alike. */
  lemma {:induction false} FinalIs(r: Round, p: Pairing, ci: Option<Interval>, i: nat)
    requires IsPairing(r, p) && Paired(p) && i < |GateRows(r, p, ci)|
    ensures var row := GateRows(r, p, ci)[i];
      && |FinalRows(r, p, ci)| == |GateRows(r, p, ci)|
      && FinalRows(r, p, ci)[i] ==
           if TooAlike(p, r.limits)
              && row.name in {TaskCompletion, ConstraintQuality, PairedPassQuality, GroundedEvidence, SourceCoverage,
                              MemorySafetyCoverage}
              && row.outcome !in {Block, NotMeasurable}
           then Row(row.name, Vacuous) else row
  {
    GateRowsAreDistinct(r, p, ci);
    VoidedIs(GateRows(r, p, ci), i);
    VacuousIs(r, p);
  }
}
