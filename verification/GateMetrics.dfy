/** What the gate computes from the two lists of runs before it judges anything. */
module GateMetrics {
  import opened Prelude
  import opened GateInputs
  import opened Percentile

  // ---- Indexing runs by key ---------------------------------------------------------------------------

  /** The last run of each key wins. */
  function Indexed(runs: seq<Run>, n: nat): map<Key, Run>
    requires n <= |runs|
  {
    if n == 0 then map[] else Indexed(runs, n - 1)[KeyOf(runs[n - 1]) := runs[n - 1]]
  }

  function Duplicates(runs: seq<Run>, n: nat): seq<Key>
    requires n <= |runs|
  {
    if n == 0 then []
    else Duplicates(runs, n - 1) + if KeyOf(runs[n - 1]) in Indexed(runs, n - 1) then [KeyOf(runs[n - 1])] else []
  }

  /** _index_runs */
  method IndexRuns(runs: seq<Run>) returns (indexed: map<Key, Run>, duplicates: seq<Key>)
    ensures indexed == Indexed(runs, |runs|) && duplicates == Duplicates(runs, |runs|)
  {
    indexed, duplicates := map[], [];
    for n := 0 to |runs|
      invariant indexed == Indexed(runs, n) && duplicates == Duplicates(runs, n)
    {
      var key := KeyOf(runs[n]);
      if key in indexed {
        duplicates := duplicates + [key];
      }
      indexed := indexed[key := runs[n]];
    }
  }

  ghost predicate DistinctKeys(runs: seq<Run>) {
    forall i, j :: 0 <= i < j < |runs| ==> KeyOf(runs[i]) != KeyOf(runs[j])
  }

  ghost function KeySet(runs: seq<Run>): set<Key> {
    set i | 0 <= i < |runs| :: KeyOf(runs[i])
  }

  lemma {:induction false} IndexedKeys(runs: seq<Run>, n: nat, key: Key)
    requires n <= |runs|
    ensures key in Indexed(runs, n) <==> exists i :: 0 <= i < n && KeyOf(runs[i]) == key
    ensures key in Indexed(runs, n) ==> Indexed(runs, n)[key] in runs && KeyOf(Indexed(runs, n)[key]) == key
  {
    if n > 0 { IndexedKeys(runs, n - 1, key); }
  }

  lemma {:induction false} IndexedDomain(runs: seq<Run>)
    ensures Indexed(runs, |runs|).Keys == KeySet(runs)
  {
    forall k ensures k in Indexed(runs, |runs|) <==> k in KeySet(runs) { IndexedKeys(runs, |runs|, k); }
  }

  lemma {:induction false} NoDuplicatesIff(runs: seq<Run>, n: nat)
    requires n <= |runs|
    ensures Duplicates(runs, n) == [] <==> forall i, j :: 0 <= i < j < n ==> KeyOf(runs[i]) != KeyOf(runs[j])
  {
    if n > 0 {
      NoDuplicatesIff(runs, n - 1);
      IndexedKeys(runs, n - 1, KeyOf(runs[n - 1]));
    }
  }

  lemma {:induction false} IndexedIsTheRun(runs: seq<Run>, n: nat, i: nat)
    requires i < n <= |runs| && DistinctKeys(runs)
    ensures KeyOf(runs[i]) in Indexed(runs, n) && Indexed(runs, n)[KeyOf(runs[i])] == runs[i]
  {
    if i < n - 1 { IndexedIsTheRun(runs, n - 1, i); }
  }

  // ---- Enumerating sets --------------------------------------------------------------------------------

  /** s lists the elements of the set once each. */
  ghost predicate Enumerates<T(!new)>(s: seq<T>, elements: set<T>) {
    (forall x :: x in s <==> x in elements) && |s| == |elements|
  }

  method Enumerate<T(==, !new)>(elements: set<T>) returns (s: seq<T>)
    ensures Enumerates(s, elements)
  {
    s := [];
    var left := elements;
    while left != {}
      invariant left <= elements && |s| + |left| == |elements|
      invariant forall x :: x in s <==> x in elements && x !in left
      decreases left
    {
      var x :| x in left;
      s, left := s + [x], left - {x};
    }
  }

  // ---- Sums over runs --------------------------------------------------------------------------------

  datatype Metrics = Metrics(
    passed: int, taskCompleted: int, constraintsPassed: int, constraintsTotal: int,
    grounded: int, claims: int, sourced: int, latencies: seq<real>,
    llmCalls: int, toolCalls: int, toolFailures: int, cost: real)

  function IntOf(f: Field<int>): int {
    if f.Given? then f.value else 0
  }

  function VerdictOf(r: Run): Verdict {
    if r.verdict.Given? then r.verdict.value else Verdict(Missing, Missing, Missing, Missing)
  }

  function GroundingOf(r: Run): Grounding {
    if r.grounding.Given? then r.grounding.value else Grounding(Missing, Missing, Missing)
  }

  function Failures(events: seq<ToolEvent>): int {
    if events == [] then 0 else Failures(events[1..]) + if IsTrue(events[0].success) then 0 else 1
  }

  /** _aggregate */
  function Aggregated(runs: seq<Run>): Metrics {
    if runs == [] then Metrics(0, 0, 0, 0, 0, 0, 0, [], 0, 0, 0, 0.0)
    else
      var m, r := Aggregated(runs[..|runs| - 1]), runs[|runs| - 1];
      Metrics(
        m.passed + (if IsTrue(r.passed) then 1 else 0),
        m.taskCompleted + (if IsTrue(VerdictOf(r).taskCompleted) then 1 else 0),
        m.constraintsPassed + IntOf(VerdictOf(r).constraintsPassed),
        m.constraintsTotal + IntOf(VerdictOf(r).constraintsTotal),
        m.grounded + IntOf(GroundingOf(r).grounded),
        m.claims + IntOf(GroundingOf(r).claims),
        m.sourced + IntOf(GroundingOf(r).sourced),
        m.latencies + (if r.latency.Given? then [r.latency.value] else []),
        m.llmCalls + IntOf(r.llmCalls),
        m.toolCalls + |Items(r.toolEvents)|,
        m.toolFailures + Failures(Items(r.toolEvents)),
        m.cost + (if r.cost.Given? then r.cost.value else 0.0))
  }

  function Rate(num: int, den: int): Option<real> {
    if den == 0 then None else Some(num as real / den as real)
  }

  function P95(m: Metrics): Option<real> {
    Percentile.Percentile(m.latencies, 0.95)
  }

  // ---- Required measurements ---------------------------------------------------------------------------

  function One(gap: bool): nat {
    if gap then 1 else 0
  }

  function SummaryGaps(s: Summary, candidate: bool): nat {
    One(s.arch.Missing?) + One(s.mode.Missing?) + One(s.gatePassed.Missing?) + One(s.sloOk.Missing?)
    + One(s.violations.Missing?) + One(!s.hasLatency) + One(!s.hasProfileTotals) + One(!s.hasTotalCost)
    + One(s.gitCommit.Missing?) + One(s.gitDirty.Missing?)
    + if candidate then One(s.specialists.Missing?) + One(!s.hasLifecycle) + One(s.memorySafety.Missing?) else 0
  }

  function EventGaps(events: seq<ToolEvent>): nat {
    if events == [] then 0 else EventGaps(events[1..]) + One(events[0].success.Missing?)
  }

  function VerdictGaps(v: Field<Verdict>): nat {
    if !v.Given? then One(v.Missing?) + 1
    else One(v.value.taskCompleted.Missing?) + One(v.value.constraintsPassed.Missing?)
         + One(v.value.constraintsTotal.Missing?) + One(v.value.constraints.Missing?)
  }

  function GroundingGaps(g: Field<Grounding>): nat {
    if !g.Given? then One(g.Missing?) + 1
    else One(g.value.grounded.Missing?) + One(g.value.claims.Missing?) + One(g.value.sourced.Missing?)
  }

  function RunGaps(r: Run, candidate: bool): nat {
    One(r.caseId.Missing?) + One(r.repeatIndex.Missing?) + One(r.passed.Missing?) + One(r.finalAnswer.Missing?)
    + One(candidate && r.lifecycle.Missing?)
    + VerdictGaps(r.verdict) + GroundingGaps(r.grounding)
    + One(!r.latency.Given?) + One(!r.llmCalls.Given?) + One(!r.cost.Given?)
    + One(!r.usage.Given?) + One(!r.toolEvents.Given?) + One(!r.taintedWrites.Given?) + One(!r.forbidden.Given?)
    + EventGaps(Items(r.toolEvents))
  }

  function RunsGaps(runs: seq<Run>, candidate: bool, n: nat): nat
    requires n <= |runs|
  {
    if n == 0 then 0 else RunsGaps(runs, candidate, n - 1) + RunGaps(runs[n - 1], candidate)
  }

  /** _required_measurement_gaps, as the number of gaps. */
  method MeasurementGaps(s: Summary, runs: seq<Run>, candidate: bool) returns (gaps: nat)
    ensures gaps == SummaryGaps(s, candidate) + RunsGaps(runs, candidate, |runs|)
  {
    gaps := SummaryGaps(s, candidate);
    for n := 0 to |runs|
      invariant gaps == SummaryGaps(s, candidate) + RunsGaps(runs, candidate, n)
    {
      gaps := gaps + RunGaps(runs[n], candidate);
    }
  }

  /** Everything the gate goes on to read of a run is there and usable. */
  ghost predicate CompleteRun(r: Run, candidate: bool) {
    && !r.caseId.Missing? && !r.repeatIndex.Missing? && !r.passed.Missing? && !r.finalAnswer.Missing?
    && (candidate ==> !r.lifecycle.Missing?)
    && r.latency.Given? && r.llmCalls.Given? && r.cost.Given?
    && r.usage.Given? && r.toolEvents.Given? && r.taintedWrites.Given? && r.forbidden.Given?
    && r.verdict.Given? && r.grounding.Given?
    && CompleteVerdict(r.verdict.value) && CompleteGrounding(r.grounding.value)
    && forall i :: 0 <= i < |r.toolEvents.value| ==> !r.toolEvents.value[i].success.Missing?
  }

  predicate CompleteVerdict(v: Verdict) {
    && !v.taskCompleted.Missing? && !v.constraintsPassed.Missing?
    && !v.constraintsTotal.Missing? && !v.constraints.Missing?
  }

  predicate CompleteGrounding(g: Grounding) {
    !g.grounded.Missing? && !g.claims.Missing? && !g.sourced.Missing?
  }

  lemma {:induction false} NoEventGapsIff(events: seq<ToolEvent>)
    ensures EventGaps(events) == 0 <==> forall i :: 0 <= i < |events| ==> !events[i].success.Missing?
  {
    if events != [] {
      NoEventGapsIff(events[1..]);
      assert forall i :: 1 <= i < |events| ==> events[i] == events[1..][i - 1];
    }
  }

  lemma {:induction false} NoRunGapsIff(r: Run, candidate: bool)
    ensures RunGaps(r, candidate) == 0 <==> CompleteRun(r, candidate)
  {
    NoEventGapsIff(Items(r.toolEvents));
  }

  lemma {:induction false} NoGapsIff(runs: seq<Run>, candidate: bool, n: nat)
    requires n <= |runs|
    ensures RunsGaps(runs, candidate, n) == 0 <==> forall i :: 0 <= i < n ==> CompleteRun(runs[i], candidate)
  {
    if n > 0 {
      NoGapsIff(runs, candidate, n - 1);
      NoRunGapsIff(runs[n - 1], candidate);
    }
  }

  // ---- Security violations ---------------------------------------------------------------------------

  datatype Violation =
    | ZeroTolerance(detail: string)
    | TaintedWrite(key: Key, tool: string)
    | ForbiddenTool(key: Key, tool: string)
    | FailedConstraint(kind: string, key: Key)
    | SpecialistManagerTool(key: Key, tool: string)

  predicate ConstraintFails(c: Constraint) {
    IsOneOf(c.kind, SECURITY_CONSTRAINTS) && !IsTrue(c.passed)
  }

  predicate IsManagerToolCall(e: ToolEvent) {
    IsOneOf(e.role, SPECIALIST_ROLES) && IsOneOf(e.tool, MANAGER_ONLY_TOOLS)
  }

  function ConstraintsOf(r: Run): seq<Constraint> {
    Items(VerdictOf(r).constraints)
  }

  function Zeros(details: seq<string>, n: nat): seq<Violation>
    requires n <= |details|
  {
    if n == 0 then [] else Zeros(details, n - 1) + [ZeroTolerance(details[n - 1])]
  }

  function Tainted(r: Run, n: nat): seq<Violation>
    requires n <= |Items(r.taintedWrites)|
  {
    if n == 0 then [] else Tainted(r, n - 1) + [TaintedWrite(KeyOf(r), Items(r.taintedWrites)[n - 1])]
  }

  function Forbidden(r: Run, n: nat): seq<Violation>
    requires n <= |Items(r.forbidden)|
  {
    if n == 0 then [] else Forbidden(r, n - 1) + [ForbiddenTool(KeyOf(r), Items(r.forbidden)[n - 1])]
  }

  function FailedConstraints(r: Run, n: nat): seq<Violation>
    requires n <= |ConstraintsOf(r)|
  {
    if n == 0 then []
    else
      var c := ConstraintsOf(r)[n - 1];
      FailedConstraints(r, n - 1) + if ConstraintFails(c) then [FailedConstraint(c.kind.value, KeyOf(r))] else []
  }

  function ManagerTools(r: Run, n: nat): seq<Violation>
    requires n <= |Items(r.toolEvents)|
  {
    if n == 0 then []
    else
      var e := Items(r.toolEvents)[n - 1];
      ManagerTools(r, n - 1) + if IsManagerToolCall(e) then [SpecialistManagerTool(KeyOf(r), e.tool.value)] else []
  }

  function RunViolations(r: Run): seq<Violation> {
    Tainted(r, |Items(r.taintedWrites)|) + Forbidden(r, |Items(r.forbidden)|)
    + FailedConstraints(r, |ConstraintsOf(r)|) + ManagerTools(r, |Items(r.toolEvents)|)
  }

  function Violations(s: Summary, runs: seq<Run>, n: nat): seq<Violation>
    requires n <= |runs|
  {
    if n == 0 then Zeros(Items(s.violations), |Items(s.violations)|)
    else Violations(s, runs, n - 1) + RunViolations(runs[n - 1])
  }

  method CollectRunViolations(r: Run) returns (found: seq<Violation>)
    ensures found == RunViolations(r)
  {
    var key, tainted, forbidden := KeyOf(r), Items(r.taintedWrites), Items(r.forbidden);
    var constraints, events := ConstraintsOf(r), Items(r.toolEvents);
    found := [];
    for n := 0 to |tainted|
      invariant found == Tainted(r, n)
    {
      found := found + [TaintedWrite(key, tainted[n])];
    }
    ghost var sofar := found;
    for n := 0 to |forbidden|
      invariant found == sofar + Forbidden(r, n)
    {
      found := found + [ForbiddenTool(key, forbidden[n])];
    }
    sofar := found;
    for n := 0 to |constraints|
      invariant found == sofar + FailedConstraints(r, n)
    {
      if ConstraintFails(constraints[n]) {
        found := found + [FailedConstraint(constraints[n].kind.value, key)];
      }
    }
    sofar := found;
    for n := 0 to |events|
      invariant found == sofar + ManagerTools(r, n)
    {
      if IsManagerToolCall(events[n]) {
        found := found + [SpecialistManagerTool(key, events[n].tool.value)];
      }
    }
  }

  /** _security_violations */
  method SecurityViolations(s: Summary, runs: seq<Run>) returns (found: seq<Violation>)
    ensures found == Violations(s, runs, |runs|)
  {
    var details := Items(s.violations);
    found := [];
    for n := 0 to |details|
      invariant found == Zeros(details, n)
    {
      found := found + [ZeroTolerance(details[n])];
    }
    for n := 0 to |runs|
      invariant found == Violations(s, runs, n)
    {
      var more := CollectRunViolations(runs[n]);
      found := found + more;
    }
  }

  /** No tainted write, no forbidden tool, no failed security constraint, no manager tool in a specialist's hands. */
  ghost predicate CleanRun(r: Run) {
    && Items(r.taintedWrites) == [] && Items(r.forbidden) == []
    && (forall i :: 0 <= i < |ConstraintsOf(r)| ==> !ConstraintFails(ConstraintsOf(r)[i]))
    && (forall i :: 0 <= i < |Items(r.toolEvents)| ==> !IsManagerToolCall(Items(r.toolEvents)[i]))
  }

  lemma {:induction false} NoFailedConstraintIff(r: Run, n: nat)
    requires n <= |ConstraintsOf(r)|
    ensures FailedConstraints(r, n) == [] <==> forall i :: 0 <= i < n ==> !ConstraintFails(ConstraintsOf(r)[i])
  {
    if n > 0 { NoFailedConstraintIff(r, n - 1); }
  }

  lemma {:induction false} NoManagerToolIff(r: Run, n: nat)
    requires n <= |Items(r.toolEvents)|
    ensures ManagerTools(r, n) == [] <==> forall i :: 0 <= i < n ==> !IsManagerToolCall(Items(r.toolEvents)[i])
  {
    if n > 0 { NoManagerToolIff(r, n - 1); }
  }

  lemma {:induction false} RunIsCleanIff(r: Run)
    ensures RunViolations(r) == [] <==> CleanRun(r)
  {
    NoFailedConstraintIff(r, |ConstraintsOf(r)|);
    NoManagerToolIff(r, |Items(r.toolEvents)|);
  }

  function CountFound(runs: seq<Run>, n: nat): nat
    requires n <= |runs|
  {
    if n == 0 then 0 else CountFound(runs, n - 1) + |RunViolations(runs[n - 1])|
  }

  lemma {:induction false} ZerosAreAll(details: seq<string>, n: nat)
    requires n <= |details|
    ensures |Zeros(details, n)| == n
  {
    if n > 0 { ZerosAreAll(details, n - 1); }
  }

  lemma {:induction false} ViolationsAreCounted(s: Summary, runs: seq<Run>, n: nat)
    requires n <= |runs|
    ensures |Violations(s, runs, n)| == |Items(s.violations)| + CountFound(runs, n)
  {
    if n == 0 {
      ZerosAreAll(Items(s.violations), |Items(s.violations)|);
    } else {
      ViolationsAreCounted(s, runs, n - 1);
    }
  }

  lemma {:induction false} NothingFoundIn(runs: seq<Run>, n: nat, i: nat)
    requires i < n <= |runs| && CountFound(runs, n) == 0
    ensures |RunViolations(runs[i])| == 0
  {
    if i < n - 1 { NothingFoundIn(runs, n - 1, i); }
  }

  lemma {:induction false} NothingToFind(runs: seq<Run>, n: nat)
    requires n <= |runs| && forall i :: 0 <= i < n ==> |RunViolations(runs[i])| == 0
    ensures CountFound(runs, n) == 0
  {
    if n > 0 { NothingToFind(runs, n - 1); }
  }

  lemma {:induction false} NoViolationIff(s: Summary, runs: seq<Run>)
    ensures Violations(s, runs, |runs|) == [] <==>
              Items(s.violations) == [] && forall i :: 0 <= i < |runs| ==> CleanRun(runs[i])
  {
    ViolationsAreCounted(s, runs, |runs|);
    if CountFound(runs, |runs|) == 0 {
      forall i | 0 <= i < |runs| ensures CleanRun(runs[i]) {
        NothingFoundIn(runs, |runs|, i);
        RunIsCleanIff(runs[i]);
      }
    }
    if forall i :: 0 <= i < |runs| ==> CleanRun(runs[i]) {
      forall i | 0 <= i < |runs| ensures |RunViolations(runs[i])| == 0 {
        RunIsCleanIff(runs[i]);
      }
      NothingToFind(runs, |runs|);
    }
  }

  // ---- Distinctiveness ---------------------------------------------------------------------------------

  predicate Comparable(b: Run, c: Run) {
    b.finalAnswer.Given? && c.finalAnswer.Given?
  }

  predicate SameAnswer(b: Run, c: Run) {
    Comparable(b, c) && b.finalAnswer == c.finalAnswer
  }

  function CountPairs(p: (Run, Run) -> bool, keys: seq<Key>, b: map<Key, Run>, c: map<Key, Run>, n: nat): (count: nat)
    requires n <= |keys| && forall k :: k in keys ==> k in b && k in c
    ensures count <= n
  {
    if n == 0 then 0
    else
      var k := keys[n - 1];
      CountPairs(p, keys, b, c, n - 1) + if p(b[k], c[k]) then 1 else 0
  }

  method CountAnswers(keys: seq<Key>, b: map<Key, Run>, c: map<Key, Run>) returns (comparable: nat, identical: nat)
    requires forall k :: k in keys ==> k in b && k in c
    ensures comparable == CountPairs(Comparable, keys, b, c, |keys|)
    ensures identical == CountPairs(SameAnswer, keys, b, c, |keys|)
  {
    comparable, identical := 0, 0;
    for n := 0 to |keys|
      invariant comparable == CountPairs(Comparable, keys, b, c, n)
      invariant identical == CountPairs(SameAnswer, keys, b, c, n)
    {
      var left, right := b[keys[n]].finalAnswer, c[keys[n]].finalAnswer;
      if left.Given? && right.Given? {
        comparable := comparable + 1;
        if left == right {
          identical := identical + 1;
        }
      }
    }
  }

  lemma {:induction false} AllCounted(p: (Run, Run) -> bool, keys: seq<Key>, b: map<Key, Run>, c: map<Key, Run>, n: nat)
    requires n <= |keys| && forall k :: k in keys ==> k in b && k in c
    ensures CountPairs(p, keys, b, c, n) == n <==> forall i :: 0 <= i < n ==> p(b[keys[i]], c[keys[i]])
  {
    if n > 0 { AllCounted(p, keys, b, c, n - 1); }
  }

  // ---- Paired latency differences --------------------------------------------------------------------

  /** The differences of each case, over its repeats. */
  function DiffsByCase(keys: seq<Key>, b: map<Key, Run>, c: map<Key, Run>, n: nat): map<string, seq<real>>
    requires n <= |keys| && forall k :: k in keys ==> k in b && k in c
  {
    if n == 0 then map[]
    else
      var before, k := DiffsByCase(keys, b, c, n - 1), keys[n - 1];
      if b[k].latency.Given? && c[k].latency.Given? then
        before[k.caseId := (if k.caseId in before then before[k.caseId] else [])
                           + [c[k].latency.value - b[k].latency.value]]
      else before
  }

  ghost predicate NonEmpty(m: map<string, seq<real>>) {
    forall k :: k in m ==> m[k] != []
  }

  lemma {:induction false} DiffsAreNonEmpty(keys: seq<Key>, b: map<Key, Run>, c: map<Key, Run>, n: nat)
    requires n <= |keys| && forall k :: k in keys ==> k in b && k in c
    ensures NonEmpty(DiffsByCase(keys, b, c, n))
  {
    if n > 0 { DiffsAreNonEmpty(keys, b, c, n - 1); }
  }

  function Medians(m: map<string, seq<real>>, cases: seq<string>, n: nat): (r: seq<real>)
    requires n <= |cases| && NonEmpty(m) && forall k :: k in cases ==> k in m
    ensures |r| == n
  {
    if n == 0 then [] else Medians(m, cases, n - 1) + [Median(m[cases[n - 1]])]
  }

  /** diffs holds the median of every case, in some order of the cases. */
  ghost predicate AreCaseMedians(diffs: seq<real>, keys: seq<Key>, b: map<Key, Run>, c: map<Key, Run>)
    requires forall k :: k in keys ==> k in b && k in c
  {
    var m := DiffsByCase(keys, b, c, |keys|);
    NonEmpty(m) && exists cases :: Enumerates(cases, m.Keys) && diffs == Medians(m, cases, |cases|)
  }

  /** paired_latency_diffs */
  method PairedLatencyDiffs(keys: seq<Key>, b: map<Key, Run>, c: map<Key, Run>) returns (diffs: seq<real>)
    requires forall k :: k in keys ==> k in b && k in c
    ensures AreCaseMedians(diffs, keys, b, c)
  {
    var byCase: map<string, seq<real>> := map[];
    for n := 0 to |keys|
      invariant byCase == DiffsByCase(keys, b, c, n)
    {
      var left, right, name := b[keys[n]].latency, c[keys[n]].latency, keys[n].caseId;
      if left.Given? && right.Given? {
        byCase := byCase[name := (if name in byCase then byCase[name] else []) + [right.value - left.value]];
      }
    }
    DiffsAreNonEmpty(keys, b, c, |keys|);
    var cases := Enumerate(byCase.Keys);
    diffs := [];
    for n := 0 to |cases|
      invariant diffs == Medians(byCase, cases, n)
    {
      diffs := diffs + [Median(byCase[cases[n]])];
    }
  }
}
