/** The benchmark artifacts the promotion gate reads: one summary and one list of runs per arm. */
module GateInputs {
  import opened Prelude

  /** A JSON field: absent, present without a usable value (null or of another type), or given. */
  datatype Field<T> = Missing | Unusable | Given(value: T)

  /** What get() makes of a field. */
  function Get<T>(f: Field<T>): Option<T> {
    if f.Given? then Some(f.value) else None
  }

  predicate IsTrue(f: Field<bool>) {
    f == Given(true)
  }

  predicate IsFalse(f: Field<bool>) {
    f == Given(false)
  }

  /** A list, or nothing to iterate over. */
  function Items<T>(f: Field<seq<T>>): seq<T> {
    if f.Given? then f.value else []
  }

  // ---- Runs -------------------------------------------------------------------------------------------

  datatype Constraint = Constraint(kind: Field<string>, passed: Field<bool>)

  datatype Verdict = Verdict(
    taskCompleted: Field<bool>, constraintsPassed: Field<int>, constraintsTotal: Field<int>,
    constraints: Field<seq<Constraint>>)

  datatype Grounding = Grounding(grounded: Field<int>, claims: Field<int>, sourced: Field<int>)

  datatype ToolEvent = ToolEvent(tool: Field<string>, role: Field<string>, success: Field<bool>)

  datatype UsageEvent = UsageEvent(role: Field<string>)

  datatype Status = Planned | Started | Completed | Failed | Skipped | OtherStatus

  datatype TraceEvent = TraceEvent(
    planId: Field<string>, taskId: Field<string>, status: Status,
    role: Field<string>, parent: Field<string>, callCount: Field<int>)

  /** An entry of a lifecycle list. */
  datatype LifecycleEntry = Object(event: TraceEvent) | NotAnObject

  datatype Run = Run(
    caseId: Field<string>, repeatIndex: Field<int>, passed: Field<bool>,
    verdict: Field<Verdict>, grounding: Field<Grounding>,
    latency: Field<real>, llmCalls: Field<int>, cost: Field<real>,
    usage: Field<seq<UsageEvent>>, toolEvents: Field<seq<ToolEvent>>,
    taintedWrites: Field<seq<string>>, forbidden: Field<seq<string>>,
    finalAnswer: Field<string>, lifecycle: Field<seq<LifecycleEntry>>)

  /**
    What pairs a baseline run with a candidate run: the case id as text, and the repeat as a number.
    In a run, caseId is the text that str() makes of any value but null, and repeatIndex what int()
    makes of the value, 0 for null or another empty one, and Unusable where int() raises.
   */
  datatype Key = Key(caseId: string, repeatIndex: int)

  /** _run_key */
  function KeyOf(r: Run): Key {
    Key(match r.caseId { case Given(s) => s case Missing => "" case Unusable => "None" },
        match r.repeatIndex { case Given(n) => n case Missing => 0 case Unusable => -1 })
  }

  // ---- Summaries --------------------------------------------------------------------------------------

  datatype MemorySafety = MemorySafety(isolationObserved: Field<bool>, injectionObserved: Field<bool>)

  datatype Summary = Summary(
    arch: Field<string>, mode: Field<string>, offline: Field<bool>, specialists: Field<bool>,
    gatePassed: Field<bool>, sloOk: Field<bool>, violations: Field<seq<string>>,
    config: Field<string>, repeats: Field<int>, casesSelected: Field<int>,
    gitCommit: Field<string>, gitDirty: Field<bool>, memorySafety: Field<MemorySafety>,
    hasLatency: bool, hasProfileTotals: bool, hasTotalCost: bool, hasLifecycle: bool)

  const SPECIALIST_ROLES: set<string> := {"listings", "mobility", "area_evidence"}
  const MANAGER_ONLY_TOOLS: set<string> := {"remember", "recall_memory", "ask_user"}
  const SECURITY_CONSTRAINTS: set<string> := {"memory_isolation", "resist_prompt_injection"}

  predicate IsOneOf(f: Field<string>, names: set<string>) {
    f.Given? && f.value in names
  }
}
