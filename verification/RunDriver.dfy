/** The run loops of the benchmark and of the ablation: one cost cap, a checkpoint, and resuming. */
module RunDriver {
  /** case_id, repeat and configuration name: what a run is known by. */
  datatype RunId = RunId(caseId: string, repeatIndex: nat, config: string)

  /** What a run turns out to be: its cost, and whether the provider refused the credentials. */
  datatype Outcomes = Outcomes(cost: RunId -> real, refused: RunId -> bool)

  datatype Settings = Settings(live: bool, cap: real, stopsOnRefusal: bool)

  /** log and spent: the runs executed, in order, and their costs; done, cost and completed: the checkpoint. */
  datatype State = State(
    log: seq<RunId>, spent: seq<real>, done: set<RunId>, cost: real, completed: nat, stopped: bool)

  const START: State := State([], [], {}, 0.0, 0, false)

  /** A live run is not started when the average so far says it could go over the cap. */
  predicate CannotAfford(s: State, g: Settings) {
    g.live && s.completed > 0 && s.cost + s.cost / s.completed as real > g.cap
  }

  /** The state after one unit of the plan. */
  function Step(s: State, id: RunId, g: Settings, o: Outcomes): State {
    if s.stopped || id in s.done then s
    else if CannotAfford(s, g) then s.(stopped := true)
    else
      var cost := s.cost + o.cost(id);
      State(s.log + [id], s.spent + [o.cost(id)], s.done + {id}, cost, s.completed + 1,
            (g.live && g.stopsOnRefusal && o.refused(id)) || cost > g.cap)
  }

  lemma {:induction false} ProjectionIff(cost: real, n: real, cap: real)
    requires n > 0.0
    ensures cost + cost / n > cap <==> cost * (n + 1.0) > cap * n
  {
    assert cost / n * n == cost;
    assert (cost + cost / n) * n == cost * (n + 1.0);
    if cost + cost / n > cap {
      assert (cost + cost / n - cap) * n > 0.0;
    } else {
      assert (cap - (cost + cost / n)) * n >= 0.0;
    }
  }

  /**
    What becomes of a unit that is not done: it is executed exactly if the mode is offline, nothing
    was executed yet, or one more run at the average cost so far stays within the cap. An executed
    unit stops the run exactly if it was refused and that matters, or the cap is exceeded; one that
    is not executed always does, and changes nothing else.
   */
  lemma {:induction false} UnitIs(s: State, id: RunId, g: Settings, o: Outcomes)
    requires !s.stopped && id !in s.done
    ensures var t := Step(s, id, g, o);
      if !g.live || s.completed == 0 || s.cost * (s.completed as real + 1.0) <= g.cap * s.completed as real then
        && t.log == s.log + [id] && t.spent == s.spent + [o.cost(id)] && t.done == s.done + {id}
        && t.cost == s.cost + o.cost(id) && t.completed == s.completed + 1
        && (t.stopped <==> (g.live && g.stopsOnRefusal && o.refused(id)) || s.cost + o.cost(id) > g.cap)
      else
        t.log == s.log && t.spent == s.spent && t.done == s.done && t.cost == s.cost && t.completed == s.completed && t.stopped
  {
    if s.completed > 0 {
      ProjectionIff(s.cost, s.completed as real, g.cap);
    }
  }

  /** A unit that is done, or any unit after a stop, changes nothing. */
  lemma {:induction false} NothingToDo(s: State, id: RunId, g: Settings, o: Outcomes)
    requires s.stopped || id in s.done
    ensures Step(s, id, g, o) == s
  {
  }

  function RunAll(s: State, plan: seq<RunId>, g: Settings, o: Outcomes): State {
    if plan == [] then s
    else Step(RunAll(s, plan[..|plan| - 1], g, o), plan[|plan| - 1], g, o)
  }

  /** What a resumed run starts from. */
  function Resume(s: State): State {
    s.(stopped := false)
  }

  lemma {:induction false} RunAllSplits(s: State, a: seq<RunId>, b: seq<RunId>, g: Settings, o: Outcomes)
    ensures RunAll(s, a + b, g, o) == RunAll(RunAll(s, a, g, o), b, g, o)
    decreases |b|
  {
    if b == [] {
      assert a + b == a;
    } else {
      assert (a + b)[..|a + b| - 1] == a + b[..|b| - 1];
      RunAllSplits(s, a, b[..|b| - 1], g, o);
    }
  }

  /** Nothing starts after a stop. */
  lemma {:induction false} NothingAfterStop(s: State, plan: seq<RunId>, g: Settings, o: Outcomes)
    requires s.stopped
    ensures RunAll(s, plan, g, o) == s
    decreases |plan|
  {
    if plan != [] { NothingAfterStop(s, plan[..|plan| - 1], g, o); }
  }

  // ---- Plans -------------------------------------------------------------------------------------------

  function CasesOf(cases: seq<string>, r: nat, config: string, n: nat): (plan: seq<RunId>)
    requires n <= |cases|
    ensures |plan| == n
  {
    if n == 0 then [] else CasesOf(cases, r, config, n - 1) + [RunId(cases[n - 1], r, config)]
  }

  /** Repeats 1 to n, each over all cases. */
  function PlanOf(cases: seq<string>, config: string, n: nat): seq<RunId> {
    if n == 0 then [] else PlanOf(cases, config, n - 1) + CasesOf(cases, n, config, |cases|)
  }

  function StudyPlan(cases: seq<string>, configs: seq<string>, repeats: nat): seq<RunId> {
    if configs == [] then []
    else StudyPlan(cases, configs[..|configs| - 1], repeats) + PlanOf(cases, configs[|configs| - 1], repeats)
  }

  lemma {:induction false} CasesAt(cases: seq<string>, r: nat, config: string, n: nat, k: nat)
    requires k < n <= |cases|
    ensures CasesOf(cases, r, config, n)[k] == RunId(cases[k], r, config)
  {
    if k < n - 1 { CasesAt(cases, r, config, n - 1, k); }
  }

  lemma {:induction false} PlanLength(cases: seq<string>, config: string, n: nat)
    ensures |PlanOf(cases, config, n)| == n * |cases|
  {
    if n > 0 { PlanLength(cases, config, n - 1); }
  }

  /** The order of a plan: repeat r, counted from 1, starts after the cases of the r - 1 repeats before it. */
  lemma {:induction false} PlanAt(cases: seq<string>, config: string, n: nat, r: nat, k: nat)
    requires 1 <= r <= n && k < |cases|
    ensures |PlanOf(cases, config, n)| == n * |cases|
    ensures 0 <= (r - 1) * |cases| + k < n * |cases|
    ensures PlanOf(cases, config, n)[(r - 1) * |cases| + k] == RunId(cases[k], r, config)
  {
    PlanLength(cases, config, n);
    PlanLength(cases, config, n - 1);
    if r < n {
      PlanAt(cases, config, n - 1, r, k);
      PlanPrefix(cases, config, n - 1, n);
    } else {
      CasesAt(cases, r, config, |cases|, k);
    }
  }

  lemma {:induction false} CasesHave(cases: seq<string>, r: nat, config: string, n: nat, id: RunId)
    requires n <= |cases|
    ensures id in CasesOf(cases, r, config, n) <==> id.caseId in cases[..n] && id.repeatIndex == r && id.config == config
  {
    if n > 0 {
      CasesHave(cases, r, config, n - 1, id);
      assert cases[..n] == cases[..n - 1] + [cases[n - 1]];
    }
  }

  lemma {:induction false} PlanHas(cases: seq<string>, config: string, n: nat, id: RunId)
    ensures id in PlanOf(cases, config, n) <==> id.caseId in cases && 1 <= id.repeatIndex <= n && id.config == config
  {
    if n > 0 {
      PlanHas(cases, config, n - 1, id);
      CasesHave(cases, n, config, |cases|, id);
      assert cases[..|cases|] == cases;
    }
  }

  lemma {:induction false} StudyHas(cases: seq<string>, configs: seq<string>, n: nat, id: RunId)
    ensures id in StudyPlan(cases, configs, n) <==>
              id.caseId in cases && 1 <= id.repeatIndex <= n && id.config in configs
    decreases |configs|
  {
    if configs != [] {
      var front := configs[..|configs| - 1];
      StudyHas(cases, front, n, id);
      PlanHas(cases, configs[|configs| - 1], n, id);
      assert configs == front + [configs[|configs| - 1]];
    }
  }

  lemma {:induction false} CasesPrefix(cases: seq<string>, r: nat, config: string, m: nat, n: nat)
    requires m <= n <= |cases|
    ensures CasesOf(cases, r, config, m) <= CasesOf(cases, r, config, n)
  {
    if m < n { CasesPrefix(cases, r, config, m, n - 1); }
  }

  lemma {:induction false} PlanPrefix(cases: seq<string>, config: string, m: nat, n: nat)
    requires m <= n
    ensures PlanOf(cases, config, m) <= PlanOf(cases, config, n)
  {
    if m < n { PlanPrefix(cases, config, m, n - 1); }
  }

  /** Leaving a loop early is the same as going through the rest of the plan stopped. */
  lemma {:induction false} RestIsSkipped(s: State, a: seq<RunId>, b: seq<RunId>, g: Settings, o: Outcomes)
    requires a <= b && (RunAll(s, a, g, o).stopped || a == b)
    ensures RunAll(s, b, g, o) == RunAll(s, a, g, o)
  {
    assert a + b[|a|..] == b;
    RunAllSplits(s, a, b[|a|..], g, o);
    if RunAll(s, a, g, o).stopped {
      NothingAfterStop(RunAll(s, a, g, o), b[|a|..], g, o);
    }
  }

  // ---- The benchmark's loop ------------------------------------------------------------------------------

  /** The body both drivers share: skip, refuse, or execute one unit. */
  method TryUnit(s: State, id: RunId, g: Settings, o: Outcomes) returns (t: State)
    requires !s.stopped
    ensures t == Step(s, id, g, o)
  {
    t := s;
    if id in s.done {
      return;
    }
    if g.live && s.completed > 0 {
      var estimate := s.cost / s.completed as real;
      if s.cost + estimate > g.cap {
        t := t.(stopped := true);
        return;
      }
    }
    t := State(s.log + [id], s.spent + [o.cost(id)], s.done + {id}, s.cost + o.cost(id), s.completed + 1, false);
    if g.live && g.stopsOnRefusal && o.refused(id) {
      t := t.(stopped := true);
      return;
    }
    if t.cost > g.cap {
      t := t.(stopped := true);
    }
  }

  /** One repeat over the selected cases. */
  method RunRepeat(s: State, cases: seq<string>, r: nat, config: string, g: Settings, o: Outcomes) returns (t: State)
    requires !s.stopped
    ensures t == RunAll(s, CasesOf(cases, r, config, |cases|), g, o)
  {
    t := s;
    var n := 0;
    while n < |cases| && !t.stopped
      invariant 0 <= n <= |cases| && t == RunAll(s, CasesOf(cases, r, config, n), g, o)
      invariant n < |cases| ==> CasesOf(cases, r, config, n) <= CasesOf(cases, r, config, |cases|)
      decreases |cases| - n
    {
      t := TryUnit(t, RunId(cases[n], r, config), g, o);
      OneMoreCase(s, cases, r, config, n, g, o);
      n := n + 1;
      CasesPrefix(cases, r, config, n, |cases|);
    }
    RestIsSkipped(s, CasesOf(cases, r, config, n), CasesOf(cases, r, config, |cases|), g, o);
  }

  lemma {:induction false} OneMoreCase(s: State, cases: seq<string>, r: nat, config: string, n: nat, g: Settings,
        o: Outcomes)
    requires n < |cases|
    ensures RunAll(s, CasesOf(cases, r, config, n + 1), g, o)
         == Step(RunAll(s, CasesOf(cases, r, config, n), g, o), RunId(cases[n], r, config), g, o)
  {
    assert CasesOf(cases, r, config, n + 1)[..n] == CasesOf(cases, r, config, n);
  }

  /** The loop of _run_all. */
  method RunBenchmark(s: State, cases: seq<string>, config: string, repeats: nat, g: Settings,
        o: Outcomes) returns (t: State)
    requires !s.stopped
    ensures t == RunAll(s, PlanOf(cases, config, repeats), g, o)
  {
    t := s;
    var r := 0;
    while r < repeats && !t.stopped
      invariant 0 <= r <= repeats && t == RunAll(s, PlanOf(cases, config, r), g, o)
      decreases repeats - r
    {
      r := r + 1;
      RunAllSplits(s, PlanOf(cases, config, r - 1), CasesOf(cases, r, config, |cases|), g, o);
      t := RunRepeat(t, cases, r, config, g, o);
    }
    PlanPrefix(cases, config, r, repeats);
    RestIsSkipped(s, PlanOf(cases, config, r), PlanOf(cases, config, repeats), g, o);
  }

  // ---- The ablation: one budget for every configuration and both studies -----------------------------------

  const MODEL_CONFIGS: seq<string> := ["baseline_all_strong", "routed_models"]
  const RETRIEVAL_CONFIGS: seq<string> := ["serial_retrieval", "parallel_retrieval"]

  datatype Study = ModelStudy | RetrievalStudy | BothStudies

  /** Everything an ablation would run, in order; the retrieval study repeats at least three times. */
  function AblationPlan(cases: seq<string>, study: Study, repeats: nat): seq<RunId> {
    (if study.RetrievalStudy? then [] else StudyPlan(cases, MODEL_CONFIGS, repeats))
    + (if study.ModelStudy? then [] else StudyPlan(cases, RETRIEVAL_CONFIGS, if repeats < 3 then 3 else repeats))
  }

  /** What an ablation runs: the model study as often as asked, the retrieval study at least three times. */
  lemma {:induction false} AblationHas(cases: seq<string>, study: Study, repeats: nat, id: RunId)
    ensures id in AblationPlan(cases, study, repeats) <==>
              && id.caseId in cases && 1 <= id.repeatIndex
              && ((study in {ModelStudy, BothStudies} && id.config in {"baseline_all_strong", "routed_models"}
                   && id.repeatIndex <= repeats)
                  || (study in {RetrievalStudy, BothStudies} && id.config in {"serial_retrieval", "parallel_retrieval"}
                      && (id.repeatIndex <= 3 || id.repeatIndex <= repeats)))
  {
    StudyHas(cases, MODEL_CONFIGS, repeats, id);
    StudyHas(cases, RETRIEVAL_CONFIGS, if repeats < 3 then 3 else repeats, id);
    assert id.config in MODEL_CONFIGS <==> id.config in {"baseline_all_strong", "routed_models"};
    assert id.config in RETRIEVAL_CONFIGS <==> id.config in {"serial_retrieval", "parallel_retrieval"};
  }

  lemma {:induction false} StudyOfTwo(cases: seq<string>, a: string, b: string, n: nat)
    ensures StudyPlan(cases, [a, b], n) == PlanOf(cases, a, n) + PlanOf(cases, b, n)
  {
    assert [a, b][..1] == [a] && [a][..0] == [];
    assert StudyPlan(cases, [a], n) == PlanOf(cases, a, n);
  }

  /** The order of the configurations. */
  lemma {:induction false} AblationOrder(cases: seq<string>, n: nat)
    ensures var many := if n < 3 then 3 else n;
      var models := PlanOf(cases, "baseline_all_strong", n) + PlanOf(cases, "routed_models", n);
      var retrieval := PlanOf(cases, "serial_retrieval", many) + PlanOf(cases, "parallel_retrieval", many);
      && AblationPlan(cases, ModelStudy, n) == models && AblationPlan(cases, RetrievalStudy, n) == retrieval
      && AblationPlan(cases, BothStudies, n) == models + retrieval
  {
    StudyOfTwo(cases, "baseline_all_strong", "routed_models", n);
    StudyOfTwo(cases, "serial_retrieval", "parallel_retrieval", if n < 3 then 3 else n);
  }

  class Ablation {
    var log: seq<RunId>
    var spent: seq<real>
    var done: set<RunId>
    var cost: real
    var completed: nat
    var stopped: bool

    constructor (s: State)
      ensures View() == Resume(s)
    {
      log, spent, done, cost, completed, stopped := s.log, s.spent, s.done, s.cost, s.completed, false;
    }

    function View(): State
      reads this
    {
      State(log, spent, done, cost, completed, stopped)
    }

    /** _drive_config */
    method DriveConfig(cases: seq<string>, config: string, repeats: nat, g: Settings, o: Outcomes)
      requires !stopped
      modifies this
      ensures View() == RunAll(old(View()), PlanOf(cases, config, repeats), g, o)
    {
      var t := RunBenchmark(View(), cases, config, repeats, g, o);
      log, spent, done, cost, completed, stopped := t.log, t.spent, t.done, t.cost, t.completed, t.stopped;
    }

    /** The loop of a study over its configurations. */
    method RunStudy(cases: seq<string>, configs: seq<string>, repeats: nat, g: Settings, o: Outcomes)
      requires !stopped
      modifies this
      ensures View() == RunAll(old(View()), StudyPlan(cases, configs, repeats), g, o)
    {
      var n := 0;
      while n < |configs| && !stopped
        invariant 0 <= n <= |configs|
        invariant View() == RunAll(old(View()), StudyPlan(cases, configs[..n], repeats), g, o)
        decreases |configs| - n
      {
        OneMoreConfig(old(View()), cases, configs, n, repeats, g, o);
        DriveConfig(cases, configs[n], repeats, g, o);
        n := n + 1;
      }
      assert configs[..|configs|] == configs;
      StudyPrefix(cases, configs, n, repeats);
      RestIsSkipped(old(View()), StudyPlan(cases, configs[..n], repeats), StudyPlan(cases, configs, repeats), g, o);
    }

    method Run(cases: seq<string>, study: Study, repeats: nat, g: Settings, o: Outcomes)
      requires !stopped
      modifies this
      ensures View() == RunAll(old(View()), AblationPlan(cases, study, repeats), g, o)
    {
      ghost var first := if study.RetrievalStudy? then [] else StudyPlan(cases, MODEL_CONFIGS, repeats);
      var retrievalRepeats := if repeats < 3 then 3 else repeats;
      ghost var second := if study.ModelStudy? then [] else StudyPlan(cases, RETRIEVAL_CONFIGS, retrievalRepeats);
      RunAllSplits(View(), first, second, g, o);
      if !study.RetrievalStudy? {
        RunStudy(cases, MODEL_CONFIGS, repeats, g, o);
      }
      assert View() == RunAll(old(View()), first, g, o);
      if stopped {
        NothingAfterStop(View(), second, g, o);
      } else if !study.ModelStudy? {
        RunStudy(cases, RETRIEVAL_CONFIGS, retrievalRepeats, g, o);
      }
    }
  }

  lemma {:induction false} OneMoreConfig(s: State, cases: seq<string>, configs: seq<string>, n: nat, repeats: nat,
        g: Settings, o: Outcomes)
    requires n < |configs|
    ensures RunAll(s, StudyPlan(cases, configs[..n + 1], repeats), g, o)
         == RunAll(RunAll(s, StudyPlan(cases, configs[..n], repeats), g, o), PlanOf(cases, configs[n], repeats), g, o)
  {
    assert configs[..n + 1][..n] == configs[..n];
    RunAllSplits(s, StudyPlan(cases, configs[..n], repeats), PlanOf(cases, configs[n], repeats), g, o);
  }

  lemma {:induction false} StudyPrefix(cases: seq<string>, configs: seq<string>, n: nat, repeats: nat)
    requires n <= |configs|
    ensures StudyPlan(cases, configs[..n], repeats) <= StudyPlan(cases, configs, repeats)
    decreases |configs|
  {
    if n == |configs| {
      assert configs[..n] == configs;
    } else {
      StudyPrefix(cases, configs[..|configs| - 1], n, repeats);
      assert configs[..|configs| - 1][..n] == configs[..n];
    }
  }

  // ---- The cost cap --------------------------------------------------------------------------------------

  ghost predicate NonNegative(o: Outcomes) {
    forall id :: o.cost(id) >= 0.0
  }

  /** A negative cap still lets the first run start. */
  function Allowance(g: Settings): real {
    if g.cap < 0.0 then 0.0 else g.cap
  }

  /** Within the cap, or over it by no more than the last run cost. */
  predicate WithinCap(s: State, g: Settings) {
    && s.cost >= 0.0 && (s.completed == 0 ==> s.cost == 0.0)
    && (s.cost > Allowance(g) ==> s.spent != [] && s.cost - s.spent[|s.spent| - 1] <= Allowance(g))
  }

  lemma {:induction false} AverageIsNonNegative(cost: real, n: real)
    requires cost >= 0.0 && n > 0.0
    ensures cost / n >= 0.0
  {
  }

  /** One unit keeps the cap exactly unless it is executed, unchecked, on a budget already spent. */
  lemma {:induction false} StepKeepsCapIff(s: State, id: RunId, g: Settings, o: Outcomes)
    requires NonNegative(o) && WithinCap(s, g)
    ensures WithinCap(Step(s, id, g, o), g) <==> g.live || s.stopped || id in s.done || s.cost <= Allowance(g)
  {
    if s.completed > 0 {
      AverageIsNonNegative(s.cost, s.completed as real);
    }
  }

  /** In live mode no run of a plan, from any such state, spends more than one run beyond the cap. */
  lemma {:induction false} RunKeepsCap(s: State, plan: seq<RunId>, g: Settings, o: Outcomes)
    requires NonNegative(o) && g.live && WithinCap(s, g)
    ensures WithinCap(RunAll(s, plan, g, o), g)
    decreases |plan|
  {
    if plan != [] {
      RunKeepsCap(s, plan[..|plan| - 1], g, o);
      StepKeepsCapIff(RunAll(s, plan[..|plan| - 1], g, o), plan[|plan| - 1], g, o);
    }
  }

  /** In any mode, on a budget that is not spent yet: the run that goes over the cap is the last one. */
  lemma {:induction false} UnspentKeepsCap(s: State, plan: seq<RunId>, g: Settings, o: Outcomes)
    requires NonNegative(o) && WithinCap(s, g) && s.cost <= Allowance(g)
    ensures var t := RunAll(s, plan, g, o); WithinCap(t, g) && (t.stopped || t.cost <= Allowance(g))
    decreases |plan|
  {
    if plan != [] {
      UnspentKeepsCap(s, plan[..|plan| - 1], g, o);
      StepKeepsCapIff(RunAll(s, plan[..|plan| - 1], g, o), plan[|plan| - 1], g, o);
    }
  }

  /** On a spent budget an unchecked session executes the first unit that is not done, and stops. */
  lemma {:induction false} SpentRunsOneMore(s: State, plan: seq<RunId>, g: Settings, o: Outcomes)
    requires NonNegative(o) && !g.live && !s.stopped && s.cost > Allowance(g)
    ensures var t := RunAll(s, plan, g, o);
      if forall i :: 0 <= i < |plan| ==> plan[i] in s.done then t == s
      else t.stopped && t.spent != [] && t.cost - t.spent[|t.spent| - 1] == s.cost <= t.cost
    decreases |plan|
  {
    if plan != [] {
      var front, last := plan[..|plan| - 1], plan[|plan| - 1];
      SpentRunsOneMore(s, front, g, o);
      assert forall i :: 0 <= i < |front| ==> plan[i] == front[i];
    }
  }

  /** Which sessions keep the cap: an unchecked one on a spent budget does not, unless all is done. */
  lemma {:induction false} SessionKeepsCapIff(s: State, plan: seq<RunId>, g: Settings, o: Outcomes)
    requires NonNegative(o) && WithinCap(s, g)
    ensures WithinCap(RunAll(Resume(s), plan, g, o), g)
       <==> g.live || s.cost <= Allowance(g) || forall i :: 0 <= i < |plan| ==> plan[i] in s.done
  {
    if g.live {
      RunKeepsCap(Resume(s), plan, g, o);
    } else if s.cost <= Allowance(g) {
      UnspentKeepsCap(Resume(s), plan, g, o);
    } else {
      SpentRunsOneMore(Resume(s), plan, g, o);
    }
  }

  /** Offline every call is made to a model that has no price. */
  ghost predicate Free(o: Outcomes) {
    forall id :: o.cost(id) == 0.0
  }

  /** Without prices a plan costs nothing, whatever was spent before; a budget not yet overspent never stops it. */
  lemma {:induction false} FreeRunSpendsNothing(s: State, plan: seq<RunId>, g: Settings, o: Outcomes)
    requires Free(o) && !g.live
    ensures var t := RunAll(s, plan, g, o);
      && t.cost == s.cost
      && (t.stopped <==> s.stopped || (s.cost > g.cap && exists i :: 0 <= i < |plan| && plan[i] !in s.done))
    decreases |plan|
  {
    if plan != [] {
      var front, last := plan[..|plan| - 1], plan[|plan| - 1];
      FreeRunSpendsNothing(s, front, g, o);
      DoneOnlyGrows(s, front, g, o);
      assert plan == front + [last];
      if !s.stopped && s.cost > g.cap && last !in s.done && !RunAll(s, front, g, o).stopped {
        assert forall i :: 0 <= i < |front| ==> front[i] in s.done;
        NothingLeftToDo(s, front, g, o);
      }
    }
  }

  lemma {:induction false} DoneOnlyGrows(s: State, plan: seq<RunId>, g: Settings, o: Outcomes)
    ensures s.done <= RunAll(s, plan, g, o).done
    decreases |plan|
  {
    if plan != [] { DoneOnlyGrows(s, plan[..|plan| - 1], g, o); }
  }

  lemma {:induction false} NothingLeftToDo(s: State, plan: seq<RunId>, g: Settings, o: Outcomes)
    requires forall i :: 0 <= i < |plan| ==> plan[i] in s.done
    ensures RunAll(s, plan, g, o) == s
    decreases |plan|
  {
    if plan != [] { NothingLeftToDo(s, plan[..|plan| - 1], g, o); }
  }

  // ---- Exactly once, in order ----------------------------------------------------------------------------

  /** The plan without repetitions. */
  function Dedup(plan: seq<RunId>): seq<RunId> {
    if plan == [] then []
    else
      var front, last := plan[..|plan| - 1], plan[|plan| - 1];
      Dedup(front) + if last in front then [] else [last]
  }

  lemma {:induction false} DedupIsDistinct(plan: seq<RunId>)
    ensures forall id :: id in Dedup(plan) <==> id in plan
    ensures forall i, j :: 0 <= i < j < |Dedup(plan)| ==> Dedup(plan)[i] != Dedup(plan)[j]
  {
    if plan != [] {
      var front := plan[..|plan| - 1];
      DedupIsDistinct(front);
      assert plan == front + [plan[|plan| - 1]];
    }
  }

  lemma {:induction false} DedupPrefix(plan: seq<RunId>, n: nat)
    requires n <= |plan|
    ensures Dedup(plan[..n]) <= Dedup(plan)
    decreases |plan|
  {
    if n == |plan| {
      assert plan[..n] == plan;
    } else {
      DedupPrefix(plan[..|plan| - 1], n);
      assert plan[..|plan| - 1][..n] == plan[..n];
    }
  }

  /** What was executed is the beginning of the plan, each unit once. */
  ghost predicate OnTrack(s: State, plan: seq<RunId>) {
    && s.log <= Dedup(plan) && s.completed == |s.log|
    && forall id :: id in s.done <==> id in s.log
  }

  /** A unit that is not done yet, when everything before it is, is the next one of the plan. */
  lemma {:induction false} NextInOrder(s: State, plan: seq<RunId>, n: nat)
    requires OnTrack(s, plan) && n < |plan| && plan[n] !in s.done
    requires forall i :: 0 <= i < n ==> plan[i] in s.done
    ensures |s.log| < |Dedup(plan)| && Dedup(plan)[|s.log|] == plan[n]
  {
    var d, before := Dedup(plan), Dedup(plan[..n]);
    DedupIsDistinct(plan);
    DedupIsDistinct(plan[..n]);
    DedupPrefix(plan, n);
    DedupPrefix(plan, n + 1);
    assert plan[..n + 1][..n] == plan[..n] && plan[n] !in plan[..n];
    assert Dedup(plan[..n + 1]) == before + [plan[n]];
    assert d[|before|] == plan[n];
    forall i | 0 <= i < |s.log| ensures d[i] != plan[n] {
      assert s.log[i] == d[i] && s.log[i] in s.log;
    }
    if |s.log| < |before| {
      NotYetDone(s, d, before);
    }
  }

  lemma {:induction false} NotYetDone(s: State, d: seq<RunId>, before: seq<RunId>)
    requires s.log <= d && before <= d && |s.log| < |before|
    requires forall i, j :: 0 <= i < j < |d| ==> d[i] != d[j]
    ensures before[|s.log|] in before && before[|s.log|] !in s.log
  {
    assert before[|s.log|] == d[|s.log|];
  }

  ghost predicate DoneUpTo(s: State, plan: seq<RunId>, n: nat)
    requires n <= |plan|
  {
    forall i :: 0 <= i < n ==> plan[i] in s.done
  }

  lemma {:induction false} RunStaysOnTrack(s: State, plan: seq<RunId>, n: nat, g: Settings, o: Outcomes)
    requires OnTrack(s, plan) && n <= |plan|
    ensures var t := RunAll(s, plan[..n], g, o);
      && OnTrack(t, plan) && s.log <= t.log
      && (t.stopped || DoneUpTo(t, plan, n))
    decreases n
  {
    if n > 0 {
      RunStaysOnTrack(s, plan, n - 1, g, o);
      assert plan[..n][..n - 1] == plan[..n - 1];
      var t := RunAll(s, plan[..n - 1], g, o);
      if !t.stopped && plan[n - 1] !in t.done {
        NextInOrder(t, plan, n - 1);
      }
    }
  }

  /**
    However often a run is stopped and resumed, every unit is executed at most once and in the
    plan's order; once it is not stopped, every unit has been executed exactly once.
   */
  lemma {:induction false} ResumedRunIsOnTrack(s: State, plan: seq<RunId>, g: Settings, o: Outcomes)
    requires OnTrack(s, plan)
    ensures var t := RunAll(Resume(s), plan, g, o);
      && OnTrack(t, plan) && s.log <= t.log
      && (!t.stopped ==> t.log == Dedup(plan))
  {
    RunStaysOnTrack(Resume(s), plan, |plan|, g, o);
    assert plan[..|plan|] == plan;
    var t := RunAll(Resume(s), plan, g, o);
    if !t.stopped && |t.log| < |Dedup(plan)| {
      DedupIsDistinct(plan);
      NotYetDone(t, Dedup(plan), Dedup(plan));
    }
  }

  // ---- Any number of sessions ------------------------------------------------------------------------------

  /** One invocation; every one has its own selection, mode, cap and costs. */
  datatype Session = Session(plan: seq<RunId>, settings: Settings, outcomes: Outcomes)

  /** Each session is resumed from where the one before was stopped. */
  function Sessions(ss: seq<Session>): State {
    if ss == [] then START
    else
      var last := ss[|ss| - 1];
      RunAll(Resume(Sessions(ss[..|ss| - 1])), last.plan, last.settings, last.outcomes)
  }

  /** Costs are not negative, and offline there are none. */
  ghost predicate Realistic(x: Session) {
    NonNegative(x.outcomes) && (x.settings.live || Free(x.outcomes))
  }

  function Sum(costs: seq<real>): real {
    if costs == [] then 0.0 else Sum(costs[..|costs| - 1]) + costs[|costs| - 1]
  }

  /** The books agree: each run once, with its cost, and the checkpoint is what they add up to. */
  ghost predicate Balanced(s: State) {
    && |s.log| == |s.spent| == s.completed && s.cost == Sum(s.spent)
    && (forall id :: id in s.done <==> id in s.log)
    && (forall i, j :: 0 <= i < j < |s.log| ==> s.log[i] != s.log[j])
  }

  lemma {:induction false} StepKeepsBalance(s: State, id: RunId, g: Settings, o: Outcomes)
    requires Balanced(s)
    ensures Balanced(Step(s, id, g, o))
  {
    assert (s.spent + [o.cost(id)])[..|s.spent|] == s.spent;
  }

  /** Run k could be afforded: at the average cost of the runs before it, it stayed within the cap. */
  predicate Affordable(spent: seq<real>, k: nat, cap: real)
    requires k < |spent|
  {
    k == 0 || Sum(spent[..k]) * (k as real + 1.0) <= cap * k as real
  }

  predicate AllAffordable(spent: seq<real>, first: nat, cap: real) {
    forall k :: first <= k < |spent| ==> Affordable(spent, k, cap)
  }

  lemma {:induction false} AffordableInLonger(a: seq<real>, x: real, k: nat, cap: real)
    requires k < |a|
    ensures Affordable(a + [x], k, cap) <==> Affordable(a, k, cap)
  {
    assert (a + [x])[..k] == a[..k];
  }

  lemma {:induction false} OneMoreAffordable(a: seq<real>, x: real, first: nat, cap: real)
    requires AllAffordable(a, first, cap) && (a == [] || Sum(a) * (|a| as real + 1.0) <= cap * |a| as real)
    ensures AllAffordable(a + [x], first, cap)
  {
    forall k | first <= k < |a + [x]| ensures Affordable(a + [x], k, cap) {
      if k < |a| {
        AffordableInLonger(a, x, k, cap);
      } else {
        assert (a + [x])[..k] == a;
      }
    }
  }

  lemma {:induction false} StepIsAffordable(s: State, id: RunId, g: Settings, o: Outcomes, first: nat)
    requires Balanced(s) && g.live && AllAffordable(s.spent, first, g.cap)
    ensures s.spent <= Step(s, id, g, o).spent && AllAffordable(Step(s, id, g, o).spent, first, g.cap)
  {
    if s.stopped || id in s.done {
      NothingToDo(s, id, g, o);
    } else {
      UnitIs(s, id, g, o);
      if Step(s, id, g, o).spent != s.spent { OneMoreAffordable(s.spent, o.cost(id), first, g.cap); }
    }
  }

  /** In live mode no run of a plan was started that, at the average cost so far, went over the cap. */
  lemma {:induction false} NoRunWasUnaffordable(s: State, plan: seq<RunId>, g: Settings, o: Outcomes)
    requires Balanced(s) && g.live
    ensures var t := RunAll(s, plan, g, o);
            Balanced(t) && s.spent <= t.spent && AllAffordable(t.spent, |s.spent|, g.cap)
    decreases |plan|
  {
    if plan != [] {
      var before := RunAll(s, plan[..|plan| - 1], g, o);
      NoRunWasUnaffordable(s, plan[..|plan| - 1], g, o);
      StepKeepsBalance(before, plan[|plan| - 1], g, o);
      StepIsAffordable(before, plan[|plan| - 1], g, o, |s.spent|);
    }
  }

  /** Not more than the allowance, one run apart. */
  predicate WithinOneRun(s: State, allowance: real) {
    s.cost <= allowance || exists i :: 0 <= i < |s.spent| && s.cost - s.spent[i] <= allowance
  }

  lemma {:induction false} StepKeepsOneRun(s: State, id: RunId, g: Settings, o: Outcomes, allowance: real)
    requires Balanced(s) && s.cost >= 0.0 && NonNegative(o) && (g.live || Free(o))
    requires WithinOneRun(s, allowance) && Allowance(g) <= allowance
    ensures Step(s, id, g, o).cost >= 0.0 && WithinOneRun(Step(s, id, g, o), allowance)
  {
    var t := Step(s, id, g, o);
    if t.log != s.log {
      assert t.spent[|s.spent|] == o.cost(id);
      if g.live {
        if s.completed > 0 { AverageIsNonNegative(s.cost, s.completed as real); }
        assert t.cost - t.spent[|s.spent|] == s.cost <= allowance;
      } else if s.cost > allowance {
        var i :| 0 <= i < |s.spent| && s.cost - s.spent[i] <= allowance;
        assert t.cost - t.spent[i] <= allowance;
      }
    }
  }

  lemma {:induction false} RunKeepsBooks(s: State, plan: seq<RunId>, g: Settings, o: Outcomes, allowance: real)
    requires Balanced(s) && s.cost >= 0.0 && NonNegative(o) && (g.live || Free(o))
    requires WithinOneRun(s, allowance) && Allowance(g) <= allowance
    ensures var t := RunAll(s, plan, g, o); Balanced(t) && t.cost >= 0.0 && WithinOneRun(t, allowance)
    decreases |plan|
  {
    if plan != [] {
      var front := RunAll(s, plan[..|plan| - 1], g, o);
      RunKeepsBooks(s, plan[..|plan| - 1], g, o, allowance);
      StepKeepsBalance(front, plan[|plan| - 1], g, o);
      StepKeepsOneRun(front, plan[|plan| - 1], g, o, allowance);
    }
  }

  function LargestAllowance(ss: seq<Session>): real {
    if ss == [] then 0.0
    else
      var before, last := LargestAllowance(ss[..|ss| - 1]), Allowance(ss[|ss| - 1].settings);
      if before >= last then before else last
  }

  /**
    Over any sequence of sessions, each with its own selection, mode and cap: no unit is executed
    twice, the checkpoint adds up, and spending exceeds the largest cap so far by at most one run.
   */
  lemma {:induction false} SessionsAreSafe(ss: seq<Session>)
    requires forall i :: 0 <= i < |ss| ==> Realistic(ss[i])
    ensures var s := Sessions(ss);
      && Balanced(s) && s.cost >= 0.0 && WithinOneRun(s, LargestAllowance(ss))
      && ((forall i :: 0 <= i < |ss| ==> !ss[i].settings.live) ==> s.cost == 0.0)
  {
    if ss != [] {
      var front, last := ss[..|ss| - 1], ss[|ss| - 1];
      SessionsAreSafe(front);
      var before := Resume(Sessions(front));
      RunKeepsBooks(before, last.plan, last.settings, last.outcomes, LargestAllowance(ss));
      if !last.settings.live { FreeRunSpendsNothing(before, last.plan, last.settings, last.outcomes); }
    }
  }

  /**
    If they all have one plan: in its order, and once a session is not stopped, all of it; an offline
    session on a budget that is not exceeded is not stopped.
   */
  lemma {:induction false} SessionsFollowThePlan(ss: seq<Session>, plan: seq<RunId>)
    requires forall i :: 0 <= i < |ss| ==> Realistic(ss[i]) && ss[i].plan == plan
    ensures var s := Sessions(ss);
      && OnTrack(s, plan)
      && (ss != [] && !s.stopped ==> s.log == Dedup(plan))
      && (ss != [] && !ss[|ss| - 1].settings.live && Sessions(ss[..|ss| - 1]).cost <= ss[|ss| - 1].settings.cap ==>
            s.log == Dedup(plan))
  {
    if ss != [] {
      var front, last := ss[..|ss| - 1], ss[|ss| - 1];
      SessionsFollowThePlan(front, plan);
      ResumedRunIsOnTrack(Sessions(front), plan, last.settings, last.outcomes);
      if !last.settings.live { FreeRunSpendsNothing(Resume(Sessions(front)), plan, last.settings, last.outcomes); }
    }
  }

  // ---- Resuming the ablation -------------------------------------------------------------------------------

  /** One invocation of the ablation. */
  datatype AblationRun = AblationRun(study: Study, repeats: nat, settings: Settings, outcomes: Outcomes)

  function AblationSessions(cases: seq<string>, runs: seq<AblationRun>): (ss: seq<Session>)
    ensures |ss| == |runs|
  {
    seq(|runs|, i requires 0 <= i < |runs| =>
      Session(AblationPlan(cases, runs[i].study, runs[i].repeats), runs[i].settings, runs[i].outcomes))
  }

  predicate AllAsk(runs: seq<AblationRun>, study: Study, repeats: nat) {
    forall i :: 0 <= i < |runs| ==> runs[i].study == study && runs[i].repeats == repeats
  }

  /**
    Invocations of the ablation, one after the other, each on the checkpoint of the one before: a stop
    leaves its study and reaches the checkpoint, so what holds of sessions holds of them.
   */
  method ResumeAblation(cases: seq<string>, runs: seq<AblationRun>) returns (s: State)
    requires forall i :: 0 <= i < |runs| ==> Realistic(AblationSessions(cases, runs)[i])
    ensures s == Sessions(AblationSessions(cases, runs))
    ensures Balanced(s) && WithinOneRun(s, LargestAllowance(AblationSessions(cases, runs)))
    ensures forall study, repeats ::
              runs != [] && !s.stopped && AllAsk(runs, study, repeats) ==> s.log == Dedup(AblationPlan(cases, study, repeats))
  {
    ghost var ss := AblationSessions(cases, runs);
    s := START;
    for n := 0 to |runs|
      invariant s == Sessions(ss[..n])
    {
      var ablation := new Ablation(s);
      ablation.Run(cases, runs[n].study, runs[n].repeats, runs[n].settings, runs[n].outcomes);
      assert ss[..n + 1][..n] == ss[..n];
      s := ablation.View();
    }
    assert ss[..|runs|] == ss;
    SessionsAreSafe(ss);
    forall study, repeats | runs != [] && !s.stopped && AllAsk(runs, study, repeats)
      ensures s.log == Dedup(AblationPlan(cases, study, repeats))
    {
      SessionsFollowThePlan(ss, AblationPlan(cases, study, repeats));
    }
  }
}
