/**
  The agent graph-runner pool as a state machine. Each section that the program runs under a
  lock is one step, and the steps of different threads interleave freely. Runners are named by
  their position in the pool list. A graph carries the runner attribute stamped on it when it
  was built.

  Rotation, recovery and publication hold both global locks for their whole body. Quarantining
  and un-quarantining take only the runner's own lock, so they can fall inside a rotation, but a
  rotation touches nothing else they touch after it has read a runner's flag: placing the whole
  rotation at that read loses no interleaving.
 */
module RunnerPool {
  import opened Prelude

  const GRAPH_RUNNER_CAPACITY: nat := 2

  type RunnerId = nat

  datatype Graph = Graph(serial: nat, owner: RunnerId)

  /**
    One runner with the work that threads still owe it. The counters are not fields of the
    program: they are its threads' positions, kept here so that a step can be any thread's next.
   */
  datatype Runner = Runner(
    quarantined: bool,
    graph: Option<Graph>,
    probes: nat,      // heartbeats queued and not yet answered
    rotations: nat,   // threads between quarantining this runner and taking the global locks
    recoveries: nat)  // threads between clearing its flag and taking the global locks
  {
    predicate Available() { !quarantined }
  }

  const FRESH_RUNNER := Runner(false, None, 0, 0, 0)

  datatype Pool = Pool(
    runners: seq<Runner>,
    active: Option<RunnerId>,       // _graph_loop_runner
    published: Option<Graph>,       // agent_graph
    toolsReady: bool,               // tool_registry and agent_tool_provider are both set
    built: nat,                     // graphs built so far
    held: set<Graph>,               // graphs handed to requests; a request may keep a stale one
    inflight: multiset<Graph>,      // submitted and neither finished nor timed out
    submitted: seq<(Graph, RunnerId)>)

  /** Whether the constructions succeed that building a graph needs; the tools are constructed once only. */
  datatype Build = Build(tools: bool, graph: bool)

  datatype Event =
    | Ensure(build: Build)
    | Submit(graph: Graph)
    | Finish(graph: Graph)
    | Timeout(graph: Graph)
    | Rotate(runner: RunnerId)
    | ProbeAnswered(runner: RunnerId)
    | ProbeLost(runner: RunnerId)
    | Recover(runner: RunnerId)

  function Initial(toolsReady: bool): Pool {
    Pool([FRESH_RUNNER], Some(0), None, toolsReady, 0, {}, multiset{}, [])
  }

  function With(s: Pool, r: RunnerId, x: Runner): Pool
    requires r < |s.runners|
  {
    s.(runners := s.runners[r := x])
  }

  // ---- The steps -----------------------------------------------------------------------------

  predicate EnsureRefuses(s: Pool) {
    s.active.None? || s.active.value >= |s.runners| || !s.runners[s.active.value].Available()
  }

  predicate AlreadyPublished(s: Pool) {
    s.toolsReady && s.published.Some? && s.active == Some(s.published.value.owner)
  }

  predicate BuildFails(s: Pool, build: Build) {
    (!s.toolsReady && !build.tools) || !build.graph
  }

  /** _ensure_agent_runtime: return the published graph, or build one on the active runner. */
  function EnsureRuntime(s: Pool, build: Build): Pool {
    if EnsureRefuses(s) then s
    else if AlreadyPublished(s) then s.(held := s.held + {s.published.value})
    else if !s.toolsReady && !build.tools then s
    else if !build.graph then s.(toolsReady := true)
    else
      var r := s.active.value;
      var g := Graph(s.built, r);
      With(s, r, s.runners[r].(graph := Some(g)))
        .(toolsReady := true, built := s.built + 1, published := Some(g), held := s.held + {g})
  }

  /** submit: the loop is the one stamped on the graph; a quarantined loop refuses. */
  function SubmitGraph(s: Pool, g: Graph): Pool {
    if g.owner < |s.runners| && s.runners[g.owner].Available() then
      s.(inflight := s.inflight + multiset{g}, submitted := s.submitted + [(g, g.owner)])
    else s
  }

  /** A deadline passes: the call is abandoned and its runner stops taking work. */
  function AbandonCall(s: Pool, g: Graph): Pool {
    var t := s.(inflight := s.inflight - multiset{g});
    var r := g.owner;
    if r >= |s.runners| || s.runners[r].quarantined then t
    else
      var x := s.runners[r];
      With(t, r, x.(quarantined := true, probes := x.probes + 1, rotations := x.rotations + 1))
  }

  /** The first runner of the list, other than r, that takes work. */
  function FirstStandby(runners: seq<Runner>, r: RunnerId, from: nat): (standby: Option<RunnerId>)
    ensures standby.Some? ==> standby.value != r && from <= standby.value < |runners|
                              && runners[standby.value].Available()
    ensures standby.Some? ==> forall i :: from <= i < standby.value && i != r ==> !runners[i].Available()
    ensures standby.None? ==> forall i :: from <= i < |runners| && i != r ==> !runners[i].Available()
    decreases |runners| - from
  {
    if from >= |runners| then None
    else if from != r && runners[from].Available() then Some(from)
    else FirstStandby(runners, r, from + 1)
  }

  /** The active runner r gives way to a standby, to a fresh runner while there is room, or to none. */
  function Replaced(s: Pool, r: RunnerId): Pool {
    var standby := FirstStandby(s.runners, r, 0);
    if standby.Some? then s.(active := standby, published := s.runners[standby.value].graph)
    else if |s.runners| < GRAPH_RUNNER_CAPACITY then
      s.(runners := s.runners + [FRESH_RUNNER], active := Some(|s.runners|), published := None)
    else s.(active := None, published := None)
  }

  /** The locked half of _quarantine_graph_runner. */
  function RotateAway(s: Pool, r: RunnerId): Pool
    requires r < |s.runners| && s.runners[r].rotations > 0
  {
    var t := With(s, r, s.runners[r].(rotations := s.runners[r].rotations - 1));
    if s.active != Some(r) then t else Replaced(t, r)
  }

  /** The heartbeat came back: clear the flag; the callback has yet to take the locks. */
  function AnswerProbe(s: Pool, r: RunnerId): Pool
    requires r < |s.runners| && s.runners[r].probes > 0
  {
    var x := s.runners[r];
    With(s, r, x.(quarantined := false, probes := x.probes - 1, recoveries := x.recoveries + 1))
  }

  /** _on_graph_runner_recovered. */
  function RestoreRunner(s: Pool, r: RunnerId): Pool
    requires r < |s.runners| && s.runners[r].recoveries > 0
  {
    var t := With(s, r, s.runners[r].(recoveries := s.runners[r].recoveries - 1));
    if s.active.None? then t.(active := Some(r), published := s.runners[r].graph) else t
  }

  predicate Enabled(s: Pool, e: Event) {
    match e
    case Ensure(_) => true
    case Submit(g) => g in s.held
    case Finish(g) => g in s.inflight
    case Timeout(g) => g in s.inflight
    case Rotate(r) => r < |s.runners| && s.runners[r].rotations > 0
    case ProbeAnswered(r) => r < |s.runners| && s.runners[r].probes > 0
    case ProbeLost(r) => r < |s.runners| && s.runners[r].probes > 0
    case Recover(r) => r < |s.runners| && s.runners[r].recoveries > 0
  }

  function Apply(s: Pool, e: Event): Pool
    requires Enabled(s, e)
  {
    match e
    case Ensure(build) => EnsureRuntime(s, build)
    case Submit(g) => SubmitGraph(s, g)
    case Finish(g) => s.(inflight := s.inflight - multiset{g})
    case Timeout(g) => AbandonCall(s, g)
    case Rotate(r) => RotateAway(s, r)
    case ProbeAnswered(r) => AnswerProbe(s, r)
    case ProbeLost(r) => With(s, r, s.runners[r].(probes := s.runners[r].probes - 1))
    case Recover(r) => RestoreRunner(s, r)
  }

  /** t is reached from s by taking the enabled events es in order. */
  ghost predicate Reaches(s: Pool, es: seq<Event>, t: Pool)
    decreases |es|
  {
    if es == [] then s == t
    else Enabled(s, es[0]) && Reaches(Apply(s, es[0]), es[1..], t)
  }

  // ---- Safety of every interleaving ------------------------------------------------------------

  /** A graph belongs to a runner exactly when that runner holds it. */
  ghost predicate OwnGraph(s: Pool, g: Graph) {
    g.owner < |s.runners| && s.runners[g.owner].graph == Some(g)
  }

  ghost predicate SafeRunner(x: Runner, i: RunnerId, toolsReady: bool, built: nat) {
    && (x.graph.Some? ==> toolsReady && x.graph.value.owner == i && x.graph.value.serial < built)
    && x.probes <= (if x.quarantined then 1 else 0)
  }

  function GraphCount(runners: seq<Runner>): nat {
    if runners == [] then 0 else (if runners[0].graph.Some? then 1 else 0) + GraphCount(runners[1..])
  }

  ghost predicate Safe(s: Pool) {
    && 1 <= |s.runners| <= GRAPH_RUNNER_CAPACITY
    && (s.active.Some? ==> s.active.value < |s.runners|)
    && s.published == (if s.active.Some? then s.runners[s.active.value].graph else None)
    && (forall i :: 0 <= i < |s.runners| ==> SafeRunner(s.runners[i], i, s.toolsReady, s.built))
    && (forall g :: g in s.held ==> OwnGraph(s, g))
    && (forall g :: g in s.inflight ==> g in s.held)
    && (forall k :: 0 <= k < |s.submitted| ==> s.submitted[k].0 in s.held && s.submitted[k].1 == s.submitted[k].0.owner)
    && s.built == GraphCount(s.runners)
  }

  /** What one step may change: runners stay in the pool, and a graph once set is never replaced. */
  ghost predicate Evolves(s: Pool, t: Pool) {
    && |s.runners| <= |t.runners|
    && s.submitted <= t.submitted
    && forall i :: 0 <= i < |s.runners| && s.runners[i].graph.Some? ==> t.runners[i].graph == s.runners[i].graph
  }

  lemma {:induction false} EnsureIsSafe(s: Pool, build: Build)
    requires Safe(s)
    ensures Safe(EnsureRuntime(s, build)) && Evolves(s, EnsureRuntime(s, build))
  {
    var t := EnsureRuntime(s, build);
    if !EnsureRefuses(s) && !AlreadyPublished(s) && !BuildFails(s, build) {
      assert s.runners[s.active.value].graph.None?;
      assert forall g :: OwnGraph(s, g) ==> OwnGraph(t, g);
      GraphCountOfTwo(s.runners);
      GraphCountOfTwo(t.runners);
    }
  }

  /** Replacing a runner's flag and counters, but not its graph, keeps everything about graphs. */
  lemma {:induction false} CountersAreSafe(s: Pool, r: RunnerId, x: Runner)
    requires Safe(s) && r < |s.runners|
    requires x.graph == s.runners[r].graph && x.probes <= (if x.quarantined then 1 else 0)
    ensures Safe(With(s, r, x)) && Evolves(s, With(s, r, x))
  {
    var t := With(s, r, x);
    assert forall g :: OwnGraph(s, g) ==> OwnGraph(t, g);
    GraphCountOfTwo(s.runners);
    GraphCountOfTwo(t.runners);
  }

  /** Publishing a runner of the pool together with its graph, or nothing at all. */
  lemma {:induction false} PublishIsSafe(s: Pool, active: Option<RunnerId>)
    requires Safe(s) && (active.Some? ==> active.value < |s.runners|)
    ensures var t := s.(active := active, published := if active.Some? then s.runners[active.value].graph else None);
            Safe(t) && Evolves(s, t)
  {
    var t := s.(active := active, published := if active.Some? then s.runners[active.value].graph else None);
    assert forall g :: OwnGraph(s, g) ==> OwnGraph(t, g);
  }

  lemma {:induction false} GrowthIsSafe(s: Pool)
    requires Safe(s) && |s.runners| < GRAPH_RUNNER_CAPACITY
    ensures var t := s.(runners := s.runners + [FRESH_RUNNER]); Safe(t) && Evolves(s, t)
  {
    var t := s.(runners := s.runners + [FRESH_RUNNER]);
    assert forall g :: OwnGraph(s, g) ==> OwnGraph(t, g);
    GraphCountOfTwo(s.runners);
    GraphCountOfTwo(t.runners);
  }

  lemma {:induction false} RotationIsSafe(s: Pool, r: RunnerId)
    requires Safe(s) && r < |s.runners| && s.runners[r].rotations > 0
    ensures Safe(RotateAway(s, r)) && Evolves(s, RotateAway(s, r))
  {
    var x := s.runners[r].(rotations := s.runners[r].rotations - 1);
    var u := With(s, r, x);
    CountersAreSafe(s, r, x);
    var standby := FirstStandby(u.runners, r, 0);
    if s.active == Some(r) {
      if standby.None? && |s.runners| < GRAPH_RUNNER_CAPACITY {
        GrowthIsSafe(u);
        PublishIsSafe(u.(runners := u.runners + [FRESH_RUNNER]), Some(|s.runners|));
      } else {
        PublishIsSafe(u, standby);
      }
    }
  }

  lemma {:induction false} SubmitIsSafe(s: Pool, g: Graph)
    requires Safe(s) && g in s.held
    ensures Safe(SubmitGraph(s, g)) && Evolves(s, SubmitGraph(s, g))
  {
    assert OwnGraph(s, g);
    assert forall h :: OwnGraph(s, h) ==> OwnGraph(SubmitGraph(s, g), h);
  }

  lemma {:induction false} FinishIsSafe(s: Pool, g: Graph)
    requires Safe(s)
    ensures Safe(s.(inflight := s.inflight - multiset{g}))
  {
    assert forall h :: OwnGraph(s, h) ==> OwnGraph(s.(inflight := s.inflight - multiset{g}), h);
  }

  lemma {:induction false} AbandonIsSafe(s: Pool, g: Graph)
    requires Safe(s)
    ensures Safe(AbandonCall(s, g)) && Evolves(s, AbandonCall(s, g))
  {
    FinishIsSafe(s, g);
    QuarantineIsSafe(s.(inflight := s.inflight - multiset{g}), g.owner);
    AbandonEvolves(s, g);
  }

  lemma {:induction false} QuarantineIsSafe(t: Pool, r: RunnerId)
    requires Safe(t)
    ensures r < |t.runners| && !t.runners[r].quarantined ==>
              var x := t.runners[r];
              Safe(With(t, r, x.(quarantined := true, probes := x.probes + 1, rotations := x.rotations + 1)))
  {
    if r < |t.runners| && !t.runners[r].quarantined {
      var x := t.runners[r];
      assert SafeRunner(x, r, t.toolsReady, t.built);
      CountersAreSafe(t, r, x.(quarantined := true, probes := x.probes + 1, rotations := x.rotations + 1));
    }
  }

  lemma {:induction false} AbandonEvolves(s: Pool, g: Graph)
    ensures Evolves(s, AbandonCall(s, g))
  {
  }

  lemma {:induction false} StepIsSafe(s: Pool, e: Event)
    requires Safe(s) && Enabled(s, e)
    ensures Safe(Apply(s, e)) && Evolves(s, Apply(s, e))
  {
    match e {
      case Ensure(build) => EnsureIsSafe(s, build);
      case Submit(g) => SubmitIsSafe(s, g);
      case Finish(g) => FinishIsSafe(s, g);
      case Timeout(g) => AbandonIsSafe(s, g);
      case Rotate(r) => RotationIsSafe(s, r);
      case ProbeAnswered(r) =>
        var x := s.runners[r];
        CountersAreSafe(s, r, x.(quarantined := false, probes := x.probes - 1, recoveries := x.recoveries + 1));
      case ProbeLost(r) =>
        CountersAreSafe(s, r, s.runners[r].(probes := s.runners[r].probes - 1));
      case Recover(r) =>
        RecoveryIsSafe(s, r);
    }
  }

  lemma {:induction false} RecoveryIsSafe(s: Pool, r: RunnerId)
    requires Safe(s) && r < |s.runners| && s.runners[r].recoveries > 0
    ensures Safe(RestoreRunner(s, r)) && Evolves(s, RestoreRunner(s, r))
  {
    var u := With(s, r, s.runners[r].(recoveries := s.runners[r].recoveries - 1));
    CountersAreSafe(s, r, u.runners[r]);
    assert forall h :: OwnGraph(u, h) ==> OwnGraph(RestoreRunner(s, r), h);
  }

  lemma {:induction false} GraphCountOfTwo(runners: seq<Runner>)
    requires 1 <= |runners| <= 2
    ensures GraphCount(runners) == (if runners[0].graph.Some? then 1 else 0)
                                   + (if |runners| == 2 && runners[1].graph.Some? then 1 else 0)
  {
    if |runners| == 2 {
      GraphCountOfTwo(runners[1..]);
    } else {
      assert runners[1..] == [];
    }
  }

  /** Every interleaving of every length keeps the pool safe. */
  lemma {:induction false} RunIsSafe(s: Pool, es: seq<Event>, t: Pool)
    requires Safe(s) && Reaches(s, es, t)
    ensures Safe(t) && Evolves(s, t)
    decreases |es|
  {
    if es != [] {
      StepIsSafe(s, es[0]);
      RunIsSafe(Apply(s, es[0]), es[1..], t);
    }
  }

  lemma {:induction false} InitialIsSafe(toolsReady: bool)
    ensures Safe(Initial(toolsReady))
  {
    GraphCountOfTwo(Initial(toolsReady).runners);
  }

  /**
    From start-up: at most two runners and two graphs ever exist, the published graph is the
    active runner's own, and whatever was submitted to one loop is one and the same graph, the
    one built on that loop.
   */
  lemma {:induction false} PoolIsBoundedAndLoopBound(toolsReady: bool, es: seq<Event>, t: Pool)
    requires Reaches(Initial(toolsReady), es, t)
    ensures |t.runners| <= GRAPH_RUNNER_CAPACITY && t.built <= GRAPH_RUNNER_CAPACITY
    ensures t.active.None? ==> t.published.None?
    ensures t.active.Some? ==> t.active.value < |t.runners| && t.published == t.runners[t.active.value].graph
    ensures forall k :: 0 <= k < |t.submitted| ==>
              t.submitted[k].1 < |t.runners| && t.runners[t.submitted[k].1].graph == Some(t.submitted[k].0)
  {
    InitialIsSafe(toolsReady);
    RunIsSafe(Initial(toolsReady), es, t);
    GraphCountOfTwo(t.runners);
    assert forall k :: 0 <= k < |t.submitted| ==> OwnGraph(t, t.submitted[k].0);
  }

  // ---- Lost capacity -----------------------------------------------------------------------------

  /** With no active runner, every runner is still held back or about to be restored. */
  ghost predicate NoLostCapacity(s: Pool) {
    s.active.None? ==>
      forall r :: 0 <= r < |s.runners| ==> s.runners[r].quarantined || s.runners[r].recoveries > 0
  }

  /**
    The one step that loses a runner: a rotation away from an active runner whose heartbeat has
    already come back and whose callback has already run, with no other runner to turn to.
   */
  predicate DropsLiveRunner(s: Pool, e: Event) {
    && e.Rotate?
    && s.active == Some(e.runner)
    && e.runner < |s.runners|
    && s.runners[e.runner].Available()
    && s.runners[e.runner].recoveries == 0
    && |s.runners| >= GRAPH_RUNNER_CAPACITY
    && forall i :: 0 <= i < |s.runners| && i != e.runner ==> !s.runners[i].Available()
  }

  lemma {:induction false} RotateKeepsCapacityIff(s: Pool, r: RunnerId)
    requires Safe(s) && NoLostCapacity(s) && Enabled(s, Rotate(r))
    ensures NoLostCapacity(RotateAway(s, r)) <==> !DropsLiveRunner(s, Rotate(r))
  {
    var t := RotateAway(s, r);
    if DropsLiveRunner(s, Rotate(r)) {
      assert t.active.None? && !t.runners[r].quarantined && t.runners[r].recoveries == 0;
    } else if s.active == Some(r) && t.active.None? {
      var u := With(s, r, s.runners[r].(rotations := s.runners[r].rotations - 1));
      assert FirstStandby(u.runners, r, 0).None?;
      forall i | 0 <= i < |s.runners| && i != r ensures !s.runners[i].Available() {
        assert u.runners[i] == s.runners[i];
      }
    }
  }

  lemma {:induction false} OtherStepKeepsCapacity(s: Pool, e: Event)
    requires Safe(s) && NoLostCapacity(s) && Enabled(s, e) && !e.Rotate?
    ensures NoLostCapacity(Apply(s, e))
  {
    match e {
      case Ensure(build) => EnsureKeepsCapacity(s, build);
      case Timeout(g) => AbandonKeepsCapacity(s, g);
      case _ =>
    }
  }

  lemma {:induction false} EnsureKeepsCapacity(s: Pool, build: Build)
    requires NoLostCapacity(s)
    ensures NoLostCapacity(EnsureRuntime(s, build))
  {
  }

  lemma {:induction false} AbandonKeepsCapacity(s: Pool, g: Graph)
    requires NoLostCapacity(s)
    ensures NoLostCapacity(AbandonCall(s, g))
  {
  }

  lemma {:induction false} StepKeepsCapacityIff(s: Pool, e: Event)
    requires Safe(s) && NoLostCapacity(s) && Enabled(s, e)
    ensures NoLostCapacity(Apply(s, e)) <==> !DropsLiveRunner(s, e)
  {
    if e.Rotate? {
      RotateKeepsCapacityIff(s, e.runner);
    } else {
      OtherStepKeepsCapacity(s, e);
    }
  }

  /** The ordering hypothesis: no heartbeat is answered while its own rotation is still pending. */
  ghost predicate OrderedStep(s: Pool, e: Event) {
    e.ProbeAnswered? && e.runner < |s.runners| ==> s.runners[e.runner].rotations == 0
  }

  ghost predicate Ordered(s: Pool, es: seq<Event>)
    decreases |es|
  {
    es != [] ==> OrderedStep(s, es[0]) && (Enabled(s, es[0]) ==> Ordered(Apply(s, es[0]), es[1..]))
  }

  /** In ordered runs a pending rotation always finds its runner still quarantined. */
  ghost predicate RotationsFindQuarantine(s: Pool) {
    forall r :: 0 <= r < |s.runners| ==> s.runners[r].rotations <= (if s.runners[r].quarantined then 1 else 0)
  }

  lemma {:induction false} OrderedStepKeepsRotations(s: Pool, e: Event)
    requires RotationsFindQuarantine(s) && Enabled(s, e) && OrderedStep(s, e)
    ensures RotationsFindQuarantine(Apply(s, e))
  {
    match e {
      case Ensure(build) => EnsureKeepsRotations(s, build);
      case Rotate(r) => RotationKeepsRotations(s, r);
      case Timeout(g) => AbandonKeepsRotations(s, g);
      case _ =>
    }
  }

  lemma {:induction false} EnsureKeepsRotations(s: Pool, build: Build)
    requires RotationsFindQuarantine(s)
    ensures RotationsFindQuarantine(EnsureRuntime(s, build))
  {
  }

  lemma {:induction false} RotationKeepsRotations(s: Pool, r: RunnerId)
    requires RotationsFindQuarantine(s) && r < |s.runners| && s.runners[r].rotations > 0
    ensures RotationsFindQuarantine(RotateAway(s, r))
  {
    var t := RotateAway(s, r);
    assert forall i :: 0 <= i < |t.runners| ==> t.runners[i].rotations <= if i < |s.runners| then s.runners[i].rotations else 0;
  }

  lemma {:induction false} AbandonKeepsRotations(s: Pool, g: Graph)
    requires RotationsFindQuarantine(s)
    ensures RotationsFindQuarantine(AbandonCall(s, g))
  {
  }

  lemma {:induction false} OrderedRunKeepsCapacity(s: Pool, es: seq<Event>, t: Pool)
    requires Safe(s) && NoLostCapacity(s) && RotationsFindQuarantine(s)
    requires Reaches(s, es, t) && Ordered(s, es)
    ensures NoLostCapacity(t) && RotationsFindQuarantine(t)
    decreases |es|
  {
    if es != [] {
      var e := es[0];
      StepIsSafe(s, e);
      assert !DropsLiveRunner(s, e);
      StepKeepsCapacityIff(s, e);
      OrderedStepKeepsRotations(s, e);
      OrderedRunKeepsCapacity(Apply(s, e), es[1..], t);
    }
  }

  /** A quarantined runner has a heartbeat in flight, unless one of its heartbeats was lost. */
  ghost predicate QuarantineIsProbed(s: Pool) {
    forall r :: 0 <= r < |s.runners| && s.runners[r].quarantined ==> s.runners[r].probes > 0
  }

  lemma {:induction false} StepKeepsProbes(s: Pool, e: Event)
    requires QuarantineIsProbed(s) && Enabled(s, e) && !e.ProbeLost?
    ensures QuarantineIsProbed(Apply(s, e))
  {
    match e {
      case Ensure(build) => EnsureKeepsProbes(s, build);
      case Timeout(g) => AbandonKeepsProbes(s, g);
      case Rotate(r) => RotationKeepsProbes(s, r);
      case _ =>
    }
  }

  lemma {:induction false} EnsureKeepsProbes(s: Pool, build: Build)
    requires QuarantineIsProbed(s)
    ensures QuarantineIsProbed(EnsureRuntime(s, build))
  {
  }

  lemma {:induction false} AbandonKeepsProbes(s: Pool, g: Graph)
    requires QuarantineIsProbed(s)
    ensures QuarantineIsProbed(AbandonCall(s, g))
  {
  }

  lemma {:induction false} RotationKeepsProbes(s: Pool, r: RunnerId)
    requires QuarantineIsProbed(s) && r < |s.runners| && s.runners[r].rotations > 0
    ensures QuarantineIsProbed(RotateAway(s, r))
  {
    var t := RotateAway(s, r);
    forall i | 0 <= i < |t.runners| && t.runners[i].quarantined ensures t.runners[i].probes > 0 {
      assert i < |s.runners| && s.runners[i].quarantined;
    }
  }

  lemma {:induction false} RunKeepsProbes(s: Pool, es: seq<Event>, t: Pool)
    requires QuarantineIsProbed(s) && Reaches(s, es, t)
    requires forall e :: e in es ==> !e.ProbeLost?
    ensures QuarantineIsProbed(t)
    decreases |es|
  {
    if es != [] {
      StepKeepsProbes(s, es[0]);
      RunKeepsProbes(Apply(s, es[0]), es[1..], t);
    }
  }

  /** What is left to run for runner r before its callback restores it. */
  function PendingRecovery(s: Pool, r: RunnerId): seq<Event>
    requires r < |s.runners|
  {
    if s.runners[r].recoveries > 0 then [Recover(r)]
    else if s.runners[r].rotations > 0 then [Rotate(r), ProbeAnswered(r), Recover(r)]
    else [ProbeAnswered(r), Recover(r)]
  }

  lemma {:induction false} PendingRecoveryRestores(s: Pool, r: RunnerId, es: seq<Event>) returns (t: Pool)
    requires s.active.None? && r < |s.runners|
    requires RotationsFindQuarantine(s) && QuarantineIsProbed(s)
    requires s.runners[r].quarantined || s.runners[r].recoveries > 0
    requires es == PendingRecovery(s, r)
    ensures Reaches(s, es, t) && Ordered(s, es)
    ensures t.active == Some(r) && t.published == s.runners[r].graph
    decreases |es|
  {
    var u := Apply(s, es[0]);
    if |es| == 1 {
      t := u;
    } else if es[0].Rotate? {
      OrderedStepKeepsRotations(s, es[0]);
      StepKeepsProbes(s, es[0]);
      assert es[1..] == PendingRecovery(u, r);
      t := PendingRecoveryRestores(u, r, es[1..]);
    } else {
      OrderedStepKeepsRotations(s, es[0]);
      StepKeepsProbes(s, es[0]);
      assert es[1..] == PendingRecovery(u, r);
      t := PendingRecoveryRestores(u, r, es[1..]);
    }
  }

  /**
    No lost capacity, as liveness: in an ordered run without lost heartbeats, whenever no runner
    is active, finishing the pending work of ANY one runner makes it active with its own graph.
   */
  lemma {:induction false} NextRecoveryRestores(toolsReady: bool, es: seq<Event>, s: Pool,
        r: RunnerId) returns (t: Pool)
    requires Reaches(Initial(toolsReady), es, s) && Ordered(Initial(toolsReady), es)
    requires forall e :: e in es ==> !e.ProbeLost?
    requires s.active.None? && r < |s.runners|
    ensures Reaches(s, PendingRecovery(s, r), t) && Ordered(s, PendingRecovery(s, r))
    ensures t.active == Some(r) && t.published == s.runners[r].graph
  {
    var z := Initial(toolsReady);
    InitialIsSafe(toolsReady);
    OrderedRunKeepsCapacity(z, es, s);
    RunKeepsProbes(z, es, s);
    t := PendingRecoveryRestores(s, r, PendingRecovery(s, r));
  }

  // ---- A quarantined active runner ----------------------------------------------------------------

  ghost predicate ActiveIsQuarantined(s: Pool) {
    s.active.Some? && s.active.value < |s.runners| && s.runners[s.active.value].quarantined
  }

  /** A quarantined active runner is about to be rotated away from. */
  ghost predicate QuarantinedActiveIsLeaving(s: Pool) {
    ActiveIsQuarantined(s) ==> s.runners[s.active.value].rotations > 0
  }

  /** The callback of an older heartbeat installs a runner that was quarantined again meanwhile. */
  predicate InstallsQuarantined(s: Pool, e: Event) {
    && e.Recover? && s.active.None?
    && e.runner < |s.runners| && s.runners[e.runner].quarantined
    && s.runners[e.runner].rotations == 0
  }

  lemma {:induction false} StepKeepsLeavingIff(s: Pool, e: Event)
    requires Safe(s) && QuarantinedActiveIsLeaving(s) && Enabled(s, e)
    ensures QuarantinedActiveIsLeaving(Apply(s, e)) <==> !InstallsQuarantined(s, e)
  {
    match e {
      case Ensure(build) => EnsureKeepsActive(s, build);
      case Rotate(r) => RotationLeavesAvailable(s, r);
      case Recover(r) => RecoveryKeepsLeavingIff(s, r);
      case Timeout(g) => AbandonKeepsLeaving(s, g);
      case _ =>
    }
  }

  lemma {:induction false} RecoveryKeepsLeavingIff(s: Pool, r: RunnerId)
    requires QuarantinedActiveIsLeaving(s) && r < |s.runners| && s.runners[r].recoveries > 0
    ensures QuarantinedActiveIsLeaving(RestoreRunner(s, r)) <==> !InstallsQuarantined(s, Recover(r))
  {
  }

  lemma {:induction false} AbandonKeepsLeaving(s: Pool, g: Graph)
    requires QuarantinedActiveIsLeaving(s)
    ensures QuarantinedActiveIsLeaving(AbandonCall(s, g))
  {
  }

  lemma {:induction false} EnsureKeepsActive(s: Pool, build: Build)
    ensures var t := EnsureRuntime(s, build);
            t.active == s.active && (ActiveIsQuarantined(t) ==> ActiveIsQuarantined(s) && t.runners == s.runners)
  {
  }

  lemma {:induction false} RotationLeavesAvailable(s: Pool, r: RunnerId)
    requires r < |s.runners| && s.runners[r].rotations > 0 && QuarantinedActiveIsLeaving(s)
    ensures QuarantinedActiveIsLeaving(RotateAway(s, r))
  {
    var t := RotateAway(s, r);
    if s.active == Some(r) {
      assert !ActiveIsQuarantined(t);
    }
  }

  // ---- Witnesses ----------------------------------------------------------------------------------

  lemma {:induction false} ReachesOneMore(s: Pool, es: seq<Event>, t: Pool, e: Event)
    requires Reaches(s, es, t) && Enabled(t, e)
    ensures Reaches(s, es + [e], Apply(t, e))
    decreases |es|
  {
    if es == [] {
      assert (es + [e])[1..] == [];
    } else {
      assert (es + [e])[1..] == es[1..] + [e];
      ReachesOneMore(Apply(s, es[0]), es[1..], t, e);
    }
  }

  lemma {:induction false} OrderedOneMore(s: Pool, es: seq<Event>, t: Pool, e: Event)
    requires Reaches(s, es, t) && Ordered(s, es) && OrderedStep(t, e)
    ensures Ordered(s, es + [e])
    decreases |es|
  {
    if es == [] {
      assert (es + [e])[1..] == [];
    } else {
      assert (es + [e])[1..] == es[1..] + [e];
      OrderedOneMore(Apply(s, es[0]), es[1..], t, e);
    }
  }

  const G0 := Graph(0, 0)
  const G1 := Graph(1, 1)
  const HEALTHY1 := Runner(false, Some(G1), 0, 0, 0)
  const CALLS := [(G0, 0), (G0, 0), (G1, 1)]

  /** Two calls run on the first runner. */
  const BUSY := Pool([Runner(false, Some(G0), 0, 0, 0)], Some(0), Some(G0), true, 1,
                     {G0}, multiset{G0, G0}, [(G0, 0), (G0, 0)])
  /** One of them timed out and a second runner took over. */
  const REPLACED := Pool([Runner(true, Some(G0), 1, 0, 0), FRESH_RUNNER], Some(1), None, true, 1,
                         {G0}, multiset{G0}, [(G0, 0), (G0, 0)])

  /** The states after the call on the second runner timed out too. */
  function Late(r0: Runner, r1: Runner, active: Option<RunnerId>, published: Option<Graph>,
        inflight: multiset<Graph>): Pool {
    Pool([r0, r1], active, published, true, 2, {G0, G1}, inflight, CALLS)
  }

  const BOTH_TIMED_OUT :=
    Late(Runner(true, Some(G0), 1, 0, 0), Runner(true, Some(G1), 1, 1, 0), Some(1), Some(G1), multiset{G0})
  const NONE_ACTIVE :=
    Late(Runner(true, Some(G0), 1, 0, 0), Runner(true, Some(G1), 1, 0, 0), None, None, multiset{G0})
  const FIRST_REINSTALLED :=
    Late(Runner(true, Some(G0), 1, 0, 0), Runner(true, Some(G1), 1, 0, 0), Some(0), Some(G0), multiset{})
  const STALLED :=
    Late(Runner(true, Some(G0), 1, 0, 0), HEALTHY1, Some(0), Some(G0), multiset{})
  const LOST :=
    Late(Runner(true, Some(G0), 1, 0, 0), HEALTHY1, None, None, multiset{G0})

  lemma {:induction false} Extend(z: Pool, es: seq<Event>, s: Pool, e: Event) returns (t: Pool, fs: seq<Event>)
    requires Reaches(z, es, s) && Enabled(s, e)
    ensures t == Apply(s, e) && fs == es + [e] && Reaches(z, fs, t)
    ensures Ordered(z, es) && OrderedStep(s, e) ==> Ordered(z, fs)
  {
    t, fs := Apply(s, e), es + [e];
    ReachesOneMore(z, es, s, e);
    if Ordered(z, es) && OrderedStep(s, e) {
      OrderedOneMore(z, es, s, e);
    }
  }

  lemma {:induction false} ReachBusy() returns (es: seq<Event>)
    ensures Reaches(Initial(true), es, BUSY) && Ordered(Initial(true), es)
  {
    var z, s := Initial(true), Initial(true);
    s, es := Extend(z, [], s, Ensure(Build(true, true)));
    s, es := Extend(z, es, s, Submit(G0));
    s, es := Extend(z, es, s, Submit(G0));
    assert s == BUSY;
  }

  lemma {:induction false} ReachReplaced() returns (es: seq<Event>)
    ensures Reaches(Initial(true), es, REPLACED) && Ordered(Initial(true), es)
  {
    var z, s := Initial(true), BUSY;
    es := ReachBusy();
    s, es := Extend(z, es, s, Timeout(G0));
    s, es := Extend(z, es, s, Rotate(0));
    assert s == REPLACED;
  }

  lemma {:induction false} ReachBothTimedOut() returns (es: seq<Event>)
    ensures Reaches(Initial(true), es, BOTH_TIMED_OUT) && Ordered(Initial(true), es)
  {
    var z, s := Initial(true), REPLACED;
    es := ReachReplaced();
    s, es := Extend(z, es, s, Ensure(Build(true, true)));
    assert s == Late(Runner(true, Some(G0), 1, 0, 0), HEALTHY1, Some(1), Some(G1), multiset{G0}).(submitted := CALLS[..2]);
    s, es := Extend(z, es, s, Submit(G1));
    s, es := Extend(z, es, s, Timeout(G1));
    assert s == BOTH_TIMED_OUT;
  }

  lemma {:induction false} ReachFirstReinstalled() returns (es: seq<Event>)
    ensures Reaches(Initial(true), es, FIRST_REINSTALLED) && Ordered(Initial(true), es)
  {
    var z, s := Initial(true), BOTH_TIMED_OUT;
    es := ReachBothTimedOut();
    s, es := Extend(z, es, s, Rotate(1));
    assert s == NONE_ACTIVE;
    s, es := Extend(z, es, s, ProbeAnswered(0));
    s, es := Extend(z, es, s, Timeout(G0));
    assert s == NONE_ACTIVE.(runners := [Runner(true, Some(G0), 1, 1, 1), NONE_ACTIVE.runners[1]], inflight := multiset{});
    s, es := Extend(z, es, s, Rotate(0));
    s, es := Extend(z, es, s, Recover(0));
    assert s == FIRST_REINSTALLED;
  }

  /**
    Without the ordering hypothesis capacity is lost: the second runner's heartbeat is answered and
    its callback runs before its own rotation, which then leaves no runner active although the
    second one takes work and nothing is pending for it.
   */
  lemma {:induction false} CapacityCanBeLost() returns (es: seq<Event>)
    ensures Reaches(Initial(true), es, LOST) && !NoLostCapacity(LOST)
  {
    var z, s := Initial(true), BOTH_TIMED_OUT;
    es := ReachBothTimedOut();
    s, es := Extend(z, es, s, ProbeAnswered(1));
    s, es := Extend(z, es, s, Recover(1));
    s, es := Extend(z, es, s, Rotate(1));
    assert s == LOST;
    assert LOST.runners[1] == HEALTHY1;
  }

  /**
    Even in an ordered run the pool can refuse work while a runner would take it: a late timeout
    quarantines the first runner again before its older callback installs it, and the second
    runner's recovery then finds the place taken.
   */
  lemma {:induction false} OrderedRunCanStall() returns (es: seq<Event>)
    ensures Reaches(Initial(true), es, STALLED) && Ordered(Initial(true), es)
    ensures NoLostCapacity(STALLED) && !QuarantinedActiveIsLeaving(STALLED)
    ensures EnsureRefuses(STALLED) && STALLED.runners[1].Available()
  {
    var z, s := Initial(true), FIRST_REINSTALLED;
    es := ReachFirstReinstalled();
    s, es := Extend(z, es, s, ProbeAnswered(1));
    s, es := Extend(z, es, s, Recover(1));
    assert s == STALLED;
  }
}
