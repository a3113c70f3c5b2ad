/**
  The runner pool as the objects the program mutates, one method for each locked section.
  Every method is the corresponding step of RunnerPool on the value of the objects.
 */
module GraphRuntime {
  import opened Prelude
  import opened RunnerPool

  class LoopRunner {
    const id: RunnerId
    var quarantined: bool
    var graph: Option<Graph>
    ghost var probes: nat
    ghost var rotations: nat
    ghost var recoveries: nat

    constructor (id: RunnerId)
      ensures this.id == id && Value() == FRESH_RUNNER
    {
      this.id := id;
      quarantined, graph := false, None;
      probes, rotations, recoveries := 0, 0, 0;
    }

    ghost function Value(): Runner
      reads this
    {
      Runner(quarantined, graph, probes, rotations, recoveries)
    }
  }

  class AgentRuntime {
    var runners: seq<LoopRunner>
    var active: LoopRunner?
    var agentGraph: Option<Graph>
    var toolsReady: bool
    var built: nat
    ghost var held: set<Graph>
    ghost var inflight: multiset<Graph>
    ghost var submitted: seq<(Graph, RunnerId)>

    ghost predicate Valid()
      reads this, runners
    {
      && (forall i :: 0 <= i < |runners| ==> runners[i].id == i)
      && (active != null ==> active in runners)
    }

    ghost function View(): Pool
      reads this, runners, active
    {
      Pool(seq(|runners|, i requires 0 <= i < |runners| reads this, runners => runners[i].Value()),
           if active == null then None else Some(active.id), agentGraph, toolsReady, built,
           held, inflight, submitted)
    }

    constructor (toolsReady: bool)
      ensures Valid() && fresh(runners) && View() == Initial(toolsReady)
    {
      var first := new LoopRunner(0);
      runners, active, agentGraph := [first], first, None;
      this.toolsReady, built := toolsReady, 0;
      held, inflight, submitted := {}, multiset{}, [];
    }

    method EnsureAgentRuntime(build: Build) returns (graph: Option<Graph>)
      requires Valid()
      modifies this, runners
      ensures Valid() && runners == old(runners)
      ensures View() == EnsureRuntime(old(View()), build)
      ensures graph.Some? ==> graph == agentGraph && graph.value in held
      ensures graph.None? <==> EnsureRefuses(old(View())) || (!AlreadyPublished(old(View())) && BuildFails(old(View()), build))
      ensures graph.Some? <==>
                var s := old(View());
                && s.active.Some? && s.active.value < |s.runners| && !s.runners[s.active.value].quarantined
                && ((s.toolsReady && s.published.Some? && s.published.value.owner == s.active.value)
                    || ((s.toolsReady || build.tools) && build.graph))
    {
      ghost var before := View();
      if active == null || active.quarantined {
        return None;
      }
      if toolsReady && agentGraph.Some? && agentGraph.value.owner == active.id {
        held := held + {agentGraph.value};
        assert View().runners == before.runners;
        return agentGraph;
      }
      if !toolsReady && !build.tools {
        return None;
      }
      toolsReady := true;
      if !build.graph {
        assert View().runners == before.runners;
        return None;
      }
      var candidate := Graph(built, active.id);
      active.graph := Some(candidate);
      agentGraph, built, held := Some(candidate), built + 1, held + {candidate};
      assert View().runners == EnsureRuntime(before, build).runners;
      return agentGraph;
    }

    method SubmitCall(graph: Graph) returns (accepted: bool)
      requires Valid() && graph.owner < |runners|
      modifies this`inflight, this`submitted
      ensures Valid() && View() == SubmitGraph(old(View()), graph)
      ensures accepted <==> !runners[graph.owner].quarantined
    {
      accepted := !runners[graph.owner].quarantined;
      if accepted {
        inflight, submitted := inflight + multiset{graph}, submitted + [(graph, graph.owner)];
      }
    }

    /** The deadline of a call passes: its loop takes no more work until a heartbeat comes back. */
    method QuarantineOwner(graph: Graph) returns (mustRotate: bool)
      requires Valid() && graph.owner < |runners|
      modifies this`inflight, runners
      ensures Valid() && View() == AbandonCall(old(View()), graph)
      ensures mustRotate <==> !old(runners[graph.owner].quarantined)
    {
      ghost var before := View();
      inflight := inflight - multiset{graph};
      var runner := runners[graph.owner];
      mustRotate := !runner.quarantined;
      if mustRotate {
        runner.quarantined := true;
        runner.probes, runner.rotations := runner.probes + 1, runner.rotations + 1;
      }
      assert View().runners == AbandonCall(before, graph).runners;
    }

    method FindStandby(runner: LoopRunner) returns (standby: LoopRunner?)
      requires Valid() && runner in runners
      ensures standby != null ==> standby in runners
      ensures (if standby == null then None else Some(standby.id)) == FirstStandby(View().runners, runner.id, 0)
    {
      var i := 0;
      while i < |runners|
        invariant 0 <= i <= |runners|
        invariant FirstStandby(View().runners, runner.id, 0) == FirstStandby(View().runners, runner.id, i)
      {
        if runners[i] != runner && !runners[i].quarantined {
          return runners[i];
        }
        i := i + 1;
      }
      standby := null;
    }

    /** The first other runner that takes work, or a new one while the pool has room. */
    method PickStandby(runner: LoopRunner) returns (standby: LoopRunner?)
      requires Valid() && runner in runners
      modifies this`runners
      ensures Valid() && old(runners) <= runners && (standby != null ==> standby in runners)
      ensures var found := FirstStandby(old(View()).runners, runner.id, 0);
              if found.Some? then runners == old(runners) && standby == runners[found.value]
              else if |old(runners)| < GRAPH_RUNNER_CAPACITY then
                fresh(standby) && standby.Value() == FRESH_RUNNER && runners == old(runners) + [standby]
              else runners == old(runners) && standby == null
    {
      standby := FindStandby(runner);
      if standby == null && |runners| < GRAPH_RUNNER_CAPACITY {
        standby := new LoopRunner(|runners|);
        runners := runners + [standby];
      }
    }

    method RotateFrom(runner: LoopRunner)
      requires Valid() && runner in runners && runner.rotations > 0
      modifies this`runners, this`active, this`agentGraph, runner`rotations
      ensures Valid() && old(runners) <= runners && fresh(runners[|old(runners)|..])
      ensures View() == RotateAway(old(View()), runner.id)
    {
      ghost var before := View();
      runner.rotations := runner.rotations - 1;
      ghost var mid := View();
      assert mid == With(before, runner.id, runner.Value());
      if active != runner {
        return;
      }
      TakeOver(runner);
    }

    /** The rest of the rotation, once the active runner is known to be the one that was quarantined. */
    method TakeOver(runner: LoopRunner)
      requires Valid() && active == runner && runner in runners
      modifies this`runners, this`active, this`agentGraph
      ensures Valid() && old(runners) <= runners && fresh(runners[|old(runners)|..])
      ensures View() == Replaced(old(View()), runner.id)
    {
      ghost var before := View();
      var standby := PickStandby(runner);
      active := standby;
      agentGraph := if standby != null then standby.graph else None;
      assert View().runners == before.runners + (if |runners| == |before.runners| then [] else [FRESH_RUNNER]);
    }

    /** A heartbeat's future completes without an error. */
    method HeartbeatAnswered(runner: LoopRunner)
      requires Valid() && runner in runners && runner.probes > 0
      modifies runners
      ensures Valid() && View() == AnswerProbe(old(View()), runner.id)
    {
      ghost var before := View();
      runner.quarantined := false;
      runner.probes, runner.recoveries := runner.probes - 1, runner.recoveries + 1;
      assert View().runners == AnswerProbe(before, runner.id).runners;
    }

    method OnRunnerRecovered(runner: LoopRunner)
      requires Valid() && runner in runners && runner.recoveries > 0
      modifies this`active, this`agentGraph, runners
      ensures Valid() && View() == RestoreRunner(old(View()), runner.id)
    {
      ghost var before := View();
      runner.recoveries := runner.recoveries - 1;
      if active == null {
        active := runner;
        agentGraph := runner.graph;
      }
      assert View().runners == RestoreRunner(before, runner.id).runners;
    }
  }
}
