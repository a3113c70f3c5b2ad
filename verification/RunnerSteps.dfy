/** The steps of the runner pool, stated on its fields. */
module RunnerSteps {
  import opened Prelude
  import opened RunnerPool

  /** Whether the caller of _ensure_agent_runtime gets a graph, which, and what is built for it. */
  lemma {:induction false} EnsureIs(s: Pool, build: Build)
    ensures var t := EnsureRuntime(s, build);
      var takesWork := s.active.Some? && s.active.value < |s.runners| && !s.runners[s.active.value].quarantined;
      var ready := s.toolsReady && s.published.Some? && s.active == Some(s.published.value.owner);
      && t.active == s.active && t.inflight == s.inflight && t.submitted == s.submitted && |t.runners| == |s.runners|
      && (t.toolsReady <==> s.toolsReady || (takesWork && build.tools))
      && (t.built == s.built + 1 <==> takesWork && !ready && (s.toolsReady || build.tools) && build.graph)
      && (t.built == s.built <==> t.built != s.built + 1)
      && (t.built == s.built ==> t.runners == s.runners && t.published == s.published)
      && (t.built == s.built + 1 ==>
            && t.published == Some(Graph(s.built, s.active.value)) && t.runners[s.active.value].graph == t.published
            && t.runners[s.active.value] == s.runners[s.active.value].(graph := t.published)
            && forall i :: 0 <= i < |s.runners| && i != s.active.value ==> t.runners[i] == s.runners[i])
      && t.held == (if takesWork && (ready || t.built == s.built + 1) then s.held + {t.published.value} else s.held)
  {
  }

  /** Only the rotation away from the active runner changes more: who is active next. */
  lemma {:induction false} RotationIs(s: Pool, r: RunnerId)
    requires r < |s.runners| && s.runners[r].rotations > 0
    ensures var t := RotateAway(s, r);
      && |s.runners| <= |t.runners| && t.toolsReady == s.toolsReady && t.built == s.built && t.held == s.held
      && t.inflight == s.inflight && t.submitted == s.submitted
      && t.runners[r] == s.runners[r].(rotations := s.runners[r].rotations - 1)
      && (forall i :: 0 <= i < |s.runners| && i != r ==> t.runners[i] == s.runners[i])
      && (s.active != Some(r) ==> t.active == s.active && t.published == s.published && |t.runners| == |s.runners|)
      && (s.active == Some(r) && (exists i :: 0 <= i < |s.runners| && i != r && !s.runners[i].quarantined) ==>
            && |t.runners| == |s.runners| && t.active.Some? && t.active.value < |s.runners| && t.active.value != r
            && !s.runners[t.active.value].quarantined && t.published == s.runners[t.active.value].graph
            && forall i :: 0 <= i < t.active.value && i != r ==> s.runners[i].quarantined)
      && (s.active == Some(r) && (forall i :: 0 <= i < |s.runners| && i != r ==> s.runners[i].quarantined) ==>
            if |s.runners| < 2 then
              t.runners[|s.runners|..] == [Runner(false, None, 0, 0, 0)] && t.active == Some(|s.runners|) && t.published == None
            else |t.runners| == |s.runners| && t.active == None && t.published == None)
  {
  }

  /** A runner whose heartbeat came back takes over exactly if there is no active one. */
  lemma {:induction false} RecoveryIs(s: Pool, r: RunnerId)
    requires r < |s.runners| && s.runners[r].recoveries > 0
    ensures var t := RestoreRunner(s, r);
      && t == s.(runners := t.runners, active := t.active, published := t.published)
      && t.runners == s.runners[r := s.runners[r].(recoveries := s.runners[r].recoveries - 1)]
      && t.active == (if s.active == None then Some(r) else s.active)
      && t.published == (if s.active == None then s.runners[r].graph else s.published)
  {
  }

  /** Calls: accepted by a runner that is not quarantined; a passed deadline quarantines it, once. */
  lemma {:induction false} CallsAre(s: Pool, g: Graph)
    requires g.owner < |s.runners|
    ensures var t := SubmitGraph(s, g); var x := s.runners[g.owner];
      if x.quarantined then t == s
      else t == s.(inflight := s.inflight + multiset{g}, submitted := s.submitted + [(g, g.owner)])
    ensures var t := AbandonCall(s, g); var x := s.runners[g.owner];
      && t == s.(runners := t.runners, inflight := s.inflight - multiset{g}) && |t.runners| == |s.runners|
      && t.runners[g.owner].quarantined && t.runners[g.owner].graph == x.graph
      && t.runners[g.owner].recoveries == x.recoveries
      && t.runners[g.owner].probes == x.probes + (if x.quarantined then 0 else 1)
      && t.runners[g.owner].rotations == x.rotations + (if x.quarantined then 0 else 1)
      && forall i :: 0 <= i < |s.runners| && i != g.owner ==> t.runners[i] == s.runners[i]
  {
  }

  /** An answered heartbeat clears the flag and owes the callback. */
  lemma {:induction false} AnswerIs(s: Pool, r: RunnerId)
    requires r < |s.runners| && s.runners[r].probes > 0
    ensures var x := s.runners[r];
      AnswerProbe(s, r) == s.(runners := s.runners[r := Runner(false, x.graph, x.probes - 1, x.rotations, x.recoveries + 1)])
  {
  }

  /** The tools, once constructed, stay; and every call that gets as far as constructing them leaves them. */
  lemma {:induction false} ToolsStay(s: Pool, e: Event)
    requires Enabled(s, e)
    ensures s.toolsReady ==> Apply(s, e).toolsReady
    ensures e.Ensure? && e.build.tools && !EnsureRefuses(s) ==> Apply(s, e).toolsReady
  {
    if e.Ensure? { EnsureIs(s, e.build); }
  }

  lemma {:induction false} ToolsStayForGood(s: Pool, es: seq<Event>, t: Pool)
    requires Reaches(s, es, t) && s.toolsReady
    ensures t.toolsReady
    decreases |es|
  {
    if es != [] {
      ToolsStay(s, es[0]);
      ToolsStayForGood(Apply(s, es[0]), es[1..], t);
    }
  }
}
