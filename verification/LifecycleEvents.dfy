/** The audit of specialist tasks, stated event by event: what it accepts, and what it counts. */
module LifecycleEvents {
  import opened Prelude
  import opened GateInputs
  import opened Lifecycle

  // ---- The audit, event by event -----------------------------------------------------------------------

  ghost predicate Occurs(trace: seq<TraceEvent>, s: Status) {
    exists i :: 0 <= i < |trace| && trace[i].status == s
  }

  ghost predicate AtMostOnce(trace: seq<TraceEvent>, s: Status) {
    forall i, j :: 0 <= i < j < |trace| ==> trace[i].status != s || trace[j].status != s
  }

  lemma {:induction false} OccursAppend(trace: seq<TraceEvent>, e: TraceEvent, s: Status)
    ensures Occurs(trace + [e], s) <==> Occurs(trace, s) || e.status == s
    ensures AtMostOnce(trace + [e], s) <==> AtMostOnce(trace, s) && (e.status == s ==> !Occurs(trace, s))
  {
    var longer := trace + [e];
    assert forall i :: 0 <= i < |trace| ==> longer[i] == trace[i];
    assert longer[|trace|] == e;
  }

  lemma {:induction false} CountIs(trace: seq<TraceEvent>, s: Status)
    ensures CountStatus(trace, s) == 0 <==> !Occurs(trace, s)
    ensures CountStatus(trace, s) <= 1 <==> AtMostOnce(trace, s)
  {
    if trace != [] {
      var front, last := trace[..|trace| - 1], trace[|trace| - 1];
      CountIs(front, s);
      OccursAppend(front, last, s);
      assert trace == front + [last];
    }
  }

  /** Planned once, ended once in one of three ways, started at most once, and started unless it was skipped. */
  ghost predicate OneLife(trace: seq<TraceEvent>) {
    && Occurs(trace, Planned) && AtMostOnce(trace, Planned) && AtMostOnce(trace, Started)
    && AtMostOnce(trace, Completed) && AtMostOnce(trace, Failed) && AtMostOnce(trace, Skipped)
    && ((Occurs(trace, Completed) && !Occurs(trace, Failed) && !Occurs(trace, Skipped) && Occurs(trace, Started))
        || (!Occurs(trace, Completed) && Occurs(trace, Failed) && !Occurs(trace, Skipped) && Occurs(trace, Started))
        || (!Occurs(trace, Completed) && !Occurs(trace, Failed) && Occurs(trace, Skipped)))
  }

  /** One specialist's role and one parent throughout, and no call count missing or negative. */
  ghost predicate OneOwner(trace: seq<TraceEvent>) {
    exists role: string, parent: string :: role in {"listings", "mobility", "area_evidence"} && Owns(role, parent, trace)
  }

  ghost predicate Owns(role: string, parent: string, trace: seq<TraceEvent>) {
    forall i :: 0 <= i < |trace| ==>
      && trace[i].role == Given(role) && trace[i].parent == Given(parent)
      && trace[i].callCount.Given? && trace[i].callCount.value >= 0
  }

  lemma {:induction false} BalancedIff(trace: seq<TraceEvent>)
    ensures Balanced(trace) <==> OneLife(trace)
  {
    CountIs(trace, Planned);
    CountIs(trace, Started);
    CountIs(trace, Completed);
    CountIs(trace, Failed);
    CountIs(trace, Skipped);
  }

  /** What the audit accepts, event by event. */
  lemma {:induction false} AuditAcceptsIff(trace: seq<TraceEvent>)
    ensures AuditAccepts(trace) <==> OneLife(trace) && OneOwner(trace)
  {
    BalancedIff(trace);
    if AuditAccepts(trace) {
      CountIs(trace, Planned);
      var role, parent := trace[0].role.value, trace[0].parent.value;
      assert role in {"listings", "mobility", "area_evidence"} && Owns(role, parent, trace);
    }
    if OneLife(trace) && OneOwner(trace) {
      var role: string, parent: string :| role in {"listings", "mobility", "area_evidence"} && Owns(role, parent, trace);
      assert forall i :: 0 <= i < |trace| ==> IsOneOf(trace[i].role, SPECIALIST_ROLES);
    }
  }

  // ---- What else it counts ---------------------------------------------------------------------------

  predicate IsSpecialist(role: Field<string>) {
    role == Given("listings") || role == Given("mobility") || role == Given("area_evidence")
  }

  lemma {:induction false} SpecialistToolsIff(events: seq<ToolEvent>, n: nat)
    requires n <= |events|
    ensures SpecialistTools(events, n) > 0 <==> exists i :: 0 <= i < n && IsSpecialist(events[i].role)
  {
    if n > 0 { SpecialistToolsIff(events, n - 1); }
  }

  ghost predicate HasSpecialistTool(r: Run) {
    r.lifecycle.Given? && r.toolEvents.Given?
    && exists i :: 0 <= i < |r.toolEvents.value| && IsSpecialist(r.toolEvents.value[i].role)
  }

  /** Tool calls are reported exactly if a run with a lifecycle list holds one of a specialist. */
  lemma {:induction false} ToolCallsIff(runs: seq<Run>, n: nat)
    requires n <= |runs|
    ensures ToolCalls(runs, n) > 0 <==> exists i :: 0 <= i < n && HasSpecialistTool(runs[i])
  {
    if n > 0 {
      ToolCallsIff(runs, n - 1);
      var r := runs[n - 1];
      SpecialistToolsIff(Items(r.toolEvents), |Items(r.toolEvents)|);
      assert HasSpecialistTool(r) <==> r.lifecycle.Given? && SpecialistTools(Items(r.toolEvents), |Items(r.toolEvents)|) > 0;
    }
  }

  lemma {:induction false} SpecialistUsageIff(events: seq<UsageEvent>, n: nat)
    requires n <= |events|
    ensures SpecialistUsage(events, n) > 0 <==> exists i :: 0 <= i < n && IsSpecialist(events[i].role)
  {
    if n > 0 { SpecialistUsageIff(events, n - 1); }
  }

  ghost predicate HasSpecialistUsage(r: Run) {
    r.lifecycle.Given? && r.usage.Given? && exists i :: 0 <= i < |r.usage.value| && IsSpecialist(r.usage.value[i].role)
  }

  lemma {:induction false} ModelCallsIff(runs: seq<Run>, n: nat)
    requires n <= |runs|
    ensures ModelCalls(runs, n) > 0 <==> exists i :: 0 <= i < n && HasSpecialistUsage(runs[i])
  {
    if n > 0 {
      ModelCallsIff(runs, n - 1);
      var r := runs[n - 1];
      SpecialistUsageIff(Items(r.usage), |Items(r.usage)|);
      assert HasSpecialistUsage(r) <==> r.lifecycle.Given? && SpecialistUsage(Items(r.usage), |Items(r.usage)|) > 0;
    }
  }

  lemma {:induction false} MalformedOfRunIff(r: Run, n: nat)
    requires n <= |Items(r.lifecycle)|
    ensures MalformedOfRun(r, n) > 0 <==> exists i :: 0 <= i < n && Items(r.lifecycle)[i].NotAnObject?
    ensures EventsOfRun(r, n) != [] <==> exists i :: 0 <= i < n && Items(r.lifecycle)[i].Object?
  {
    if n > 0 { MalformedOfRunIff(r, n - 1); }
  }

  ghost predicate HasEntry(r: Run, isObject: bool) {
    r.lifecycle.Given? && exists i :: 0 <= i < |r.lifecycle.value| && r.lifecycle.value[i].Object? == isObject
  }

  lemma {:induction false} HasEntryIff(r: Run)
    ensures HasEntry(r, false) <==> MalformedOfRun(r, |Items(r.lifecycle)|) > 0
    ensures HasEntry(r, true) <==> EventsOfRun(r, |Items(r.lifecycle)|) != []
  {
    MalformedOfRunIff(r, |Items(r.lifecycle)|);
  }

  /** Entries that are no objects are reported. */
  lemma {:induction false} MalformedIff(runs: seq<Run>, n: nat)
    requires n <= |runs|
    ensures Malformed(runs, n) > 0 <==> exists i :: 0 <= i < n && HasEntry(runs[i], false)
  {
    if n > 0 {
      MalformedIff(runs, n - 1);
      HasEntryIff(runs[n - 1]);
    }
  }

  function EventsIn(r: Run): seq<Tagged> {
    EventsOfRun(r, |Items(r.lifecycle)|)
  }

  function EventTotal(runs: seq<Run>, n: nat): nat
    requires n <= |runs|
  {
    if n == 0 then 0 else EventTotal(runs, n - 1) + |EventsIn(runs[n - 1])|
  }

  lemma {:induction false} TotalIsLength(runs: seq<Run>, n: nat)
    requires n <= |runs|
    ensures |AllEvents(runs, n)| == EventTotal(runs, n)
  {
    if n > 0 { TotalIsLength(runs, n - 1); }
  }

  lemma {:induction false} TotalIsZeroIff(runs: seq<Run>, n: nat)
    requires n <= |runs|
    ensures EventTotal(runs, n) == 0 <==> forall i :: 0 <= i < n ==> |EventsIn(runs[i])| == 0
  {
    if n > 0 { TotalIsZeroIff(runs, n - 1); }
  }

  /** There is a task exactly if some entry is an object. */
  lemma {:induction false} TasksIff(runs: seq<Run>, n: nat)
    requires n <= |runs|
    ensures AllEvents(runs, n) != [] <==> exists i :: 0 <= i < n && HasEntry(runs[i], true)
  {
    TotalIsLength(runs, n);
    TotalIsZeroIff(runs, n);
    forall i | 0 <= i < n ensures HasEntry(runs[i], true) <==> |EventsIn(runs[i])| > 0 {
      HasEntryIff(runs[i]);
    }
  }

  /** The tagged event t is entry i of the run: its task is the run's key, the plan and the task it names. */
  ghost predicate IsEntryOf(t: Tagged, r: Run, i: int) {
    && r.lifecycle.Given? && 0 <= i < |r.lifecycle.value| && r.lifecycle.value[i] == Object(t.event)
    && t.key.run == KeyOf(r)
    && t.key.planId == (if t.event.planId.Given? then Some(t.event.planId.value) else None)
    && t.key.taskId == (if t.event.taskId.Given? then Some(t.event.taskId.value) else None)
  }

  lemma {:induction false} EventsOfRunAre(r: Run, n: nat, t: Tagged)
    requires n <= |Items(r.lifecycle)|
    ensures t in EventsOfRun(r, n) <==> exists i :: 0 <= i < n && IsEntryOf(t, r, i)
  {
    if n > 0 {
      EventsOfRunAre(r, n - 1, t);
      var entry := Items(r.lifecycle)[n - 1];
      if entry.Object? {
        assert IsEntryOf(t, r, n - 1) <==> t == Tagged(KeyFor(r, entry.event), entry.event);
      }
    }
  }

  ghost predicate FromRun(t: Tagged, r: Run) {
    exists i :: 0 <= i < |Items(r.lifecycle)| && IsEntryOf(t, r, i)
  }

  /** The events audited are exactly the object entries of the lists, each under its run, plan and task. */
  lemma {:induction false} EventsAre(runs: seq<Run>, n: nat, t: Tagged)
    requires n <= |runs|
    ensures t in AllEvents(runs, n) <==> exists k :: 0 <= k < n && FromRun(t, runs[k])
  {
    if n > 0 {
      EventsAre(runs, n - 1, t);
      EventsOfRunAre(runs[n - 1], |Items(runs[n - 1].lifecycle)|, t);
    }
  }
}
