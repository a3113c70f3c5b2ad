/** The accounting of specialist tasks: the gate's audit and the benchmark's own summary. */
module Lifecycle {
  import opened Prelude
  import opened GateInputs

  datatype TaskKey = TaskKey(run: Key, planId: Option<string>, taskId: Option<string>)

  datatype Tagged = Tagged(key: TaskKey, event: TraceEvent)

  datatype Counts = Counts(planned: nat, started: nat, completed: nat, failed: nat, skipped: nat)

  function KeyFor(r: Run, e: TraceEvent): TaskKey {
    TaskKey(KeyOf(r), Get(e.planId), Get(e.taskId))
  }

  // ---- All events, in order ---------------------------------------------------------------------------

  /** The object entries among the first n of a run's lifecycle. */
  function EventsOfRun(r: Run, n: nat): seq<Tagged>
    requires n <= |Items(r.lifecycle)|
  {
    if n == 0 then []
    else
      var before, entry := EventsOfRun(r, n - 1), Items(r.lifecycle)[n - 1];
      if entry.Object? then before + [Tagged(KeyFor(r, entry.event), entry.event)] else before
  }

  function MalformedOfRun(r: Run, n: nat): nat
    requires n <= |Items(r.lifecycle)|
  {
    if n == 0 then 0
    else MalformedOfRun(r, n - 1) + if Items(r.lifecycle)[n - 1].NotAnObject? then 1 else 0
  }

  /** Every lifecycle event of the first n runs. */
  function AllEvents(runs: seq<Run>, n: nat): seq<Tagged>
    requires n <= |runs|
  {
    if n == 0 then []
    else AllEvents(runs, n - 1) + EventsOfRun(runs[n - 1], |Items(runs[n - 1].lifecycle)|)
  }

  function Malformed(runs: seq<Run>, n: nat): nat
    requires n <= |runs|
  {
    if n == 0 then 0
    else Malformed(runs, n - 1) + MalformedOfRun(runs[n - 1], |Items(runs[n - 1].lifecycle)|)
  }

  /** One task's events, in the order they were recorded. */
  function Trace(events: seq<Tagged>, key: TaskKey): seq<TraceEvent> {
    if events == [] then []
    else
      var last := events[|events| - 1];
      var before := Trace(events[..|events| - 1], key);
      if last.key == key then before + [last.event] else before
  }

  function KeysOf(events: seq<Tagged>): set<TaskKey> {
    set i | 0 <= i < |events| :: events[i].key
  }

  function CountStatus(trace: seq<TraceEvent>, s: Status): nat {
    if trace == [] then 0
    else CountStatus(trace[..|trace| - 1], s) + if trace[|trace| - 1].status == s then 1 else 0
  }

  /** Events of the given tasks with the given status. */
  function CountIn(events: seq<Tagged>, keys: set<TaskKey>, s: Status): nat {
    if events == [] then 0
    else
      var last := events[|events| - 1];
      CountIn(events[..|events| - 1], keys, s) + if last.key in keys && last.event.status == s then 1 else 0
  }

  function CountAll(events: seq<Tagged>, s: Status): nat {
    if events == [] then 0
    else CountAll(events[..|events| - 1], s) + if events[|events| - 1].event.status == s then 1 else 0
  }

  // ---- What makes a task valid ------------------------------------------------------------------------

  function Terminals(trace: seq<TraceEvent>): nat {
    CountStatus(trace, Completed) + CountStatus(trace, Failed) + CountStatus(trace, Skipped)
  }

  /** Planned once, started at most once, ended once, and started unless it was skipped. */
  predicate Balanced(trace: seq<TraceEvent>) {
    && CountStatus(trace, Planned) == 1
    && CountStatus(trace, Started) <= 1
    && Terminals(trace) == 1
    && (CountStatus(trace, Skipped) == 1 || CountStatus(trace, Started) == 1)
  }

  /** The audit also wants one specialist role, one parent and sane call counts. */
  predicate Attributed(trace: seq<TraceEvent>) {
    && (forall i :: 0 <= i < |trace| ==> IsOneOf(trace[i].role, SPECIALIST_ROLES))
    && (forall i :: 0 <= i < |trace| ==> trace[i].role == trace[0].role)
    && (forall i :: 0 <= i < |trace| ==> trace[i].parent.Given? && trace[i].parent == trace[0].parent)
    && (forall i :: 0 <= i < |trace| ==> trace[i].callCount.Given? && trace[i].callCount.value >= 0)
  }

  predicate AuditAccepts(trace: seq<TraceEvent>) {
    Balanced(trace) && Attributed(trace)
  }

  // ---- Grouping, as both functions do it ----------------------------------------------------------------

  function Grouped(events: seq<Tagged>): map<TaskKey, seq<TraceEvent>> {
    if events == [] then map[]
    else
      var last := events[|events| - 1];
      var before := Grouped(events[..|events| - 1]);
      before[last.key := (if last.key in before then before[last.key] else []) + [last.event]]
  }

  lemma {:induction false} GroupedAppend(events: seq<Tagged>, t: Tagged)
    ensures var before := Grouped(events);
      Grouped(events + [t]) == before[t.key := (if t.key in before then before[t.key] else []) + [t.event]]
  {
    assert (events + [t])[..|events|] == events;
  }

  lemma {:induction false} GroupedIsTraces(events: seq<Tagged>, key: TaskKey)
    ensures key in Grouped(events) <==> key in KeysOf(events)
    ensures key in Grouped(events) ==> Grouped(events)[key] == Trace(events, key)
    ensures key !in Grouped(events) ==> Trace(events, key) == []
  {
    if events != [] {
      var front, last := events[..|events| - 1], events[|events| - 1];
      GroupedIsTraces(front, key);
      assert events == front + [last];
      assert KeysOf(events) == KeysOf(front) + {last.key};
    }
  }

  lemma {:induction false} CountAppend(trace: seq<TraceEvent>, e: TraceEvent, s: Status)
    ensures CountStatus(trace + [e], s) == CountStatus(trace, s) + if e.status == s then 1 else 0
  {
    assert (trace + [e])[..|trace|] == trace;
  }

  lemma {:induction false} CountOneMore(events: seq<Tagged>, keys: set<TaskKey>, key: TaskKey, s: Status)
    requires key !in keys
    ensures CountIn(events, keys + {key}, s) == CountIn(events, keys, s) + CountStatus(Trace(events, key), s)
  {
    if events != [] {
      var front, last := events[..|events| - 1], events[|events| - 1];
      CountOneMore(front, keys, key, s);
      CountAppend(Trace(front, key), last.event, s);
    }
  }

  lemma {:induction false} CountOfEveryone(events: seq<Tagged>, keys: set<TaskKey>, s: Status)
    requires KeysOf(events) <= keys
    ensures CountIn(events, keys, s) == CountAll(events, s)
  {
    if events != [] {
      var front, last := events[..|events| - 1], events[|events| - 1];
      assert events[|events| - 1].key in KeysOf(events);
      forall k | k in KeysOf(front) ensures k in KeysOf(events) {
        var i :| 0 <= i < |front| && front[i].key == k;
        assert events[i].key == k;
      }
      CountOfEveryone(front, keys, s);
    }
  }

  lemma {:induction false} CountOfNobody(events: seq<Tagged>, s: Status)
    ensures CountIn(events, {}, s) == 0
  {
    if events != [] {
      CountOfNobody(events[..|events| - 1], s);
    }
  }

  // ---- The audit --------------------------------------------------------------------------------------

  function CountsIn(events: seq<Tagged>, keys: set<TaskKey>): Counts {
    Counts(CountIn(events, keys, Planned), CountIn(events, keys, Started), CountIn(events, keys, Completed),
           CountIn(events, keys, Failed), CountIn(events, keys, Skipped))
  }

  function AllCounts(events: seq<Tagged>): Counts {
    Counts(CountAll(events, Planned), CountAll(events, Started), CountAll(events, Completed),
           CountAll(events, Failed), CountAll(events, Skipped))
  }

  function PlusTrace(c: Counts, trace: seq<TraceEvent>): Counts {
    Counts(c.planned + CountStatus(trace, Planned), c.started + CountStatus(trace, Started),
           c.completed + CountStatus(trace, Completed), c.failed + CountStatus(trace, Failed),
           c.skipped + CountStatus(trace, Skipped))
  }

  lemma {:induction false} CountsOneMore(events: seq<Tagged>, keys: set<TaskKey>, key: TaskKey)
    requires key !in keys
    ensures CountsIn(events, keys + {key}) == PlusTrace(CountsIn(events, keys), Trace(events, key))
  {
    CountOneMore(events, keys, key, Planned);
    CountOneMore(events, keys, key, Started);
    CountOneMore(events, keys, key, Completed);
    CountOneMore(events, keys, key, Failed);
    CountOneMore(events, keys, key, Skipped);
  }

  /** invalid: specialist tasks refused; malformed: the entries that are no objects. */
  datatype Audit = Audit(taskCount: nat, counts: Counts, invalid: set<TaskKey>, malformed: nat,
                         toolCalls: nat, modelCalls: nat)

  function SpecialistTools(events: seq<ToolEvent>, n: nat): nat
    requires n <= |events|
  {
    if n == 0 then 0 else SpecialistTools(events, n - 1) + if IsOneOf(events[n - 1].role, SPECIALIST_ROLES) then 1 else 0
  }

  function SpecialistUsage(events: seq<UsageEvent>, n: nat): nat
    requires n <= |events|
  {
    if n == 0 then 0 else SpecialistUsage(events, n - 1) + if IsOneOf(events[n - 1].role, SPECIALIST_ROLES) then 1 else 0
  }

  /** Calls are counted only in runs that have a lifecycle list. */
  function ToolCalls(runs: seq<Run>, n: nat): nat
    requires n <= |runs|
  {
    if n == 0 then 0
    else
      var r := runs[n - 1];
      ToolCalls(runs, n - 1) + if r.lifecycle.Given? then SpecialistTools(Items(r.toolEvents), |Items(r.toolEvents)|) else 0
  }

  function ModelCalls(runs: seq<Run>, n: nat): nat
    requires n <= |runs|
  {
    if n == 0 then 0
    else
      var r := runs[n - 1];
      ModelCalls(runs, n - 1) + if r.lifecycle.Given? then SpecialistUsage(Items(r.usage), |Items(r.usage)|) else 0
  }

  method CountSpecialistTools(events: seq<ToolEvent>) returns (n: nat)
    ensures n == SpecialistTools(events, |events|)
  {
    n := 0;
    for i := 0 to |events|
      invariant n == SpecialistTools(events, i)
    {
      if IsOneOf(events[i].role, SPECIALIST_ROLES) { n := n + 1; }
    }
  }

  method CountSpecialistUsage(events: seq<UsageEvent>) returns (n: nat)
    ensures n == SpecialistUsage(events, |events|)
  {
    n := 0;
    for i := 0 to |events|
      invariant n == SpecialistUsage(events, i)
    {
      if IsOneOf(events[i].role, SPECIALIST_ROLES) { n := n + 1; }
    }
  }

  /** Adds one run's events to what is collected so far. */
  method CollectRun(r: Run, tasks: map<TaskKey, seq<TraceEvent>>, ghost events: seq<Tagged>)
    returns (tasks': map<TaskKey, seq<TraceEvent>>, malformed: nat)
    requires tasks == Grouped(events)
    ensures tasks' == Grouped(events + EventsOfRun(r, |Items(r.lifecycle)|))
    ensures malformed == MalformedOfRun(r, |Items(r.lifecycle)|)
  {
    var entries := Items(r.lifecycle);
    tasks', malformed := tasks, 0;
    assert events + [] == events;
    for i := 0 to |entries|
      invariant tasks' == Grouped(events + EventsOfRun(r, i)) && malformed == MalformedOfRun(r, i)
    {
      match entries[i]
      case NotAnObject => malformed := malformed + 1;
      case Object(e) =>
        var key := KeyFor(r, e);
        ghost var before := events + EventsOfRun(r, i);
        assert events + EventsOfRun(r, i + 1) == before + [Tagged(key, e)];
        GroupedAppend(before, Tagged(key, e));
        tasks' := tasks'[key := (if key in tasks' then tasks'[key] else []) + [e]];
    }
  }

  ghost function Refused(events: seq<Tagged>, keys: set<TaskKey>): set<TaskKey> {
    set k | k in keys && !AuditAccepts(Trace(events, k))
  }

  /** The second loop of the audit: one specialist task after another, in any order. */
  method AuditTasks(tasks: map<TaskKey, seq<TraceEvent>>, ghost events: seq<Tagged>)
    returns (counts: Counts, invalid: set<TaskKey>)
    requires tasks == Grouped(events)
    ensures counts == AllCounts(events)
    ensures invalid == Refused(events, KeysOf(events))
  {
    counts, invalid := Counts(0, 0, 0, 0, 0), {};
    var left := tasks.Keys;
    ghost var done: set<TaskKey> := {};
    CountOfNobody(events, Planned);
    CountOfNobody(events, Started);
    CountOfNobody(events, Completed);
    CountOfNobody(events, Failed);
    CountOfNobody(events, Skipped);
    while left != {}
      invariant left <= tasks.Keys && done == tasks.Keys - left
      invariant counts == CountsIn(events, done) && invalid == Refused(events, done)
      decreases left
    {
      var key :| key in left;
      GroupedIsTraces(events, key);
      CountsOneMore(events, done, key);
      counts := PlusTrace(counts, tasks[key]);
      if !AuditAccepts(tasks[key]) {
        invalid := invalid + {key};
      }
      done, left := done + {key}, left - {key};
    }
    GroupedKeys(events);
    CountsOfEveryone(events);
    assert done == KeysOf(events);
  }

  lemma {:induction false} GroupedKeys(events: seq<Tagged>)
    ensures Grouped(events).Keys == KeysOf(events)
  {
    forall k ensures k in Grouped(events) <==> k in KeysOf(events) { GroupedIsTraces(events, k); }
  }

  lemma {:induction false} CountsOfEveryone(events: seq<Tagged>)
    ensures CountsIn(events, KeysOf(events)) == AllCounts(events)
  {
    CountOfEveryone(events, KeysOf(events), Planned);
    CountOfEveryone(events, KeysOf(events), Started);
    CountOfEveryone(events, KeysOf(events), Completed);
    CountOfEveryone(events, KeysOf(events), Failed);
    CountOfEveryone(events, KeysOf(events), Skipped);
  }

  /** _lifecycle_audit */
  method LifecycleAudit(runs: seq<Run>) returns (audit: Audit)
    ensures audit == AuditOf(runs)
  {
    var tasks: map<TaskKey, seq<TraceEvent>> := map[];
    var malformed, toolCalls, modelCalls := 0, 0, 0;
    for n := 0 to |runs|
      invariant tasks == Grouped(AllEvents(runs, n)) && malformed == Malformed(runs, n)
      invariant toolCalls == ToolCalls(runs, n) && modelCalls == ModelCalls(runs, n)
    {
      var r := runs[n];
      var bad;
      tasks, bad := CollectRun(r, tasks, AllEvents(runs, n));
      malformed := malformed + bad;
      if r.lifecycle.Given? {
        var tools := CountSpecialistTools(Items(r.toolEvents));
        var usage := CountSpecialistUsage(Items(r.usage));
        toolCalls, modelCalls := toolCalls + tools, modelCalls + usage;
      }
    }
    ghost var events := AllEvents(runs, |runs|);
    var counts, invalid := AuditTasks(tasks, events);
    GroupedKeys(events);
    audit := Audit(|tasks.Keys|, counts, invalid, malformed, toolCalls, modelCalls);
  }

  ghost function AuditOf(runs: seq<Run>): Audit {
    var events := AllEvents(runs, |runs|);
    Audit(|KeysOf(events)|, AllCounts(events), Refused(events, KeysOf(events)), Malformed(runs, |runs|),
          ToolCalls(runs, |runs|), ModelCalls(runs, |runs|))
  }

  // ---- The benchmark's summary ----------------------------------------------------------------------

  datatype LifecycleSummary = LifecycleSummary(taskCount: nat, counts: Counts, invalid: set<TaskKey>, balanced: bool)

  function Bump(c: Counts, s: Status): Counts {
    match s
    case Planned => c.(planned := c.planned + 1)
    case Started => c.(started := c.started + 1)
    case Completed => c.(completed := c.completed + 1)
    case Failed => c.(failed := c.failed + 1)
    case Skipped => c.(skipped := c.skipped + 1)
    case OtherStatus => c
  }

  ghost function Unbalanced(events: seq<Tagged>, keys: set<TaskKey>): set<TaskKey> {
    set k | k in keys && !Balanced(Trace(events, k))
  }

  ghost function SummaryOf(runs: seq<Run>): LifecycleSummary {
    var events := AllEvents(runs, |runs|);
    var invalid := Unbalanced(events, KeysOf(events));
    LifecycleSummary(|KeysOf(events)|, AllCounts(events), invalid, KeysOf(events) != {} && invalid == {})
  }

  lemma {:induction false} CountsAppend(events: seq<Tagged>, t: Tagged)
    ensures AllCounts(events + [t]) == Bump(AllCounts(events), t.event.status)
  {
    assert (events + [t])[..|events|] == events;
  }

  /** Adds one run's events; None where the summariser raises, on an entry that is no object. */
  method SummarizeRun(r: Run, tasks: map<TaskKey, seq<TraceEvent>>, counts: Counts, ghost events: seq<Tagged>)
    returns (grown: Option<(map<TaskKey, seq<TraceEvent>>, Counts)>)
    requires tasks == Grouped(events) && counts == AllCounts(events)
    ensures grown.Some? <==> MalformedOfRun(r, |Items(r.lifecycle)|) == 0
    ensures grown.Some? ==>
              var all := events + EventsOfRun(r, |Items(r.lifecycle)|);
              grown.value.0 == Grouped(all) && grown.value.1 == AllCounts(all)
  {
    var entries := Items(r.lifecycle);
    var tasks', counts' := tasks, counts;
    assert events + [] == events;
    for i := 0 to |entries|
      invariant tasks' == Grouped(events + EventsOfRun(r, i)) && counts' == AllCounts(events + EventsOfRun(r, i))
      invariant MalformedOfRun(r, i) == 0
    {
      if entries[i].NotAnObject? {
        MalformedGrows(r, i + 1, |entries|);
        return None;
      }
      var e := entries[i].event;
      var key := KeyFor(r, e);
      ghost var before := events + EventsOfRun(r, i);
      assert events + EventsOfRun(r, i + 1) == before + [Tagged(key, e)];
      GroupedAppend(before, Tagged(key, e));
      CountsAppend(before, Tagged(key, e));
      counts' := Bump(counts', e.status);
      tasks' := tasks'[key := (if key in tasks' then tasks'[key] else []) + [e]];
    }
    grown := Some((tasks', counts'));
  }

  lemma {:induction false} MalformedGrows(r: Run, i: nat, n: nat)
    requires i <= n <= |Items(r.lifecycle)|
    ensures MalformedOfRun(r, i) <= MalformedOfRun(r, n)
  {
    if i < n { MalformedGrows(r, i, n - 1); }
  }

  lemma {:induction false} AllMalformedGrows(runs: seq<Run>, i: nat, n: nat)
    requires i <= n <= |runs|
    ensures Malformed(runs, i) <= Malformed(runs, n)
  {
    if i < n { AllMalformedGrows(runs, i, n - 1); }
  }

  /** summarize_specialist_lifecycle, without the durations. */
  method SummarizeLifecycle(runs: seq<Run>) returns (summary: Option<LifecycleSummary>)
    ensures summary.Some? <==> Malformed(runs, |runs|) == 0
    ensures summary.Some? ==> summary.value == SummaryOf(runs)
  {
    var tasks: map<TaskKey, seq<TraceEvent>> := map[];
    var counts := Counts(0, 0, 0, 0, 0);
    for n := 0 to |runs|
      invariant tasks == Grouped(AllEvents(runs, n)) && counts == AllCounts(AllEvents(runs, n))
      invariant Malformed(runs, n) == 0
    {
      var grown := SummarizeRun(runs[n], tasks, counts, AllEvents(runs, n));
      if grown.None? {
        AllMalformedGrows(runs, n + 1, |runs|);
        return None;
      }
      tasks, counts := grown.value.0, grown.value.1;
    }
    ghost var events := AllEvents(runs, |runs|);
    GroupedKeys(events);
    forall k | k in tasks ensures tasks[k] == Trace(events, k) { GroupedIsTraces(events, k); }
    var invalid := set k | k in tasks && !Balanced(tasks[k]);
    assert invalid == Unbalanced(events, KeysOf(events));
    summary := Some(LifecycleSummary(|tasks.Keys|, counts, invalid, tasks != map[] && invalid == {}));
  }

  // ---- What the accounting guarantees -----------------------------------------------------------------

  lemma {:induction false} ConservedIn(events: seq<Tagged>, keys: set<TaskKey>)
    requires forall k :: k in keys ==> Balanced(Trace(events, k))
    ensures var c := CountsIn(events, keys);
      && c.planned == |keys| == c.completed + c.failed + c.skipped
      && c.completed + c.failed <= c.started <= c.planned
    decreases |keys|
  {
    if keys == {} {
      CountOfNobody(events, Planned);
      CountOfNobody(events, Started);
      CountOfNobody(events, Completed);
      CountOfNobody(events, Failed);
      CountOfNobody(events, Skipped);
    } else {
      var k :| k in keys;
      var rest := keys - {k};
      ConservedIn(events, rest);
      CountsOneMore(events, rest, k);
      assert rest + {k} == keys;
      assert Balanced(Trace(events, k));
    }
  }

  /**
    If the audit refuses no task, then over any number of runs every task was planned once and
    ended once, and whatever completed or failed had started.
   */
  lemma {:induction false} TasksAreConserved(runs: seq<Run>)
    requires AuditOf(runs).invalid == {}
    ensures var a := AuditOf(runs);
      && a.counts.planned == a.taskCount == a.counts.completed + a.counts.failed + a.counts.skipped
      && a.counts.completed + a.counts.failed <= a.counts.started <= a.counts.planned
  {
    var events := AllEvents(runs, |runs|);
    forall k | k in KeysOf(events) ensures Balanced(Trace(events, k)) {
      assert k !in Refused(events, KeysOf(events));
    }
    ConservedIn(events, KeysOf(events));
    CountsOfEveryone(events);
  }

  /** The two accounts agree: same tasks, same counts, and the summary refuses only what the audit refuses. */
  lemma {:induction false} SummaryAgreesWithAudit(runs: seq<Run>)
    ensures var a, s := AuditOf(runs), SummaryOf(runs);
      && s.taskCount == a.taskCount && s.counts == a.counts
      && s.invalid <= a.invalid
      && (forall k :: k in a.invalid - s.invalid ==> !Attributed(Trace(AllEvents(runs, |runs|), k)))
      && (a.taskCount > 0 && a.invalid == {} ==> s.balanced)
  {
    var events := AllEvents(runs, |runs|);
    if KeysOf(events) == {} {
      assert |KeysOf(events)| == 0;
    }
  }

  ghost predicate NoSpecialistUsage(r: Run) {
    forall i :: 0 <= i < |Items(r.usage)| ==> !IsOneOf(Items(r.usage)[i].role, SPECIALIST_ROLES)
  }

  lemma {:induction false} NoUsageIff(events: seq<UsageEvent>, n: nat)
    requires n <= |events|
    ensures SpecialistUsage(events, n) == 0 <==> forall i :: 0 <= i < n ==> !IsOneOf(events[i].role, SPECIALIST_ROLES)
  {
    if n > 0 { NoUsageIff(events, n - 1); }
  }

  /** The audit reports no model call exactly when the runs with a lifecycle list hold none. */
  lemma {:induction false} NoModelCallIff(runs: seq<Run>, n: nat)
    requires n <= |runs|
    ensures ModelCalls(runs, n) == 0 <==> forall i :: 0 <= i < n && runs[i].lifecycle.Given? ==> NoSpecialistUsage(runs[i])
  {
    if n > 0 {
      NoModelCallIff(runs, n - 1);
      NoUsageIff(Items(runs[n - 1].usage), |Items(runs[n - 1].usage)|);
    }
  }

  /** Without that list, a specialist model call goes unseen. */
  lemma {:induction false} ModelCallCanBeHidden(r: Run)
    requires r.lifecycle.Unusable? && r.usage == Given([UsageEvent(Given("listings"))])
    ensures !NoSpecialistUsage(r) && AuditOf([r]).modelCalls == 0
  {
    assert IsOneOf(Items(r.usage)[0].role, SPECIALIST_ROLES);
    NoModelCallIff([r], 1);
  }
}
