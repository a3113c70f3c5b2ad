/** Replaying recorded tool results: the queue of a case, its calls, and the report at the end. */
module FixtureReplay {
  import opened Prelude

  datatype Record = Record(tool: Option<string>, payload: string)

  /** The recorded results of each tool, and the tools in the order they first appear. */
  datatype Queue = Queue(tools: seq<string>, records: map<string, seq<Record>>)

  const NO_RECORDS: Queue := Queue([], map[])

  function ToolOf(r: Record): string {
    if r.tool.Some? && r.tool.value != "" then r.tool.value else "unknown"
  }

  function Enqueue(q: Queue, r: Record): Queue {
    var t := ToolOf(r);
    if t in q.records then Queue(q.tools, q.records[t := q.records[t] + [r]])
    else Queue(q.tools + [t], q.records[t := [r]])
  }

  function Loaded(items: seq<Record>): Queue {
    if items == [] then NO_RECORDS else Enqueue(Loaded(items[..|items| - 1]), items[|items| - 1])
  }

  function RecordsOf(items: seq<Record>, tool: string): seq<Record> {
    if items == [] then []
    else RecordsOf(items[..|items| - 1], tool) + if ToolOf(items[|items| - 1]) == tool then [items[|items| - 1]] else []
  }

  /** Which items are records of a tool: those that name it; "unknown" also those that name none. */
  lemma {:induction false} RecordsAre(items: seq<Record>, r: Record, tool: string)
    ensures RecordsOf([], tool) == []
    ensures RecordsOf(items + [r], tool) == RecordsOf(items, tool)
              + if (r.tool == Some(tool) && tool != "") || (tool == "unknown" && (r.tool == None || r.tool == Some("")))
                then [r] else []
  {
    assert (items + [r])[..|items|] == items;
  }

  /** load_fixture_queue, over the items of all the case's fixture files. */
  method LoadFixtureQueue(items: seq<Record>) returns (queue: Queue)
    ensures queue == Loaded(items)
  {
    queue := NO_RECORDS;
    for n := 0 to |items|
      invariant queue == Loaded(items[..n])
    {
      assert items[..n + 1][..n] == items[..n];
      var name := ToolOf(items[n]);
      ghost var before := queue;
      if name !in queue.records {
        queue := Queue(queue.tools + [name], queue.records[name := []]);
      }
      queue := queue.(records := queue.records[name := queue.records[name] + [items[n]]]);
      assert name !in before.records ==> before.records[name := []][name := [items[n]]] == before.records[name := [items[n]]];
      assert [] + [items[n]] == [items[n]];
    }
    assert items[..|items|] == items;
  }

  /** The tools are listed once each, and none of them without a record. */
  ghost predicate IsQueue(q: Queue) {
    && (forall t :: t in q.tools <==> t in q.records)
    && (forall i, j :: 0 <= i < j < |q.tools| ==> q.tools[i] != q.tools[j])
    && (forall t :: t in q.records ==> q.records[t] != [])
  }

  /** The queue holds each tool's records, in their order, and nothing for a tool without any. */
  lemma {:induction false} LoadedIs(items: seq<Record>, tool: string)
    ensures IsQueue(Loaded(items))
    ensures tool in Loaded(items).records <==> RecordsOf(items, tool) != []
    ensures tool in Loaded(items).records ==> Loaded(items).records[tool] == RecordsOf(items, tool)
    ensures Loaded(items).tools == [] <==> items == []
  {
    if items != [] {
      LoadedIs(items[..|items| - 1], tool);
    }
  }

  // ---- Calls -----------------------------------------------------------------------------------------

  datatype Reply = Replayed(record: Record) | Denied | Canned | Live

  datatype State = State(left: map<string, seq<Record>>, last: map<string, Record>, served: map<string, nat>)

  predicate DeniesUnbound(declared: Queue, tool: string) {
    declared.tools != [] && tool !in declared.records
  }

  function CountOf(served: map<string, nat>, tool: string): nat {
    if tool in served then served[tool] else 0
  }

  function Start(declared: Queue): State {
    State(declared.records, map[], map[])
  }

  /** What is left after one call. */
  function After(s: State, tool: string): State {
    var counted := s.served[tool := CountOf(s.served, tool) + 1];
    if tool in s.left && s.left[tool] != [] then
      State(s.left[tool := s.left[tool][1..]], s.last[tool := s.left[tool][0]], counted)
    else if tool in s.last then s.(served := counted)
    else s
  }

  function ReplyTo(declared: Queue, s: State, offline: bool, tool: string): Reply {
    if tool in s.left && s.left[tool] != [] then Replayed(s.left[tool][0])
    else if tool in s.last then Replayed(s.last[tool])
    else if DeniesUnbound(declared, tool) then Denied
    else if offline then Canned
    else Live
  }

  class PatchedTools {
    const declared: Queue
    const offline: bool
    var left: map<string, seq<Record>>
    var last: map<string, Record>
    var served: map<string, nat>

    constructor (queue: Queue, offline: bool)
      ensures declared == queue && this.offline == offline && View() == Start(queue)
    {
      declared, this.offline := queue, offline;
      left, last, served := queue.records, map[], map[];
    }

    function View(): State
      reads this
    {
      State(left, last, served)
    }

    /** _next_result */
    method NextResult(name: string) returns (reply: Reply)
      modifies this
      ensures View() == After(old(View()), name)
      ensures reply == ReplyTo(declared, old(View()), offline, name)
    {
      if name in left && left[name] != [] {
        var item := left[name][0];
        left := left[name := left[name][1..]];
        last := last[name := item];
        served := served[name := CountOf(served, name) + 1];
        return Replayed(item);
      }
      if name in last {
        served := served[name := CountOf(served, name) + 1];
        return Replayed(last[name]);
      }
      if DeniesUnbound(declared, name) {
        return Denied;
      }
      reply := if offline then Canned else Live;
    }
  }

  // ---- Any sequence of calls ---------------------------------------------------------------------------

  function AfterAll(declared: Queue, calls: seq<string>): State {
    if calls == [] then Start(declared) else After(AfterAll(declared, calls[..|calls| - 1]), calls[|calls| - 1])
  }

  function Times(calls: seq<string>, tool: string): nat {
    if calls == [] then 0
    else Times(calls[..|calls| - 1], tool) + if calls[|calls| - 1] == tool then 1 else 0
  }

  function Min(a: nat, b: nat): nat {
    if a <= b then a else b
  }

  /** What the state knows of a bound tool after k calls to it. */
  ghost predicate BoundState(declared: Queue, s: State, tool: string, k: nat)
    requires tool in declared.records
  {
    var records := declared.records[tool];
    && tool in s.left && s.left[tool] == records[Min(k, |records|)..]
    && (tool in s.last <==> k > 0)
    && (k > 0 && records != [] ==> s.last[tool] == records[Min(k, |records|) - 1])
    && CountOf(s.served, tool) == k
  }

  lemma {:induction false} CallsOfATool(declared: Queue, calls: seq<string>, tool: string)
    requires IsQueue(declared)
    ensures var s := AfterAll(declared, calls);
      if tool in declared.records then BoundState(declared, s, tool, Times(calls, tool))
      else tool !in s.left && tool !in s.last && tool !in s.served
  {
    if calls != [] {
      var before, call := AfterAll(declared, calls[..|calls| - 1]), calls[|calls| - 1];
      CallsOfATool(declared, calls[..|calls| - 1], tool);
      if call != tool {
        assert tool in declared.records ==> BoundState(declared, After(before, call), tool, Times(calls, tool));
      }
    }
  }

  /** Records left plus records handed out is what was declared, whatever was called. */
  lemma {:induction false} RecordsAreConserved(declared: Queue, calls: seq<string>, tool: string)
    requires IsQueue(declared) && tool in declared.records
    ensures tool in AfterAll(declared, calls).left
    ensures |AfterAll(declared, calls).left[tool]| + Min(Times(calls, tool), |declared.records[tool]|) == |declared.records[tool]|
  {
    CallsOfATool(declared, calls, tool);
  }

  /**
    A fixture is a closed world: the i-th call to a bound tool gets record min(i, declared), a call
    to any other tool is denied, and no call ever reaches the live tool or a canned answer.
   */
  lemma {:induction false} RepliesAreRecorded(declared: Queue, calls: seq<string>, offline: bool, tool: string)
    requires IsQueue(declared) && declared.tools != []
    ensures var reply := ReplyTo(declared, AfterAll(declared, calls), offline, tool);
      if tool in declared.records then
        var records := declared.records[tool];
        reply == Replayed(records[Min(Times(calls, tool) + 1, |records|) - 1])
      else reply == Denied
  {
    CallsOfATool(declared, calls, tool);
  }

  /**
    Only a case that declares no record at all gets anything else, and then on every call: the live
    tool, unless the run is offline, which gets canned data.
   */
  lemma {:induction false} LiveIffNothingDeclared(items: seq<Record>, calls: seq<string>, offline: bool, tool: string)
    ensures var reply := ReplyTo(Loaded(items), AfterAll(Loaded(items), calls), offline, tool);
            (reply == Live <==> items == [] && !offline) && (reply == Canned <==> items == [] && offline)
  {
    LoadedIs(items, tool);
    CallsOfATool(Loaded(items), calls, tool);
    if items != [] {
      RepliesAreRecorded(Loaded(items), calls, offline, tool);
    }
  }

  // ---- The report --------------------------------------------------------------------------------------

  /** delivered: None without a fixture. */
  datatype Report = Report(delivered: Option<bool>, unserved: seq<string>, recordsUnserved: nat)

  function UnservedTools(tools: seq<string>, served: map<string, nat>): seq<string> {
    if tools == [] then []
    else UnservedTools(tools[..|tools| - 1], served)
         + if CountOf(served, tools[|tools| - 1]) == 0 then [tools[|tools| - 1]] else []
  }

  function RecordsUnserved(declared: Queue, served: map<string, nat>, n: nat): nat
    requires n <= |declared.tools| && forall t :: t in declared.tools ==> t in declared.records
  {
    if n == 0 then 0
    else
      var count, got := |declared.records[declared.tools[n - 1]]|, CountOf(served, declared.tools[n - 1]);
      RecordsUnserved(declared, served, n - 1) + if count > got then count - got else 0
  }

  /** fixture_service_report */
  function ServiceReport(declared: Queue, served: map<string, nat>): Report
    requires forall t :: t in declared.tools ==> t in declared.records
  {
    if declared.tools == [] then Report(None, [], 0)
    else
      var unserved := UnservedTools(declared.tools, served);
      Report(Some(unserved == []), unserved, RecordsUnserved(declared, served, |declared.tools|))
  }

  function LeftOver(left: map<string, seq<Record>>, tools: seq<string>, n: nat): nat
    requires n <= |tools| && forall t :: t in tools ==> t in left
  {
    if n == 0 then 0 else LeftOver(left, tools, n - 1) + |left[tools[n - 1]]|
  }

  lemma {:induction false} UnservedIs(tools: seq<string>, served: map<string, nat>, tool: string)
    ensures tool in UnservedTools(tools, served) <==> tool in tools && CountOf(served, tool) == 0
  {
    if tools != [] {
      UnservedIs(tools[..|tools| - 1], served, tool);
      assert tools == tools[..|tools| - 1] + [tools[|tools| - 1]];
    }
  }

  lemma {:induction false} UnservedIsLeftOver(declared: Queue, calls: seq<string>, n: nat)
    requires IsQueue(declared) && n <= |declared.tools|
    requires forall t :: t in declared.tools ==> t in AfterAll(declared, calls).left
    ensures RecordsUnserved(declared, AfterAll(declared, calls).served, n)
         == LeftOver(AfterAll(declared, calls).left, declared.tools, n)
  {
    if n > 0 {
      UnservedIsLeftOver(declared, calls, n - 1);
      assert declared.tools[n - 1] in declared.tools;
      CallsOfATool(declared, calls, declared.tools[n - 1]);
    }
  }

  /**
    The report after any calls: the records unserved are exactly those still queued, and the fixture
    counts as delivered exactly when every bound tool was called.
   */
  lemma {:induction false} ReportIsTrue(declared: Queue, calls: seq<string>)
    requires IsQueue(declared)
    ensures var s := AfterAll(declared, calls); var report := ServiceReport(declared, s.served);
      && (forall t :: t in declared.tools ==> t in s.left)
      && report.recordsUnserved == LeftOver(s.left, declared.tools, |declared.tools|)
      && (report.delivered.None? <==> declared.tools == [])
      && (forall t :: t in report.unserved <==> t in declared.tools && Times(calls, t) == 0)
      && (report.delivered == Some(true) <==>
            declared.tools != [] && forall t :: t in declared.tools ==> Times(calls, t) > 0)
  {
    var s := AfterAll(declared, calls);
    forall t | t in declared.tools ensures t in s.left && CountOf(s.served, t) == Times(calls, t) {
      CallsOfATool(declared, calls, t);
    }
    UnservedIsLeftOver(declared, calls, |declared.tools|);
    var unserved := UnservedTools(declared.tools, s.served);
    forall t ensures t in unserved <==> t in declared.tools && CountOf(s.served, t) == 0 {
      UnservedIs(declared.tools, s.served, t);
    }
    assert unserved != [] ==> unserved[0] in unserved;
  }
}
