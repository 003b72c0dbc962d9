/** The agent's bookkeeping: PerformanceMonitor keeps, per metric name, the list of
    values recorded so far and summarises it; CustomAgentMonitor is a callback handler
    that keeps the counters of one agent run.  Clock reads are parameters, metric
    values are integers and averages are reals. */
module AgentMonitor {
  import opened Wrappers
  import opened JsValues

  // ---- list arithmetic behind the summaries ----

  /** `values.reduce((a, b) => a + b)`, and 0 for no values. */
  function Sum(s: seq<int>): int {
    if s == [] then 0 else s[0] + Sum(s[1..])
  }

  /** `Math.min(...values)`. */
  function Min(s: seq<int>): int
    requires |s| > 0
  {
    if |s| == 1 then s[0] else if s[0] <= Min(s[1..]) then s[0] else Min(s[1..])
  }

  /** `Math.max(...values)`. */
  function Max(s: seq<int>): int
    requires |s| > 0
  {
    if |s| == 1 then s[0] else if s[0] >= Max(s[1..]) then s[0] else Max(s[1..])
  }

  /** The minimum is one of the values and no value is below it. */
  lemma {:induction false} MinIsLeast(s: seq<int>)
    requires |s| > 0
    ensures Min(s) in s
    ensures forall x :: x in s ==> Min(s) <= x
  {
    if |s| > 1 {
      MinIsLeast(s[1..]);
      assert forall x :: x in s ==> x == s[0] || x in s[1..];
    }
  }

  /** The maximum is one of the values and no value is above it. */
  lemma {:induction false} MaxIsGreatest(s: seq<int>)
    requires |s| > 0
    ensures Max(s) in s
    ensures forall x :: x in s ==> x <= Max(s)
  {
    if |s| > 1 {
      MaxIsGreatest(s[1..]);
      assert forall x :: x in s ==> x == s[0] || x in s[1..];
    }
  }

  /** The mean of a non-empty list, 0 for an empty one. */
  function Mean(s: seq<int>): (r: real)
    ensures |s| == 0 ==> r == 0.0
    ensures |s| > 0 ==> r * |s| as real == Sum(s) as real
  {
    if |s| > 0 then Sum(s) as real / |s| as real else 0.0
  }

  /** The sum of a list lies between its length times its least and its greatest value. */
  lemma {:induction false} SumBounds(s: seq<int>, lo: int, hi: int)
    requires forall x :: x in s ==> lo <= x <= hi
    ensures |s| * lo <= Sum(s) <= |s| * hi
  {
    if s != [] {
      var rest := s[1..];
      assert forall x :: x in rest ==> x in s;
      SumBounds(rest, lo, hi);
      assert lo <= s[0] <= hi by { assert s[0] in s; }
      StepBounds(|rest|, lo, hi, s[0], Sum(rest));
    }
  }

  lemma StepBounds(n: nat, lo: int, hi: int, head: int, tail: int)
    requires n * lo <= tail <= n * hi && lo <= head <= hi
    ensures (n + 1) * lo <= head + tail <= (n + 1) * hi
  {
  }

  lemma ProductAsReal(a: int, b: int)
    ensures (a * b) as real == (a as real) * (b as real)
  {
  }

  /** A quotient of a sum by a positive count lies between the bounds that the count
      times the bounds put on the sum. */
  lemma QuotientBetween(sum: real, n: real, lo: real, hi: real)
    requires n > 0.0 && n * lo <= sum <= n * hi
    ensures lo <= sum / n <= hi
  {
  }

  lemma IntQuotientBetween(n: int, sum: int, lo: int, hi: int)
    requires n > 0 && n * lo <= sum <= n * hi
    ensures lo as real <= sum as real / n as real <= hi as real
  {
    ProductAsReal(n, lo);
    ProductAsReal(n, hi);
    QuotientBetween(sum as real, n as real, lo as real, hi as real);
  }

  /** The average of a non-empty list lies between its minimum and its maximum. */
  lemma MeanWithinBounds(s: seq<int>)
    requires |s| > 0
    ensures Min(s) as real <= Mean(s) <= Max(s) as real
  {
    MinIsLeast(s);
    MaxIsGreatest(s);
    SumBounds(s, Min(s), Max(s));
    IntQuotientBetween(|s|, Sum(s), Min(s), Max(s));
  }

  /** `values.slice(-5)`: the last five values, or all of them when there are fewer. */
  function Recent(s: seq<int>): seq<int> {
    if |s| < 5 then s else s[|s| - 5..]
  }

  /** The recent values are the last min(5, count) values, in recording order. */
  lemma RecentIsTail(s: seq<int>)
    ensures |Recent(s)| == if |s| < 5 then |s| else 5
    ensures s == s[..|s| - |Recent(s)|] + Recent(s)
  {
    var r := Recent(s);
    assert s == s[..|s| - |r|] + s[|s| - |r|..];
  }

  /** One entry of getMetricSummary. */
  datatype Summary = Summary(count: nat, average: real, min: int, max: int, recent: seq<int>)

  /** The summary of one recorded, hence non-empty, list of values. */
  function Summarize(values: seq<int>): (m: Summary)
    requires |values| > 0
    ensures m.count == |values|
    ensures m.min in values && m.max in values
    ensures forall x :: x in values ==> m.min <= x <= m.max
    ensures m.min as real <= m.average <= m.max as real
    ensures m.average == Mean(values)
    ensures |m.recent| == (if |values| < 5 then |values| else 5)
    ensures values == values[..|values| - |m.recent|] + m.recent
  {
    MinIsLeast(values);
    MaxIsGreatest(values);
    MeanWithinBounds(values);
    RecentIsTail(values);
    Summary(|values|, Mean(values), Min(values), Max(values), Recent(values))
  }

  // ---- PerformanceMonitor ----

  class PerformanceMonitor {
    var metrics: map<string, seq<int>>

    /** recordMetric only ever stores a list it has just appended to. */
    ghost predicate Valid()
      reads this
    {
      forall name :: name in metrics ==> |metrics[name]| > 0
    }

    constructor()
      ensures Valid() && metrics == map[]
    {
      metrics := map[];
    }

    /** The values recorded under `name`, oldest first (none if never recorded). */
    function Values(name: string): seq<int>
      reads this
    {
      if name in metrics then metrics[name] else []
    }

    /** recordMetric: append the value to the list of `name`, creating the list first. */
    method RecordMetric(name: string, value: int)
      requires Valid()
      modifies this
      ensures Valid()
      ensures metrics == old(metrics)[name := old(Values(name)) + [value]]
    {
      if name !in metrics {
        metrics := metrics[name := []];
      }
      metrics := metrics[name := metrics[name] + [value]];
    }

    /** getAverageMetric: the mean of the values recorded under `name`, 0 if none. */
    function GetAverageMetric(name: string): (avg: real)
      reads this
      ensures name !in metrics ==> avg == 0.0
      ensures avg * |Values(name)| as real == Sum(Values(name)) as real
    {
      Mean(Values(name))
    }

    /** getMetricSummary: one summary per recorded name. */
    method GetMetricSummary() returns (summary: map<string, Summary>)
      requires Valid()
      ensures summary.Keys == metrics.Keys
      ensures forall name :: name in summary ==> summary[name] == Summarize(metrics[name])
      ensures forall name :: name in summary ==> summary[name].average == GetAverageMetric(name)
    {
      summary := map[];
      var pending := metrics.Keys;
      while pending != {}
        invariant pending <= metrics.Keys
        invariant summary.Keys == metrics.Keys - pending
        invariant forall name :: name in summary ==> summary[name] == Summarize(metrics[name])
        decreases |pending|
      {
        var name :| name in pending;
        summary := summary[name := Summarize(metrics[name])];
        pending := pending - {name};
      }
    }

    /** reset: forget every metric. */
    method Reset()
      modifies this
      ensures Valid() && metrics == map[]
    {
      metrics := map[];
    }
  }

  /** Recording a value changes nothing recorded under any other name. */
  method RecordLeavesOthers(m: PerformanceMonitor, name: string, value: int, other: string)
    requires m.Valid() && other != name
    modifies m
    ensures m.Valid()
    ensures m.Values(other) == old(m.Values(other))
    ensures m.Values(name) == old(m.Values(name)) + [value]
  {
    m.RecordMetric(name, value);
  }

  /** The static `PerformanceMonitor.instance` slot behind getInstance. */
  class MonitorRegistry {
    var instance: PerformanceMonitor?

    constructor()
      ensures instance == null
    {
      instance := null;
    }

    /** getInstance: create the monitor on first use, then always hand out that one. */
    method GetInstance() returns (m: PerformanceMonitor)
      modifies this
      ensures old(instance) != null ==> m == old(instance)
      ensures old(instance) == null ==> fresh(m) && m.Valid() && m.metrics == map[]
      ensures instance == m
    {
      if instance == null {
        instance := new PerformanceMonitor();
      }
      m := instance;
    }
  }

  /** Two getInstance calls return the same monitor. */
  method SameInstance(r: MonitorRegistry) returns (a: PerformanceMonitor, b: PerformanceMonitor)
    modifies r
    ensures a == b && r.instance == a
  {
    a := r.GetInstance();
    b := r.GetInstance();
  }

  // ---- CustomAgentMonitor ----

  datatype Status = Running | Completed | Error

  /** One pushed tool call: name, parsed input, output kept for the log, duration and time. */
  datatype ToolCallRecord = ToolCallRecord(tool: Js, input: Js, output: string, duration: int, timestamp: int)

  datatype AgentStats = AgentStats(startTime: int, toolCalls: seq<ToolCallRecord>, llmCalls: int,
                                   totalDuration: int, status: Status)

  /** The limit on the logged output of a tool call. */
  const OutputLimit: nat := 500

  /** `output.substring(0, 500)`. */
  function Clip(output: string): (s: string)
    ensures |s| == if |output| < OutputLimit then |output| else OutputLimit
    ensures s <= output
  {
    if |output| < OutputLimit then output else output[..OutputLimit]
  }

  /** `tool.input || "{}"`: the text handed to JSON.parse. */
  function InputText(input: Option<string>): (t: string)
    ensures t != ""
    ensures input.Some? && input.value != "" ==> t == input.value
    ensures !(input.Some? && input.value != "") ==> t == "{}"
  {
    if input.Some? && input.value != "" then input.value else "{}"
  }

  class CustomAgentMonitor {
    var stats: AgentStats
    var currentToolStart: int

    /** Every logged tool output respects the output limit. */
    ghost predicate Valid()
      reads this
    {
      forall i :: 0 <= i < |stats.toolCalls| ==> |stats.toolCalls[i].output| <= OutputLimit
    }

    constructor(now: int)
      ensures Valid()
      ensures stats == AgentStats(now, [], 0, 0, Running) && currentToolStart == 0
    {
      stats := AgentStats(now, [], 0, 0, Running);
      currentToolStart := 0;
    }

    /** resetStats: a fresh run that started at `now`. */
    method ResetStats(now: int)
      modifies this`stats
      ensures Valid()
      ensures stats == AgentStats(now, [], 0, 0, Running)
    {
      stats := AgentStats(now, [], 0, 0, Running);
    }

    /** handleChainStart: only a chain whose `lc_namespace` includes "agents" starts a run. */
    method HandleChainStart(namespace: Option<seq<string>>, now: int)
      requires Valid()
      modifies this`stats
      ensures Valid()
      ensures namespace.Some? && "agents" in namespace.value ==> stats == AgentStats(now, [], 0, 0, Running)
      ensures !(namespace.Some? && "agents" in namespace.value) ==> stats == old(stats)
    {
      if namespace.Some? && "agents" in namespace.value {
        ResetStats(now);
      }
    }

    /** handleToolStart: remember when the tool started. */
    method HandleToolStart(now: int)
      modifies this`currentToolStart
      ensures currentToolStart == now
    {
      currentToolStart := now;
    }

    /** handleToolEnd: push one record for the finished tool.  `parse` stands for
        JSON.parse, None when it throws, in which case nothing is pushed. */
    method HandleToolEnd(output: string, toolName: Js, toolInput: Option<string>,
                         parse: string -> Option<Js>, now: int, timestamp: int)
      returns (pushed: bool)
      requires Valid()
      modifies this`stats
      ensures Valid()
      ensures pushed <==> parse(InputText(toolInput)).Some?
      ensures !pushed ==> stats == old(stats)
      ensures pushed ==> stats == old(stats).(toolCalls := old(stats).toolCalls + [ToolCallRecord(
        toolName, parse(InputText(toolInput)).value, Clip(output), now - currentToolStart, timestamp)])
    {
      var duration := now - currentToolStart;
      var parsed := parse(InputText(toolInput));
      if parsed.None? {
        return false;
      }
      var entry := ToolCallRecord(toolName, parsed.value, Clip(output), duration, timestamp);
      stats := stats.(toolCalls := stats.toolCalls + [entry]);
      pushed := true;
    }

    /** handleLLMStart: one more LLM call. */
    method HandleLLMStart()
      requires Valid()
      modifies this`stats
      ensures Valid()
      ensures stats == old(stats).(llmCalls := old(stats).llmCalls + 1)
    {
      stats := stats.(llmCalls := stats.llmCalls + 1);
    }

    /** handleChainEnd: the run is complete and its duration known. */
    method HandleChainEnd(now: int)
      requires Valid()
      modifies this`stats
      ensures Valid()
      ensures stats == old(stats).(totalDuration := now - old(stats).startTime, status := Completed)
    {
      stats := stats.(totalDuration := now - stats.startTime, status := Completed);
    }

    /** handleChainError: the run failed. */
    method HandleChainError()
      requires Valid()
      modifies this`stats
      ensures Valid()
      ensures stats == old(stats).(status := Error)
    {
      stats := stats.(status := Error);
    }

    /** getStats: a copy of the counters. */
    method GetStats() returns (s: AgentStats)
      requires Valid()
      ensures s == stats
      ensures forall i :: 0 <= i < |s.toolCalls| ==> |s.toolCalls[i].output| <= OutputLimit
    {
      s := stats;
    }
  }

  /** A tool that starts and ends appends exactly one record, whose duration is the time
      between the two callbacks; every other part of the counters is kept. */
  method ToolRoundTrip(c: CustomAgentMonitor, output: string, toolName: Js, toolInput: Option<string>,
                       parse: string -> Option<Js>, start: int, end: int)
    requires c.Valid() && parse(InputText(toolInput)).Some?
    modifies c
    ensures c.Valid()
    ensures c.stats == old(c.stats).(toolCalls := old(c.stats.toolCalls)
      + [ToolCallRecord(toolName, parse(InputText(toolInput)).value, Clip(output), end - start, end)])
    ensures c.currentToolStart == start
  {
    c.HandleToolStart(start);
    var pushed := c.HandleToolEnd(output, toolName, toolInput, parse, end, end);
  }
}
