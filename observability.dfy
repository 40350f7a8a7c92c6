/** The in-memory trace, metric and event store (`ObservabilityManager`) and
    the two decorators that report into it. Timestamps and generated trace ids
    are supplied by the caller. */
module Observability {
  import opened Slices
  import opened Values

  /** `max_traces`, `max_events` and the per-series cap in `record_metric`. */
  const MaxTraces: nat := 1000
  const MaxEvents: nat := 1000
  const MaxSamples: nat := 1000

  datatype Span = Span(traceId: string, spanName: string, timestamp: string, metadata: Metadata)

  datatype Event = Event(eventType: string, timestamp: string, data: Metadata)

  /** One entry of `metric_summary`. */
  datatype MetricSummary = MetricSummary(count: nat, min: real, max: real, avg: real)

  /** The dictionary returned by `get_statistics`. */
  datatype Statistics = Statistics(
    totalTraces: nat,
    totalEvents: nat,
    metricsCount: nat,
    metricSummary: map<string, MetricSummary>)

  /** `metrics.get(name, [])`. */
  function SeriesOf(metrics: map<string, seq<real>>, name: string): seq<real>
  {
    if name in metrics then metrics[name] else []
  }

  /** The metric map after `record_metric(name, value)`. */
  function WithSample(metrics: map<string, seq<real>>, name: string, value: real): (r: map<string, seq<real>>)
    ensures r.Keys == metrics.Keys + {name}
    ensures r[name] == Last(SeriesOf(metrics, name) + [value], MaxSamples)
    ensures forall n :: n in metrics && n != name ==> r[n] == metrics[n]
  {
    metrics[name := Capped(SeriesOf(metrics, name), value, MaxSamples)]
  }

  /** Recording a sample keeps every series within its cap. */
  lemma SamplesStayBounded(metrics: map<string, seq<real>>, name: string, value: real)
    requires forall n :: n in metrics ==> |metrics[n]| <= MaxSamples
    ensures forall n :: n in WithSample(metrics, name, value) ==> |WithSample(metrics, name, value)[n]| <= MaxSamples
  {
  }

  function RMin(a: real, b: real): real { if a <= b then a else b }
  function RMax(a: real, b: real): real { if a >= b then a else b }

  /** Python's `min(values)` over a non-empty list. */
  function MinOf(v: seq<real>): (m: real)
    requires |v| > 0
    ensures m in v
    ensures forall i :: 0 <= i < |v| ==> m <= v[i]
  {
    if |v| == 1 then v[0] else RMin(v[0], MinOf(v[1..]))
  }

  /** Python's `max(values)` over a non-empty list. */
  function MaxOf(v: seq<real>): (m: real)
    requires |v| > 0
    ensures m in v
    ensures forall i :: 0 <= i < |v| ==> v[i] <= m
  {
    if |v| == 1 then v[0] else RMax(v[0], MaxOf(v[1..]))
  }

  /** Python's `sum(values)`. */
  function SumOf(v: seq<real>): real
  {
    if v == [] then 0.0 else v[0] + SumOf(v[1..])
  }

  /** A lower bound of every sample bounds the sum from below, `n` times over. */
  lemma {:induction false} SumAtLeast(v: seq<real>, lo: real)
    requires forall i :: 0 <= i < |v| ==> lo <= v[i]
    ensures (|v| as real) * lo <= SumOf(v)
  {
    if v != [] {
      var t := v[1..];
      SumAtLeast(t, lo);
      assert (|v| as real) * lo == lo + (|t| as real) * lo;
    }
  }

  /** An upper bound of every sample bounds the sum from above, `n` times over. */
  lemma {:induction false} SumAtMost(v: seq<real>, hi: real)
    requires forall i :: 0 <= i < |v| ==> v[i] <= hi
    ensures SumOf(v) <= (|v| as real) * hi
  {
    if v != [] {
      var t := v[1..];
      SumAtMost(t, hi);
      assert (|v| as real) * hi == hi + (|t| as real) * hi;
    }
  }

  lemma QuotientBetween(lo: real, hi: real, sum: real, n: real)
    requires n > 0.0 && n * lo <= sum <= n * hi
    ensures lo <= sum / n <= hi
  {
  }

  /** The summary of one non-empty series. */
  function Summarize(v: seq<real>): (s: MetricSummary)
    requires |v| > 0
    ensures s.count == |v|
    ensures s.min in v && s.max in v
    ensures forall i :: 0 <= i < |v| ==> s.min <= v[i] <= s.max
    ensures s.min <= s.avg <= s.max
    ensures s.avg == SumOf(v) / (|v| as real)
  {
    SumAtLeast(v, MinOf(v));
    SumAtMost(v, MaxOf(v));
    QuotientBetween(MinOf(v), MaxOf(v), SumOf(v), |v| as real);
    MetricSummary(|v|, MinOf(v), MaxOf(v), SumOf(v) / (|v| as real))
  }

  class ObservabilityManager {
    var traces: seq<Span>
    var metrics: map<string, seq<real>>
    var events: seq<Event>

    /** Every span and every event ever appended, oldest first. */
    ghost var allSpans: seq<Span>
    ghost var allEvents: seq<Event>

    /** The buffers hold the newest entries of everything appended, and no
        series is longer than its cap. */
    ghost predicate Valid()
      reads this
    {
      && traces == Last(allSpans, MaxTraces)
      && events == Last(allEvents, MaxEvents)
      && forall n :: n in metrics ==> |metrics[n]| <= MaxSamples
    }

    lemma Bounded()
      requires Valid()
      ensures |traces| <= MaxTraces && |events| <= MaxEvents
      ensures forall n :: n in metrics ==> |metrics[n]| <= MaxSamples
    {
    }

    constructor ()
      ensures Valid()
      ensures traces == [] && events == [] && metrics == map[]
      ensures allSpans == [] && allEvents == []
    {
      traces, metrics, events := [], map[], [];
      allSpans, allEvents := [], [];
    }

    /** The append-then-trim shared by `start_trace`, `end_trace` and `trace`. */
    method AppendSpan(span: Span)
      requires Valid()
      modifies this`traces, this`allSpans
      ensures Valid()
      ensures allSpans == old(allSpans) + [span]
      ensures traces == Capped(old(traces), span, MaxTraces)
    {
      LastOfLast(allSpans, span, MaxTraces);
      traces := traces + [span];
      if |traces| > MaxTraces {
        traces := Suffix(traces, MaxTraces);
      }
      allSpans := allSpans + [span];
    }

    /** `start_trace`: `freshId` stands for `str(uuid.uuid4())[:8]`, `now` for the clock. */
    method StartTrace(spanName: string, metadata: Metadata, freshId: string, now: string) returns (traceId: string)
      requires Valid()
      modifies this`traces, this`allSpans
      ensures Valid()
      ensures traceId == freshId
      ensures allSpans == old(allSpans) + [Span(freshId, spanName + ".start", now, metadata)]
      ensures traces == Capped(old(traces), Span(freshId, spanName + ".start", now, metadata), MaxTraces)
    {
      traceId := freshId;
      AppendSpan(Span(traceId, spanName + ".start", now, metadata));
    }

    /** `end_trace`. */
    method EndTrace(traceId: string, metadata: Metadata, now: string)
      requires Valid()
      modifies this`traces, this`allSpans
      ensures Valid()
      ensures allSpans == old(allSpans) + [Span(traceId, "end", now, metadata)]
      ensures traces == Capped(old(traces), Span(traceId, "end", now, metadata), MaxTraces)
    {
      AppendSpan(Span(traceId, "end", now, metadata));
    }

    /** `trace`: an intermediate span. */
    method Trace(traceId: string, spanName: string, metadata: Metadata, now: string)
      requires Valid()
      modifies this`traces, this`allSpans
      ensures Valid()
      ensures allSpans == old(allSpans) + [Span(traceId, spanName, now, metadata)]
      ensures traces == Capped(old(traces), Span(traceId, spanName, now, metadata), MaxTraces)
    {
      AppendSpan(Span(traceId, spanName, now, metadata));
    }

    /** `record_metric`: create the series if absent, append, cap that series. */
    method RecordMetric(name: string, value: real)
      requires Valid()
      modifies this`metrics
      ensures Valid()
      ensures metrics == WithSample(old(metrics), name, value)
    {
      ghost var before := metrics;
      if name !in metrics {
        metrics := metrics[name := []];
      }
      var series := metrics[name] + [value];
      if |series| > MaxSamples {
        series := Suffix(series, MaxSamples);
      }
      assert series == Capped(SeriesOf(before, name), value, MaxSamples);
      metrics := metrics[name := series];
      assert metrics == WithSample(before, name, value);
      SamplesStayBounded(before, name, value);
    }

    /** `record_event`. */
    method RecordEvent(eventType: string, data: Metadata, now: string)
      requires Valid()
      modifies this`events, this`allEvents
      ensures Valid()
      ensures allEvents == old(allEvents) + [Event(eventType, now, data)]
      ensures events == Capped(old(events), Event(eventType, now, data), MaxEvents)
    {
      var event := Event(eventType, now, data);
      LastOfLast(allEvents, event, MaxEvents);
      events := events + [event];
      if |events| > MaxEvents {
        events := Suffix(events, MaxEvents);
      }
      allEvents := allEvents + [event];
    }

    /** The spans a `get_traces(trace_id, ...)` call looks at. */
    function Matching(traceId: Option<string>): (r: seq<Span>)
      reads this
      ensures Truthy(traceId) ==> forall i :: 0 <= i < |r| ==> r[i].traceId == traceId.value
      ensures Truthy(traceId) ==> forall i :: 0 <= i < |traces| && traces[i].traceId == traceId.value ==> traces[i] in r
      ensures !Truthy(traceId) ==> r == traces
    {
      if Truthy(traceId) then Filter(traces, (s: Span) => s.traceId == traceId.value) else traces
    }

    /** `get_traces(trace_id, limit)`. */
    function GetTraces(traceId: Option<string>, limit: int): (r: seq<Span>)
      reads this
      ensures forall i :: 0 <= i < |r| ==> r[i] in traces
      ensures Truthy(traceId) ==> forall i :: 0 <= i < |r| ==> r[i].traceId == traceId.value
      ensures limit > 0 ==> |r| == Min(limit, |Matching(traceId)|)
      ensures |r| <= |Matching(traceId)| && r == Matching(traceId)[|Matching(traceId)| - |r|..]
      ensures limit == 0 ==> r == Matching(traceId)
    {
      Suffix(Matching(traceId), limit)
    }

    /** The events a `get_events(event_type, ...)` call looks at. */
    function MatchingEvents(eventType: Option<string>): (r: seq<Event>)
      reads this
      ensures Truthy(eventType) ==> forall i :: 0 <= i < |r| ==> r[i].eventType == eventType.value
      ensures Truthy(eventType) ==> forall i :: 0 <= i < |events| && events[i].eventType == eventType.value ==> events[i] in r
      ensures !Truthy(eventType) ==> r == events
    {
      if Truthy(eventType) then Filter(events, (e: Event) => e.eventType == eventType.value) else events
    }

    /** `get_events(event_type, limit)`. */
    function GetEvents(eventType: Option<string>, limit: int): (r: seq<Event>)
      reads this
      ensures forall i :: 0 <= i < |r| ==> r[i] in events
      ensures Truthy(eventType) ==> forall i :: 0 <= i < |r| ==> r[i].eventType == eventType.value
      ensures limit > 0 ==> |r| == Min(limit, |MatchingEvents(eventType)|)
      ensures |r| <= |MatchingEvents(eventType)| && r == MatchingEvents(eventType)[|MatchingEvents(eventType)| - |r|..]
      ensures limit == 0 ==> r == MatchingEvents(eventType)
    {
      Suffix(MatchingEvents(eventType), limit)
    }

    /** `get_metrics(metric_name)`. */
    function GetMetrics(name: Option<string>): (r: map<string, seq<real>>)
      reads this
      ensures Truthy(name) ==> r.Keys == {name.value}
      ensures Truthy(name) && name.value in metrics ==> r[name.value] == metrics[name.value]
      ensures Truthy(name) && name.value !in metrics ==> r[name.value] == []
      ensures !Truthy(name) ==> r == metrics
    {
      if Truthy(name) then map[name.value := SeriesOf(metrics, name.value)] else metrics
    }

    /** `get_statistics`: the sizes of the three stores and a summary of every
        non-empty series. */
    method GetStatistics() returns (s: Statistics)
      ensures s.totalTraces == |traces| && s.totalEvents == |events| && s.metricsCount == |metrics|
      ensures s.metricSummary.Keys == set n | n in metrics && metrics[n] != []
      ensures forall n :: n in s.metricSummary ==>
        n in metrics && |metrics[n]| > 0 && s.metricSummary[n] == Summarize(metrics[n])
    {
      var summary: map<string, MetricSummary> := map[];
      var pending := metrics.Keys;
      while pending != {}
        invariant pending <= metrics.Keys
        invariant summary.Keys == set n | n in metrics && n !in pending && metrics[n] != []
        invariant forall n :: n in summary ==>
          n in metrics && |metrics[n]| > 0 && summary[n] == Summarize(metrics[n])
        decreases pending
      {
        var n :| n in pending;
        if metrics[n] != [] {
          summary := summary[n := Summarize(metrics[n])];
        }
        pending := pending - {n};
      }
      s := Statistics(|traces|, |events|, |metrics|, summary);
    }
  }

  /** The bookkeeping of the `monitor_agent_execution` decorator around one
      call whose outcome is `call`; the outcome is handed back unchanged (a
      raised exception is re-raised). */
  method MonitorAgentExecution<T>(obs: ObservabilityManager, agentType: string, funcName: string,
                                  call: Outcome<T>, elapsed: real, now: string)
    returns (r: Outcome<T>)
    requires obs.Valid()
    modifies obs`metrics, obs`events, obs`allEvents
    ensures obs.Valid()
    ensures r == call
    ensures obs.metrics ==
      WithSample(WithSample(old(obs.metrics), "agent." + agentType + ".execution_time", elapsed),
                 "agent." + agentType + (if call.Done? then ".success" else ".failure"), 1.0)
    ensures obs.allEvents == old(obs.allEvents) + MonitorEvents(agentType, funcName, call, elapsed, now)
  {
    var events := MonitorEvents(agentType, funcName, call, elapsed, now);
    obs.RecordEvent(events[0].eventType, events[0].data, now);
    obs.RecordMetric("agent." + agentType + ".execution_time", elapsed);
    if call.Done? {
      obs.RecordMetric("agent." + agentType + ".success", 1.0);
    } else {
      obs.RecordMetric("agent." + agentType + ".failure", 1.0);
      obs.RecordEvent(events[1].eventType, events[1].data, now);
      AppendPair(old(obs.allEvents), events);
    }
    r := call;
  }

  lemma AppendPair<T>(s: seq<T>, pair: seq<T>)
    requires |pair| == 2
    ensures s + [pair[0]] + [pair[1]] == s + pair
  {
    assert pair == [pair[0]] + [pair[1]];
  }

  /** The events `monitor_agent_execution` records for one call. */
  function MonitorEvents<T>(agentType: string, funcName: string, call: Outcome<T>, elapsed: real, now: string): (r: seq<Event>)
    ensures |r| == if call.Done? then 1 else 2
    ensures forall i :: 0 <= i < |r| ==> r[i].timestamp == now
    ensures r[0].eventType == "agent_invocation"
    ensures call.Raised? ==> r[1].eventType == "agent_failure" && "error" in r[1].data && r[1].data["error"] == Text(call.message)
  {
    var invocation := Event("agent_invocation", now, map["agent_type" := Text(agentType), "function" := Text(funcName)]);
    if call.Done? then [invocation]
    else [invocation, Event("agent_failure", now,
            map["agent_type" := Text(agentType), "error" := Text(call.message), "execution_time" := Number(elapsed)])]
  }

  /** The bookkeeping of the `trace_execution` decorator around one call:
      a start span, then a success span, a metric and an event, or an error
      span and an event; the outcome is handed back unchanged. */
  method TraceExecution<T>(obs: ObservabilityManager, spanName: Option<string>, funcName: string, argsCount: nat,
                           kwargsKeys: seq<string>, freshId: string, call: Outcome<T>, elapsed: real, now: string)
    returns (r: Outcome<T>)
    requires obs.Valid()
    modifies obs`traces, obs`allSpans, obs`metrics, obs`events, obs`allEvents
    ensures obs.Valid()
    ensures r == call
    ensures obs.allSpans == old(obs.allSpans) +
      TraceSpans(SpanName(spanName, funcName), funcName, argsCount, kwargsKeys, freshId, call, elapsed, now)
    ensures obs.metrics ==
      if call.Done? then WithSample(old(obs.metrics), SpanName(spanName, funcName) + ".execution_time", elapsed)
      else old(obs.metrics)
    ensures obs.allEvents == old(obs.allEvents) + [TraceEvent(funcName, freshId, call, elapsed, now)]
  {
    var name := SpanName(spanName, funcName);
    ghost var metrics0, events0 := obs.metrics, obs.allEvents;
    var spans := TraceSpans(name, funcName, argsCount, kwargsKeys, freshId, call, elapsed, now);
    var start, finish := spans[0], spans[1];
    obs.Trace(start.traceId, start.spanName, start.metadata, now);
    obs.Trace(finish.traceId, finish.spanName, finish.metadata, now);
    AppendPair(old(obs.allSpans), spans);
    ghost var spans1 := obs.allSpans;
    assert obs.metrics == metrics0 && obs.allEvents == events0;
    if call.Done? {
      obs.RecordMetric(name + ".execution_time", elapsed);
    }
    var event := TraceEvent(funcName, freshId, call, elapsed, now);
    obs.RecordEvent(event.eventType, event.data, now);
    assert obs.allSpans == spans1;
    r := call;
  }

  /** The name `trace_execution` gives its spans and metric: the decorator's
      argument when it is a non-empty string, the wrapped function's name
      otherwise. */
  function SpanName(spanName: Option<string>, funcName: string): (name: string)
    ensures spanName.Some? && spanName.value != [] ==> name == spanName.value
    ensures spanName.None? || spanName.value == [] ==> name == funcName
  {
    if spanName.Some? && spanName.value != [] then spanName.value else funcName
  }

  /** The two spans `trace_execution` adds for one call, both under the fresh trace id. */
  function TraceSpans<T>(name: string, funcName: string, argsCount: nat, kwargsKeys: seq<string>,
                         freshId: string, call: Outcome<T>, elapsed: real, now: string): (r: seq<Span>)
    ensures |r| == 2
    ensures r[0].traceId == freshId && r[1].traceId == freshId
    ensures r[0].timestamp == now && r[1].timestamp == now
    ensures r[0].spanName == name + ".start"
    ensures r[1].spanName == name + (if call.Done? then ".success" else ".error")
    ensures r[0].metadata ==
      map["function" := Text(funcName), "args_count" := Number(argsCount as real), "kwargs_keys" := TextList(kwargsKeys)]
    ensures call.Done? ==> r[1].metadata == map["execution_time" := Number(elapsed)]
    ensures call.Raised? ==> r[1].metadata == map["error" := Text(call.message), "execution_time" := Number(elapsed)]
  {
    var start := Span(freshId, name + ".start", now,
      map["function" := Text(funcName), "args_count" := Number(argsCount as real), "kwargs_keys" := TextList(kwargsKeys)]);
    var finish :=
      if call.Done? then Span(freshId, name + ".success", now, map["execution_time" := Number(elapsed)])
      else Span(freshId, name + ".error", now, map["error" := Text(call.message), "execution_time" := Number(elapsed)]);
    [start, finish]
  }

  /** The one event `trace_execution` records for one call. */
  function TraceEvent<T>(funcName: string, freshId: string, call: Outcome<T>, elapsed: real, now: string): (e: Event)
    ensures e.eventType == if call.Done? then "function_success" else "function_error"
    ensures e.timestamp == now && "trace_id" in e.data && e.data["trace_id"] == Text(freshId)
    ensures call.Raised? ==> "error" in e.data && e.data["error"] == Text(call.message)
  {
    if call.Done? then
      Event("function_success", now,
        map["function" := Text(funcName), "trace_id" := Text(freshId), "execution_time" := Number(elapsed)])
    else
      Event("function_error", now,
        map["function" := Text(funcName), "trace_id" := Text(freshId), "error" := Text(call.message),
            "execution_time" := Number(elapsed)])
  }

  /** The keyword-argument names as the list stored under `kwargs_keys`. */
  function TextList(keys: seq<string>): (v: Value)
    ensures v.Items? && |v.elems| == |keys|
    ensures forall i :: 0 <= i < |keys| ==> v.elems[i] == Text(keys[i])
  {
    if keys == [] then Items([]) else Items([Text(keys[0])] + TextList(keys[1..]).elems)
  }
}
