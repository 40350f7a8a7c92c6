# Supervisor and observability bookkeeping of lc-entertainment

This project models the task supervisor of the lc-entertainment backend and the
in-memory observability store it reports into, and proves properties of them in Dafny.

The **supervisor** is `SupervisorAgent`, in `agents/supervisor_agent.py`. It
works through one user request as follows.

1. It labels the request `map`, `music` or `general`. The label is either given
   by the caller or produced by `analyze_intent`. That function asks the
   language model for a label, strips and lower-cases the reply, and falls back
   to `general` when the reply is not a label or the call raises.
2. It dispatches on the label:
   - `general` goes to a direct chat call;
   - `map` and `music` go to a sub-agent, and the task's content is the content
     of the sub-agent's last message, or a placeholder when there is none;
   - any other label raises "未知的Agent类型: ...".
3. It wraps what happened in a `TaskResult`. A raised error becomes a failed
   result whose content is "任务执行失败: " followed by the error.
4. It keeps a bounded task history (the newest 100 records) and computes
   statistics over that history.

The **observability store** is `ObservabilityManager`, in `observability.py`.
It keeps three stores:
- a bounded list of trace spans (1000);
- a bounded list of events (1000);
- a map of metric series, each capped at 1000 samples.

Its query and summary operations are modelled too. So is the bookkeeping of the
two decorators `trace_execution` and `monitor_agent_execution`.

Files:
- `slices.dfy` (module `Slices`) models the Python list idioms the source relies
  on:
  - the slice `s[-k:]` for every integer `k`, including 0 and negatives;
  - "append, then keep the newest `cap`";
  - filtering list comprehensions.
- `values.dfy` (module `Values`) holds:
  - `Option`;
  - `Outcome`, a call that returns or raises;
  - the JSON-like `Value` stored in metadata dictionaries.
- `observability.dfy` (module `Observability`) models:
  - the class `ObservabilityManager`;
  - the metric summary functions;
  - the two decorators, as methods around a given call outcome.
- `supervisor.dfy` (module `Supervisor`) models:
  - labels and `analyze_intent`;
  - `TaskResult`;
  - the specification of one `execute_task` call;
  - the class `SupervisorAgent`;
  - the history statistics.

The span buffer, the event buffer and the task history each keep a ghost log
of everything ever appended. The invariant `Valid()` says each of these
buffers equals the newest `cap` entries of its log. This shows that eviction
is oldest-first over the whole history. For the trace store in particular,
eviction ignores which trace a span belongs to. The metric series keep no
log: `Valid()` only bounds each series to 1000 samples, and `WithSample`
states what one recording does to a series.

The language model, the sub-agents, `uuid`, `time.time()` and
`datetime.now()` cannot be seen from the model. Their answers for one task
arrive as the fields of an `Environment` value:
- the task id;
- the trace id;
- the classifier's reply or exception;
- the chat reply or exception;
- the sub-agent's message contents or exception;
- the elapsed time;
- the timestamp.

Behaviours of the code worth noting:
- **A failed result's `agent_type` can be any string.** It is not only one of
  the three labels or `"unknown"`:
  - with an explicit unknown label such as `"weather"`, the failed result
    carries `"weather"`;
  - `""` is the only label replaced by `"unknown"`; an explicit
    `"unknown"` label is also shown as given.
  The history record keeps the raw label (`""`), and the failure metric uses
  the shown one.
- **The history after an append holds the last `min(99, n)` earlier records
  plus the new one,** where `n` is the number of earlier records. That is,
  the newest 100 overall.
- **`get_task_history`, `get_traces` and `get_events` with `limit == 0` return
  the whole list.** A negative limit drops the first `-limit` entries. This is
  Python's `[-0:]` and `[-(-k):]` semantics.

## Model

| member | source | states |
|---|---|---|
| Slices.Suffix | lc-entertainment/app/backend/agents/supervisor_agent.py:249-251 | `s[-limit:]`: for a positive limit the newest `min(limit, n)` entries in stored order; for 0 the whole list; for a negative limit everything but the first `-limit`; always a suffix of the list |
| Slices.Capped | lc-entertainment/app/backend/observability.py:73-77 | append-then-trim yields the newest `cap` of the extended list; it never exceeds `cap`, always ends with the new item, and drops exactly the oldest item when the buffer was full |
| Slices.LastOfLast | lc-entertainment/app/backend/observability.py:118-122 | trimming after every append keeps exactly the newest `cap` of everything ever appended (global oldest-first eviction) |
| Slices.Filter | lc-entertainment/app/backend/observability.py:165-167 | the comprehension keeps only matching entries, keeps every matching entry, and is no longer than its input |
| Slices.FilterAppend | lc-entertainment/app/backend/observability.py:178-180 | filtering preserves the stored order: a new entry is appended to the filtered list exactly when it matches |
| Observability.WithSample | lc-entertainment/app/backend/observability.py:132-139 | recording a sample creates the series if absent, makes it the newest 1000 of the old series plus the sample, and leaves every other series unchanged |
| Observability.MinOf | lc-entertainment/app/backend/observability.py:197 | `min(values)` is one of the values and no value is smaller |
| Observability.MaxOf | lc-entertainment/app/backend/observability.py:198 | `max(values)` is one of the values and no value is larger |
| Observability.SumAtLeast | lc-entertainment/app/backend/observability.py:199 | a lower bound of every sample, times the count, bounds the sum from below |
| Observability.SumAtMost | lc-entertainment/app/backend/observability.py:199 | an upper bound of every sample, times the count, bounds the sum from above |
| Observability.Summarize | lc-entertainment/app/backend/observability.py:194-200 | the summary of a non-empty series has count = length, min and max drawn from the series and bounding it, and `min <= avg <= max` with avg = sum / count |
| Observability.ObservabilityManager.Bounded | lc-entertainment/app/backend/observability.py:43-44 | in every valid state there are at most 1000 spans, 1000 events and 1000 samples per series |
| Observability.ObservabilityManager.constructor | lc-entertainment/app/backend/observability.py:38-44 | a new store is empty and valid |
| Observability.ObservabilityManager.AppendSpan | lc-entertainment/app/backend/observability.py:73-77 | one span is appended and the buffer stays the newest 1000 spans ever appended |
| Observability.ObservabilityManager.StartTrace | lc-entertainment/app/backend/observability.py:52-79 | returns the generated id and appends one `<name>.start` span under it, keeping the buffer bound |
| Observability.ObservabilityManager.EndTrace | lc-entertainment/app/backend/observability.py:81-100 | appends one `end` span under the given id, keeping the buffer bound |
| Observability.ObservabilityManager.Trace | lc-entertainment/app/backend/observability.py:102-122 | appends one span with the given id and name, keeping the buffer bound |
| Observability.ObservabilityManager.RecordMetric | lc-entertainment/app/backend/observability.py:124-139 | the metric map becomes `WithSample` of the old map; every series stays within 1000 samples |
| Observability.SamplesStayBounded | lc-entertainment/app/backend/observability.py:137-139 | recording a sample keeps every series within 1000 samples |
| Observability.ObservabilityManager.RecordEvent | lc-entertainment/app/backend/observability.py:141-159 | appends one event with the given type and data and keeps the buffer the newest 1000 events ever recorded |
| Observability.ObservabilityManager.Matching | lc-entertainment/app/backend/observability.py:165-168 | with a non-empty id it keeps exactly the spans of that id; with `None` or `""` it is the whole buffer |
| Observability.ObservabilityManager.GetTraces | lc-entertainment/app/backend/observability.py:163-168 | the result is a suffix of the matching spans in stored order, all from the buffer and of the asked id; its length is `min(limit, matches)` for a positive limit; all matches for 0 |
| Observability.ObservabilityManager.MatchingEvents | lc-entertainment/app/backend/observability.py:178-181 | with a non-empty type it keeps exactly the events of that type; otherwise the whole buffer |
| Observability.ObservabilityManager.GetEvents | lc-entertainment/app/backend/observability.py:176-181 | the result is a suffix of the matching events in stored order, all of the asked type; its length is `min(limit, matches)` for a positive limit; all matches for 0 |
| Observability.ObservabilityManager.GetMetrics | lc-entertainment/app/backend/observability.py:170-174 | with a non-empty name a one-key map holding that series or `[]`; otherwise the whole metric map |
| Observability.ObservabilityManager.GetStatistics | lc-entertainment/app/backend/observability.py:183-202 | the three store sizes, and a summary for exactly the non-empty series, each equal to `Summarize` of that series |
| Observability.MonitorAgentExecution | lc-entertainment/app/backend/observability.py:291-336 | the call's outcome is passed through; the execution time and a success or failure sample are recorded under `agent.<type>`; the events are those of `MonitorEvents` |
| Observability.MonitorEvents | lc-entertainment/app/backend/observability.py:304-331 | one `agent_invocation` event for a call that returns; that event and an `agent_failure` event carrying the error for a call that raises |
| Observability.SpanName | lc-entertainment/app/backend/observability.py:243 | the spans and the metric are named by the decorator's argument when it is a non-empty string, by the wrapped function's name when it is `None` or `""` |
| Observability.TraceExecution | lc-entertainment/app/backend/observability.py:226-288 | the call's outcome is passed through; two spans named by `SpanName` are added; the execution-time metric is recorded only on success; one event is recorded |
| Observability.TraceSpans | lc-entertainment/app/backend/observability.py:247-277 | two spans under the fresh trace id: `<name>.start` carrying the function name, the argument count and the keyword names (`TextList`), then `<name>.success` with the execution time or `<name>.error` with the error and the execution time |
| Observability.TraceEvent | lc-entertainment/app/backend/observability.py:263-283 | a `function_success` or `function_error` event carrying the trace id, and the error on failure |
| Observability.TextList | lc-entertainment/app/backend/observability.py:250 | the `kwargs_keys` entry is the list of the keyword names, in order |
| Supervisor.Label.Name | lc-entertainment/app/backend/agents/supervisor_agent.py:12 | every label's name is one of `map`, `music`, `general` |
| Supervisor.ParseLabel | lc-entertainment/app/backend/agents/supervisor_agent.py:100-103 | a text is accepted as a label exactly when it is one of the three names, and decoding inverts `Name` |
| Supervisor.AsciiSpaces | lc-entertainment/app/backend/agents/supervisor_agent.py:98 | on ASCII text `IsSpace` holds for exactly the space, tab to carriage return and the separators 0x1C to 0x1F; no letter or digit is whitespace |
| Supervisor.StripLeft | lc-entertainment/app/backend/agents/supervisor_agent.py:98 | removes exactly the leading whitespace (Python's `isspace` set): the rest is a suffix not starting with whitespace |
| Supervisor.StripRight | lc-entertainment/app/backend/agents/supervisor_agent.py:98 | removes exactly the trailing whitespace: the rest is a prefix not ending with whitespace |
| Supervisor.StripCutsSpace | lc-entertainment/app/backend/agents/supervisor_agent.py:98 | `Strip` cuts off only whitespace: everything before and after the kept text is whitespace |
| Supervisor.StripEnds | lc-entertainment/app/backend/agents/supervisor_agent.py:98 | the text `Strip` keeps neither starts nor ends with whitespace |
| Supervisor.Lower | lc-entertainment/app/backend/agents/supervisor_agent.py:98 | lower-cases letter by letter, leaving no upper-case ASCII letter |
| Supervisor.NormalizeShape | lc-entertainment/app/backend/agents/supervisor_agent.py:98 | `Normalize` is the stripped reply lower-cased: it has the stripped length, no upper-case ASCII letter and no whitespace at either end |
| Supervisor.AnalyzeIntent | lc-entertainment/app/backend/agents/supervisor_agent.py:96-110 | the normalised reply when it is a label; `general` for any other reply and when the classification call raises |
| Supervisor.StripLeftSkipsPad | lc-entertainment/app/backend/agents/supervisor_agent.py:98 | leading whitespace padding does not change the stripped text |
| Supervisor.StripRightSkipsPad | lc-entertainment/app/backend/agents/supervisor_agent.py:98 | trailing whitespace padding does not change the stripped text |
| Supervisor.StripAroundWord | lc-entertainment/app/backend/agents/supervisor_agent.py:98 | stripping whitespace around a word gives back the word |
| Supervisor.ClassifierToleratesCaseAndPadding | lc-entertainment/app/backend/agents/supervisor_agent.py:97-106 | a reply that is a label name in any letter case, with any whitespace around it, is read as that label |
| Supervisor.TaskResult.ToDict | lc-entertainment/app/backend/agents/supervisor_agent.py:31-38 | the dictionary has exactly the five field keys and reads back to the same result |
| Supervisor.ResolveLabel | lc-entertainment/app/backend/agents/supervisor_agent.py:143-145 | an explicit label is used as given; without one the label is `AnalyzeIntent` of the classifier's reply, and so one of the three names |
| Supervisor.DispatchCases | lc-entertainment/app/backend/agents/supervisor_agent.py:151-174 | `Dispatch` produces content only for one of the three labels: the chat reply for `general`, a sub-agent's last message or the placeholder, or its exception; any other label raises the unknown-agent error |
| Supervisor.ResultOfCases | lc-entertainment/app/backend/agents/supervisor_agent.py:179-215 | `ResultOf` succeeds exactly when the dispatch returned, and then carries its content under the label; otherwise it carries the error, the failure text and the label or `unknown`, never `""`; the metadata is always the task's |
| Supervisor.TaskRecordKeepsResult | lc-entertainment/app/backend/agents/supervisor_agent.py:233-241 | `TaskRecordOf` keeps the raw label, the task's id, input, time and timestamp, and a result dictionary that reads back to the result |
| Supervisor.EndMetadataReportsOutcome | lc-entertainment/app/backend/agents/supervisor_agent.py:193-218 | `EndMetadata` reports success exactly when the result has no error, with exactly the execution time on success and exactly the error text on failure |
| Supervisor.TaskMetricsTouchOnlyTheLabel | lc-entertainment/app/backend/agents/supervisor_agent.py:194-219 | `TaskMetrics` adds one sample to the execution-time and success series of the label, or to the failure series of the shown label, and leaves every other series as it was |
| Supervisor.ExpectedResult | lc-entertainment/app/backend/agents/supervisor_agent.py:179-215 | success exactly when there is no error; metadata is exactly task id, execution time, user input and trace id; a successful result names a valid label that was resolved; a failed one names the label or `unknown` and its content is the failure prefix plus the error |
| Supervisor.TaskEventsShape | lc-entertainment/app/backend/agents/supervisor_agent.py:143-160 | a task records `intent_analysis` exactly when no label is given, then one `agent_selection`, and `agent_invocation` last exactly when a sub-agent is called |
| Supervisor.ExplicitLabelSkipsClassifier | lc-entertainment/app/backend/agents/supervisor_agent.py:143-145 | with an explicit label the classifier's reply influences neither the result nor the events |
| Supervisor.GeneralPathSkipsSubAgents | lc-entertainment/app/backend/agents/supervisor_agent.py:151-154 | on the general path the sub-agents play no part and the content is the chat reply or the failure text |
| Supervisor.UnknownLabelFails | lc-entertainment/app/backend/agents/supervisor_agent.py:173-174 | a label with no handler fails the task with the unknown-agent error in both `error` and `content` |
| Supervisor.SubAgentOutcome | lc-entertainment/app/backend/agents/supervisor_agent.py:156-172 | a sub-agent task succeeds with its last message or the placeholder, or fails with the sub-agent's error |
| Supervisor.MapScenario | lc-entertainment/app/backend/agents/supervisor_agent.py:156-172 | worked example, an instance of `SubAgentOutcome`: a map request answered with one message succeeds with that message as content |
| Supervisor.CountSuccesses | lc-entertainment/app/backend/agents/supervisor_agent.py:264 | the success count never exceeds the number of tasks |
| Supervisor.CountSuccessesExact | lc-entertainment/app/backend/agents/supervisor_agent.py:264 | the success count is exactly the number of records marked successful |
| Supervisor.AverageTimeBetween | lc-entertainment/app/backend/agents/supervisor_agent.py:275 | the mean execution time, `SumOf` the records' times over their count, lies between any bounds on every record's time |
| Supervisor.UsageCounts | lc-entertainment/app/backend/agents/supervisor_agent.py:267-272 | every recorded agent type has a positive count |
| Supervisor.UsageCountsExact | lc-entertainment/app/backend/agents/supervisor_agent.py:267-272 | each agent type's count is exactly the number of records of that type, and a type with no record has no entry |
| Supervisor.UsageCountsKeys | lc-entertainment/app/backend/agents/supervisor_agent.py:267-272 | the usage map has a key for exactly the agent types that occur in the history |
| Supervisor.MapTotalRemove | lc-entertainment/app/backend/agents/supervisor_agent.py:267-272 | the total of a usage map does not depend on the order its keys are visited |
| Supervisor.BumpTotal | lc-entertainment/app/backend/agents/supervisor_agent.py:270-272 | counting one more use raises the total by one |
| Supervisor.UsageCountsAddUp | lc-entertainment/app/backend/agents/supervisor_agent.py:267-272 | the usage counts add up to the number of tasks in the history |
| Supervisor.SupervisorAgent.constructor | lc-entertainment/app/backend/agents/supervisor_agent.py:50-52 | a new supervisor has an empty, valid history |
| Supervisor.SupervisorAgent.RecordTask | lc-entertainment/app/backend/agents/supervisor_agent.py:222-247 | appends one record carrying the result's dictionary; the history stays the newest 100 records ever appended |
| Supervisor.SupervisorAgent.GetTaskHistory | lc-entertainment/app/backend/agents/supervisor_agent.py:249-251 | the newest `min(limit, n)` records for a positive limit, all for 0, all but the first `-limit` for a negative limit |
| Supervisor.SupervisorAgent.ExecuteTask | lc-entertainment/app/backend/agents/supervisor_agent.py:112-220 | returns `ExpectedResult`; appends exactly one history record, exactly one `execute_task.<id>.start` span and then one `end` span under the trace id, and the events of `TaskEvents`; records the execution time and a success sample, or one failure sample |
| Supervisor.SupervisorAgent.Route | lc-entertainment/app/backend/agents/supervisor_agent.py:141-174 | the label is the resolved one, the outcome is the dispatch on it, and the events recorded are those of `TaskEvents` |
| Supervisor.SupervisorAgent.SelectAgent | lc-entertainment/app/backend/agents/supervisor_agent.py:143-145 | chooses the resolved label and records `intent_analysis` only when no label is given |
| Supervisor.SupervisorAgent.RunAgent | lc-entertainment/app/backend/agents/supervisor_agent.py:148-174 | yields `Dispatch` of the label, after recording `agent_selection` and, before a sub-agent call, `agent_invocation` |
| Supervisor.SupervisorAgent.Conclude | lc-entertainment/app/backend/agents/supervisor_agent.py:176-220 | builds the result, records it in the history, ends the trace and records the success or failure metrics |
| Supervisor.SupervisorAgent.GetStatistics | lc-entertainment/app/backend/agents/supervisor_agent.py:253-282 | zeros for an empty history; otherwise the task count, a success rate between 0 and 1, the mean execution time and the usage counts, which add up to the task count |

## Left out

- The language model, the map and music sub-agents and their construction (`_init_sub_agents`) are not modelled. They are external services. Their replies or exceptions for one task are fields of `Environment`.
- `uuid.uuid4()`, `time.time()` and `datetime.now()` are not modelled: they are non-deterministic. The generated ids, the elapsed time and a timestamp are parameters. All records of one operation share one timestamp.
- `ExecuteTask` computes the elapsed time once, as `Environment.elapsed`. The source reads the clock separately on the success and failure paths.
- Logging, `json.dumps` in `record_event`, `export_to_file` and the log directory are left out. Logging only produces log output; `export_to_file` only reads the store and writes it to a JSON file, returning the path; creating the log directory in the constructor only touches the file system, and could raise there. None of them changes the buffers.
- The singleton pattern, its lock and the module-level instances are left out. The supervisor is handed its store explicitly. Concurrent use is not modelled.
- Floats are modelled as exact reals. Rounding in sums and averages is not captured.
- Supervisor.Lower: lower-cases ASCII letters only. Python's `str.lower()` also folds non-ASCII letters. No non-ASCII text lowers to `map`, `music` or `general`, so the label decision is unaffected.
- Sub-agent replies, as `Dispatch` reads them:
  - a sub-agent's reply is modelled as the list of its messages' contents. A missing `"messages"` key reads as an empty list.
  - the `hasattr(..., 'content')`/`str(...)` choice is not modelled: each message is already its text.
- Exceptions raised by the store or the history code inside the `try` of `execute_task` are not modelled. Only the classifier, the chat call, the sub-agent and the unknown-label check raise.
- Aliasing is not modelled:
  - `get_metrics` returns the live dictionary, or for one name the live series inside a new dictionary, and a caller could mutate them;
  - `get_traces` and `get_events` return new lists, but the span and event dictionaries inside them are the stored ones;
  - `record_event` stores the caller's dictionary without copying.
  The model returns values.
- Observability.MonitorAgentExecution and Observability.TraceExecution: the wrapped function's own effects, and their interleaving with the decorator's records, are not modelled. The wrapped call is the given outcome. The decorator's entries are what the contracts state.
- `metadata or {}` is modelled only for maps: a missing metadata argument is the empty map.
- Python's integer `0` and `1` in statistics and metrics are the reals `0.0` and `1.0`.
