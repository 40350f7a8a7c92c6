/** The task supervisor (`SupervisorAgent`): intent labels, dispatch to the
    general chat model or a sub-agent, the normalised `TaskResult`, the
    bounded task history and its statistics. The language model, the
    sub-agents, `uuid` and the clocks are outside: what they answer for one
    task arrives in an `Environment` value. */
module Supervisor {
  import opened Slices
  import opened Values
  import opened Observability

  /** The history cap in `_record_task`. */
  const MaxHistory: nat := 100

  /** The keys of `self.sub_agents`. */
  const SubAgentKeys: set<string> := {"map", "music"}

  /** The three labels `analyze_intent` may return. */
  const LabelNames: set<string> := {"map", "music", "general"}

  /** Content used when a sub-agent returns no messages. */
  const NoContent: string := "(Agent未返回内容)"

  /** Prefix of the content of a failed task. */
  const FailurePrefix: string := "任务执行失败: "

  /** Message of the error raised for a label that has no handler. */
  const UnknownAgentPrefix: string := "未知的Agent类型: "

  // ---------------------------------------------------------------------------
  // Intent labels and `analyze_intent`
  // ---------------------------------------------------------------------------

  datatype Label = MapTask | MusicTask | GeneralTask {
    function Name(): (s: string)
      ensures s in LabelNames
    {
      match this
      case MapTask => "map"
      case MusicTask => "music"
      case GeneralTask => "general"
    }
  }

  /** Decoding a label from text: defined exactly on the three names. */
  function ParseLabel(s: string): (r: Option<Label>)
    ensures r.Some? <==> s in LabelNames
    ensures r.Some? ==> r.value.Name() == s
  {
    if s == "map" then Some(MapTask)
    else if s == "music" then Some(MusicTask)
    else if s == "general" then Some(GeneralTask)
    else None
  }

  /** Python's `str.isspace` on one character. */
  predicate IsSpace(c: char)
  {
    || ('\U{9}' <= c <= '\U{D}')
    || ('\U{1C}' <= c <= '\U{20}')
    || c == '\U{85}' || c == '\U{A0}' || c == '\U{1680}'
    || ('\U{2000}' <= c <= '\U{200A}')
    || c == '\U{2028}' || c == '\U{2029}' || c == '\U{202F}' || c == '\U{205F}' || c == '\U{3000}'
  }

  /** The leading-whitespace half of `str.strip()`. */
  function StripLeft(s: string): (r: string)
    ensures |r| <= |s| && r == s[|s| - |r|..]
    ensures forall i :: 0 <= i < |s| - |r| ==> IsSpace(s[i])
    ensures r == [] || !IsSpace(r[0])
  {
    if s != [] && IsSpace(s[0]) then StripLeft(s[1..]) else s
  }

  /** The trailing-whitespace half of `str.strip()`. */
  function StripRight(s: string): (r: string)
    ensures |r| <= |s| && r == s[..|r|]
    ensures forall i :: |r| <= i < |s| ==> IsSpace(s[i])
    ensures r == [] || !IsSpace(r[|r| - 1])
  {
    if s != [] && IsSpace(s[|s| - 1]) then StripRight(s[..|s| - 1]) else s
  }

  function Strip(s: string): string
  {
    StripRight(StripLeft(s))
  }

  function LowerChar(c: char): char
  {
    if 'A' <= c <= 'Z' then (c as int + 32) as char else c
  }

  /** `str.lower()` on the ASCII letters. */
  function Lower(s: string): (r: string)
    ensures |r| == |s|
    ensures forall i :: 0 <= i < |s| ==> r[i] == LowerChar(s[i])
    ensures forall i :: 0 <= i < |r| ==> !('A' <= r[i] <= 'Z')
  {
    if s == [] then [] else [LowerChar(s[0])] + Lower(s[1..])
  }

  /** `response.content.strip().lower()`. */
  function Normalize(text: string): string
  {
    Lower(Strip(text))
  }

  /** The validation and fallback of `analyze_intent`, given what the
      classification call did: returned a reply text, or raised. */
  function AnalyzeIntent(reply: Outcome<string>): (l: Label)
    ensures l.Name() in LabelNames
    ensures reply.Raised? ==> l == GeneralTask
    ensures reply.Done? && Normalize(reply.value) in LabelNames ==> l.Name() == Normalize(reply.value)
    ensures reply.Done? && Normalize(reply.value) !in LabelNames ==> l == GeneralTask
  {
    match reply
    case Raised(_) => GeneralTask
    case Done(text) =>
      match ParseLabel(Normalize(text))
      case Some(l) => l
      case None => GeneralTask
  }

  lemma {:induction false} StripLeftSkipsPad(pad: string, s: string)
    requires forall i :: 0 <= i < |pad| ==> IsSpace(pad[i])
    ensures StripLeft(pad + s) == StripLeft(s)
  {
    if pad != [] {
      assert (pad + s)[0] == pad[0];
      assert (pad + s)[1..] == pad[1..] + s;
      StripLeftSkipsPad(pad[1..], s);
    } else {
      assert pad + s == s;
    }
  }

  lemma {:induction false} StripRightSkipsPad(s: string, pad: string)
    requires forall i :: 0 <= i < |pad| ==> IsSpace(pad[i])
    ensures StripRight(s + pad) == StripRight(s)
  {
    if pad != [] {
      var p := pad[..|pad| - 1];
      assert (s + pad)[|s + pad| - 1] == pad[|pad| - 1];
      assert (s + pad)[..|s + pad| - 1] == s + p;
      StripRightSkipsPad(s, p);
    } else {
      assert s + pad == s;
    }
  }

  /** `strip()` removes whitespace padding around a word that neither starts
      nor ends with whitespace. */
  lemma StripAroundWord(word: string, before: string, after: string)
    requires word != [] && !IsSpace(word[0]) && !IsSpace(word[|word| - 1])
    requires forall i :: 0 <= i < |before| ==> IsSpace(before[i])
    requires forall i :: 0 <= i < |after| ==> IsSpace(after[i])
    ensures Strip(before + word + after) == word
  {
    assert before + word + after == before + (word + after);
    StripLeftSkipsPad(before, word + after);
    assert (word + after)[0] == word[0];
    assert StripLeft(word + after) == word + after;
    StripRightSkipsPad(word, after);
  }

  /** Label names are non-empty words of lower-case ASCII letters. */
  lemma NameIsLowerWord(l: Label)
    ensures |l.Name()| > 0
    ensures forall i :: 0 <= i < |l.Name()| ==> 'a' <= l.Name()[i] <= 'z'
  {
  }

  /** A character that lower-cases to an ASCII letter is not whitespace. */
  lemma LetterIsNotSpace(c: char)
    requires 'a' <= LowerChar(c) <= 'z'
    ensures !IsSpace(c)
  {
  }

  /** On ASCII text, `isspace` holds for exactly the space, the control
      characters tab to carriage return and the separators 0x1C to 0x1F; no
      letter or digit is whitespace. */
  lemma AsciiSpaces(c: char)
    requires c < '\U{80}'
    ensures IsSpace(c) <==> c == ' ' || '\t' <= c <= '\r' || '\U{1C}' <= c <= '\U{1F}'
    ensures ('a' <= c <= 'z' || 'A' <= c <= 'Z' || '0' <= c <= '9') ==> !IsSpace(c)
  {
  }

  /** `strip()` cuts off only whitespace: everything before the kept text
      and everything after it is whitespace. */
  lemma {:induction false} StripCutsSpace(s: string)
    ensures |s| - |StripLeft(s)| + |Strip(s)| <= |s|
    ensures forall i :: 0 <= i < |s| - |StripLeft(s)| ==> IsSpace(s[i])
    ensures forall i :: |s| - |StripLeft(s)| + |Strip(s)| <= i < |s| ==> IsSpace(s[i])
  {
    var t := StripLeft(s);
    var r := StripRight(t);
    var k := |s| - |t|;
    assert t == s[k..];
    forall i | k + |r| <= i < |s|
      ensures IsSpace(s[i])
    {
      assert s[i] == t[i - k];
    }
  }

  /** The text `strip()` keeps neither starts nor ends with whitespace. */
  lemma {:induction false} StripEnds(s: string)
    ensures Strip(s) == [] || (!IsSpace(Strip(s)[0]) && !IsSpace(Strip(s)[|Strip(s)| - 1]))
  {
    var t := StripLeft(s);
    if t != [] {
      assert !IsSpace(t[0]);
    }
  }

  /** Lower-casing turns no character into whitespace or out of it. */
  lemma LowerKeepsNonSpace(c: char)
    requires !IsSpace(c)
    ensures !IsSpace(LowerChar(c))
  {
  }

  /** The normalised reply is the stripped reply lower-cased letter by letter:
      it has the stripped length, no upper-case ASCII letter, and no
      whitespace at either end. */
  lemma NormalizeShape(text: string)
    ensures var r := Normalize(text);
      && |r| == |Strip(text)|
      && (forall i :: 0 <= i < |r| ==> !('A' <= r[i] <= 'Z'))
      && (r == [] || (!IsSpace(r[0]) && !IsSpace(r[|r| - 1])))
  {
    var s := Strip(text);
    StripEnds(text);
    if s != [] {
      LowerKeepsNonSpace(s[0]);
      LowerKeepsNonSpace(s[|s| - 1]);
    }
  }

  /** A reply that is a label name in any letter case, with any whitespace
      around it, is accepted as that label. */
  lemma ClassifierToleratesCaseAndPadding(l: Label, word: string, before: string, after: string)
    requires Lower(word) == l.Name()
    requires forall i :: 0 <= i < |before| ==> IsSpace(before[i])
    requires forall i :: 0 <= i < |after| ==> IsSpace(after[i])
    ensures AnalyzeIntent(Done(before + word + after)) == l
  {
    var name := l.Name();
    NameIsLowerWord(l);
    assert |word| == |name| > 0;
    LetterIsNotSpace(word[0]);
    LetterIsNotSpace(word[|word| - 1]);
    StripAroundWord(word, before, after);
    assert Normalize(before + word + after) == name;
    assert ParseLabel(name) == Some(l);
  }

  // ---------------------------------------------------------------------------
  // TaskResult
  // ---------------------------------------------------------------------------

  datatype TaskResult = TaskResult(
    success: bool,
    agentType: string,
    content: string,
    metadata: Metadata,
    error: Option<string>)
  {
    /** `to_dict`: the five fields under their Python names; the dictionary
        determines the result. */
    function ToDict(): (d: Metadata)
      ensures d.Keys == {"success", "agent_type", "content", "metadata", "error"}
      ensures FromDict(d) == Some(this)
    {
      map[
        "success" := Flag(success),
        "agent_type" := Text(agentType),
        "content" := Text(content),
        "metadata" := Dict(metadata),
        "error" := match error case None => Null case Some(e) => Text(e)]
    }
  }

  /** Reads a `to_dict` dictionary back. */
  function FromDict(d: Metadata): Option<TaskResult>
  {
    if && "success" in d && d["success"].Flag?
       && "agent_type" in d && d["agent_type"].Text?
       && "content" in d && d["content"].Text?
       && "metadata" in d && d["metadata"].Dict?
       && "error" in d && (d["error"].Null? || d["error"].Text?)
    then Some(TaskResult(d["success"].b, d["agent_type"].s, d["content"].s, d["metadata"].fields,
                         if d["error"].Text? then Some(d["error"].s) else None))
    else None
  }

  /** One entry of `task_history`. */
  datatype TaskRecord = TaskRecord(
    taskId: string,
    timestamp: string,
    userInput: string,
    agentType: string,
    success: bool,
    executionTime: real,
    result: Metadata)

  /** What the outside world answers during one `execute_task` call:
      the short task id, the id `start_trace` generates, the reply of the
      classification call, the reply of the direct chat call, what the
      sub-agent's `invoke` gives (the contents of its messages) or raises,
      the elapsed time and the wall-clock timestamp. */
  datatype Environment = Environment(
    taskId: string,
    traceId: string,
    classifierReply: Outcome<string>,
    chatReply: Outcome<string>,
    agentReply: Outcome<seq<string>>,
    elapsed: real,
    now: string)

  // ---------------------------------------------------------------------------
  // The specification of one `execute_task` call
  // ---------------------------------------------------------------------------

  /** The label a task runs under: the explicit one, else the classifier's. */
  function ResolveLabel(agentType: Option<string>, classifierReply: Outcome<string>): (l: string)
    ensures agentType.Some? ==> l == agentType.value
    ensures agentType.None? ==> l in LabelNames && l == AnalyzeIntent(classifierReply).Name()
  {
    match agentType
    case Some(t) => t
    case None => AnalyzeIntent(classifierReply).Name()
  }

  /** The content of the last message, or the placeholder for none. */
  function LastContent(messages: seq<string>): string
  {
    if messages != [] then messages[|messages| - 1] else NoContent
  }

  /** The dispatch on the label: the content the task produces, or the
      message of the exception that ends it. */
  function Dispatch(chosen: string, env: Environment): Outcome<string>
  {
    if chosen == "general" then env.chatReply
    else if chosen in SubAgentKeys then
      match env.agentReply
      case Done(messages) => Done(LastContent(messages))
      case Raised(e) => Raised(e)
    else Raised(UnknownAgentPrefix + chosen)
  }

  /** Only one of the three labels can produce content: `general` gives the
      chat reply, a sub-agent its last message, the placeholder when it
      returns none, or its exception, and any other label raises the
      unknown-agent error. */
  lemma DispatchCases(chosen: string, env: Environment)
    ensures Dispatch(chosen, env).Done? ==> chosen in LabelNames
    ensures chosen == "general" ==> Dispatch(chosen, env) == env.chatReply
    ensures chosen in SubAgentKeys && env.agentReply.Done? ==>
      Dispatch(chosen, env) ==
        Done(LastContent(env.agentReply.value))
    ensures chosen in SubAgentKeys && env.agentReply.Raised? ==> Dispatch(chosen, env) == Raised(env.agentReply.message)
    ensures chosen !in LabelNames ==> Dispatch(chosen, env) == Raised(UnknownAgentPrefix + chosen)
  {
  }

  /** `agent_type or "unknown"`. */
  function OrUnknown(chosen: string): string
  {
    if chosen == "" then "unknown" else chosen
  }

  function TaskMetadata(userInput: string, env: Environment): Metadata
  {
    map[
      "task_id" := Text(env.taskId),
      "execution_time" := Number(env.elapsed),
      "user_input" := Text(userInput),
      "trace_id" := Text(env.traceId)]
  }

  /** The `TaskResult` one `execute_task` call returns. */
  function ExpectedResult(userInput: string, agentType: Option<string>, env: Environment): (r: TaskResult)
    ensures r.success <==> r.error.None?
    ensures r.metadata.Keys == {"task_id", "execution_time", "user_input", "trace_id"}
    ensures r.metadata["task_id"] == Text(env.taskId) && r.metadata["trace_id"] == Text(env.traceId)
    ensures r.metadata["user_input"] == Text(userInput) && r.metadata["execution_time"] == Number(env.elapsed)
    ensures r.success ==> r.agentType in LabelNames && r.agentType == ResolveLabel(agentType, env.classifierReply)
    ensures !r.success ==> r.agentType == OrUnknown(ResolveLabel(agentType, env.classifierReply))
    ensures !r.success ==> r.content == FailurePrefix + r.error.value
  {
    ResultOf(userInput, ResolveLabel(agentType, env.classifierReply), Dispatch(ResolveLabel(agentType, env.classifierReply), env), env)
  }

  /** `ExpectedResult` is the result built from the resolved label and the
      dispatch on it; stated on its own so that callers need not unfold it. */
  lemma ExpectedResultSteps(userInput: string, agentType: Option<string>, env: Environment)
    ensures ExpectedResult(userInput, agentType, env) ==
      ResultOf(userInput, ResolveLabel(agentType, env.classifierReply), Dispatch(ResolveLabel(agentType, env.classifierReply), env), env)
  {
  }

  /** The result built from the label and what dispatching on it did. */
  function ResultOf(userInput: string, chosen: string, outcome: Outcome<string>, env: Environment): TaskResult
  {
    match outcome
    case Done(content) => TaskResult(true, chosen, content, TaskMetadata(userInput, env), None)
    case Raised(e) => TaskResult(false, OrUnknown(chosen), FailurePrefix + e, TaskMetadata(userInput, env), Some(e))
  }

  /** The history record `_record_task` builds for a finished task. */
  function TaskRecordOf(userInput: string, chosen: string, result: TaskResult, env: Environment): TaskRecord
  {
    TaskRecord(env.taskId, env.now, userInput, chosen, result.success, env.elapsed, result.ToDict())
  }

  /** The metadata `end_trace` receives. */
  function EndMetadata(result: TaskResult, elapsed: real): Metadata
  {
    match result.error
    case None => map["success" := Flag(true), "execution_time" := Number(elapsed)]
    case Some(e) => map["success" := Flag(false), "error" := Text(e)]
  }

  /** The span `start_trace` opens a task's trace with. */
  function StartSpan(userInput: string, env: Environment): Span
  {
    Span(env.traceId, "execute_task." + env.taskId + ".start", env.now, map["user_input" := Text(userInput)])
  }

  /** The single span `end_trace` closes a task's trace with. */
  function EndSpan(result: TaskResult, env: Environment): Span
  {
    Span(env.traceId, "end", env.now, EndMetadata(result, env.elapsed))
  }

  function SelectionData(env: Environment, chosen: string): Metadata
  {
    map["task_id" := Text(env.taskId), "agent_type" := Text(chosen)]
  }

  /** The events one task records, in order: the classifier's, then the dispatch's. */
  function TaskEvents(agentType: Option<string>, env: Environment): seq<Event>
  {
    IntentEvents(agentType, env) + DispatchEvents(ResolveLabel(agentType, env.classifierReply), env)
  }

  /** One task records `intent_analysis` exactly when the classifier is
      consulted, always one `agent_selection`, and `agent_invocation` exactly
      when a sub-agent is called. */
  lemma TaskEventsShape(agentType: Option<string>, env: Environment)
    ensures var r := TaskEvents(agentType, env);
      && |r| == (if agentType.None? then 1 else 0) + 1
                + (if ResolveLabel(agentType, env.classifierReply) in SubAgentKeys then 1 else 0)
      && (agentType.None? ==> r[0].eventType == "intent_analysis")
      && (forall i :: 0 <= i < |r| && r[i].eventType == "intent_analysis" ==> agentType.None?)
      && r[|r| - 1 - (if ResolveLabel(agentType, env.classifierReply) in SubAgentKeys then 1 else 0)].eventType == "agent_selection"
      && (ResolveLabel(agentType, env.classifierReply) in SubAgentKeys ==> r[|r| - 1].eventType == "agent_invocation")
      && (forall i :: 0 <= i < |r| && r[i].eventType == "agent_invocation" ==>
            ResolveLabel(agentType, env.classifierReply) in SubAgentKeys)
  {
  }

  /** `TaskEvents` is the classifier's event followed by the dispatch events. */
  lemma TaskEventsSteps(before: seq<Event>, agentType: Option<string>, env: Environment)
    ensures before + IntentEvents(agentType, env) + DispatchEvents(ResolveLabel(agentType, env.classifierReply), env)
         == before + TaskEvents(agentType, env)
  {
  }

  /** The `intent_analysis` event, recorded just before the classifier runs. */
  function IntentEvents(agentType: Option<string>, env: Environment): seq<Event>
  {
    if agentType.None? then [Event("intent_analysis", env.now, map["task_id" := Text(env.taskId)])] else []
  }

  /** The `agent_selection` event and, before a sub-agent runs, `agent_invocation`. */
  function DispatchEvents(chosen: string, env: Environment): seq<Event>
  {
    [Event("agent_selection", env.now, SelectionData(env, chosen))]
    + (if chosen in SubAgentKeys
       then [Event("agent_invocation", env.now, SelectionData(env, chosen))] else [])
  }

  /** The metric map after one task: the execution time and a success sample
      under the label, or one failure sample under the shown label. */
  function TaskMetrics(metrics: map<string, seq<real>>, result: TaskResult, elapsed: real): map<string, seq<real>>
  {
    if result.success then
      WithSample(WithSample(metrics, "agent." + result.agentType + ".execution_time", elapsed),
                 "agent." + result.agentType + ".success", 1.0)
    else WithSample(metrics, "agent." + result.agentType + ".failure", 1.0)
  }

  /** The result reports the dispatch: it succeeds exactly when the dispatch
      returned, and then carries the content under the label; otherwise it
      carries the error, the failure text and the label, with `unknown` for
      an empty one. Either way it carries the task's metadata. */
  lemma ResultOfCases(userInput: string, chosen: string, outcome: Outcome<string>, env: Environment)
    ensures var r := ResultOf(userInput, chosen, outcome, env);
      && (r.success <==> outcome.Done?)
      && (r.success <==> r.error.None?)
      && (outcome.Done? ==> r.agentType == chosen && r.content == outcome.value)
      && (outcome.Raised? ==>
            && r.agentType == OrUnknown(chosen) && r.agentType != ""
            && r.error == Some(outcome.message) && r.content == FailurePrefix + outcome.message)
      && r.metadata == TaskMetadata(userInput, env)
  {
  }

  /** The history record keeps the raw label, the task's id, input, time and
      timestamp, and a dictionary that reads back to the result. */
  lemma TaskRecordKeepsResult(userInput: string, chosen: string, result: TaskResult, env: Environment)
    ensures var rec := TaskRecordOf(userInput, chosen, result, env);
      && rec.taskId == env.taskId && rec.timestamp == env.now && rec.userInput == userInput
      && rec.agentType == chosen && rec.success == result.success && rec.executionTime == env.elapsed
      && FromDict(rec.result) == Some(result)
  {
  }

  /** The metadata closing a trace reports success exactly when the result
      has no error, with the execution time on success and the error text on
      failure. */
  lemma EndMetadataReportsOutcome(result: TaskResult, elapsed: real)
    ensures var m := EndMetadata(result, elapsed);
      && "success" in m && m["success"] == Flag(result.error.None?)
      && (result.error.None? ==> m.Keys == {"success", "execution_time"} && m["execution_time"] == Number(elapsed))
      && (result.error.Some? ==> m.Keys == {"success", "error"} && m["error"] == Text(result.error.value))
  {
  }

  /** One task adds a sample to the execution-time and success series of its
      label, or to the failure series of its shown label, and leaves every
      other series as it was. */
  lemma TaskMetricsTouchOnlyTheLabel(metrics: map<string, seq<real>>, result: TaskResult, elapsed: real)
    ensures var r, prefix := TaskMetrics(metrics, result, elapsed), "agent." + result.agentType;
      var touched := if result.success then {prefix + ".execution_time", prefix + ".success"} else {prefix + ".failure"};
      && r.Keys == metrics.Keys + touched
      && (forall n :: n in metrics && n !in touched ==> r[n] == metrics[n])
      && (result.success ==>
            && r[prefix + ".execution_time"] == Last(SeriesOf(metrics, prefix + ".execution_time") + [elapsed], MaxSamples)
            && r[prefix + ".success"] == Last(SeriesOf(metrics, prefix + ".success") + [1.0], MaxSamples))
      && (!result.success ==> r[prefix + ".failure"] == Last(SeriesOf(metrics, prefix + ".failure") + [1.0], MaxSamples))
  {
    var prefix := "agent." + result.agentType;
    assert prefix + ".execution_time" != prefix + ".success" by {
      assert |prefix + ".execution_time"| != |prefix + ".success"|;
    }
  }

  // ---------------------------------------------------------------------------
  // Properties of one task
  // ---------------------------------------------------------------------------

  /** With an explicit label the classifier's reply plays no part. */
  lemma ExplicitLabelSkipsClassifier(userInput: string, chosen: string, env: Environment, other: Outcome<string>)
    ensures ExpectedResult(userInput, Some(chosen), env) == ExpectedResult(userInput, Some(chosen), env.(classifierReply := other))
    ensures TaskEvents(Some(chosen), env) == TaskEvents(Some(chosen), env.(classifierReply := other))
  {
  }

  /** On the general path the sub-agents' replies play no part. */
  lemma GeneralPathSkipsSubAgents(userInput: string, agentType: Option<string>, env: Environment, other: Outcome<seq<string>>)
    requires ResolveLabel(agentType, env.classifierReply) == "general"
    ensures ExpectedResult(userInput, agentType, env) == ExpectedResult(userInput, agentType, env.(agentReply := other))
    ensures ExpectedResult(userInput, agentType, env).content ==
      match env.chatReply case Done(t) => t case Raised(e) => FailurePrefix + e
  {
  }

  /** A label with no handler fails the task with the "unknown agent type" error. */
  lemma UnknownLabelFails(userInput: string, chosen: string, env: Environment)
    requires chosen !in LabelNames
    ensures var r := ExpectedResult(userInput, Some(chosen), env);
      && !r.success
      && r.error == Some(UnknownAgentPrefix + chosen)
      && r.content == FailurePrefix + UnknownAgentPrefix + chosen
      && r.agentType == OrUnknown(chosen)
  {
  }

  /** A sub-agent's result is the content of its last message, the
      placeholder when it returns none, and its exception text when it raises. */
  lemma SubAgentOutcome(userInput: string, agentType: Option<string>, env: Environment)
    requires ResolveLabel(agentType, env.classifierReply) in SubAgentKeys
    ensures var r := ExpectedResult(userInput, agentType, env);
      match env.agentReply
      case Done(messages) =>
        r.success && r.content == (if messages == [] then NoContent else messages[|messages| - 1])
      case Raised(e) => !r.success && r.error == Some(e) && r.content == FailurePrefix + e
  {
  }

  /** `execute_task("查询北京天安门", agent_type="map")` against a map agent
      whose one message is "found POI X". */
  lemma MapScenario(env: Environment)
    requires env.agentReply == Done(["found POI X"])
    ensures var r := ExpectedResult("查询北京天安门", Some("map"), env);
      r.success && r.agentType == "map" && r.content == "found POI X"
  {
  }

  // ---------------------------------------------------------------------------
  // History statistics
  // ---------------------------------------------------------------------------

  /** The dictionary returned by `get_statistics`. */
  datatype TaskStatistics = TaskStatistics(
    totalTasks: nat,
    successRate: real,
    avgExecutionTime: real,
    agentUsage: map<string, nat>)

  function CountSuccesses(h: seq<TaskRecord>): (c: nat)
    ensures c <= |h|
  {
    if h == [] then 0 else (if h[|h| - 1].success then 1 else 0) + CountSuccesses(h[..|h| - 1])
  }

  /** The execution times of the records, in order. */
  function Times(h: seq<TaskRecord>): (t: seq<real>)
    ensures |t| == |h| && forall i :: 0 <= i < |h| ==> t[i] == h[i].executionTime
  {
    seq(|h|, i requires 0 <= i < |h| => h[i].executionTime)
  }

  /** `sum(t["execution_time"] for t in task_history)`. */
  function SumTimes(h: seq<TaskRecord>): real
  {
    SumOf(Times(h))
  }

  /** The mean time `get_statistics` reports lies between any bounds on
      every record's execution time. */
  lemma AverageTimeBetween(h: seq<TaskRecord>, lo: real, hi: real)
    requires h != []
    requires forall i :: 0 <= i < |h| ==> lo <= h[i].executionTime <= hi
    ensures lo <= SumTimes(h) / (|h| as real) <= hi
  {
    SumAtLeast(Times(h), lo);
    SumAtMost(Times(h), hi);
    QuotientBetween(lo, hi, SumTimes(h), |h| as real);
  }

  predicate Succeeded(r: TaskRecord)
  {
    r.success
  }

  /** The success count is the number of records marked successful. */
  lemma {:induction false} CountSuccessesExact(h: seq<TaskRecord>)
    ensures CountSuccesses(h) == |Filter(h, Succeeded)|
  {
    if h != [] {
      var init := h[..|h| - 1];
      CountSuccessesExact(init);
      assert h == init + [h[|h| - 1]];
      FilterAppend(init, h[|h| - 1], Succeeded);
    }
  }

  /** The agent types of the records, in order. */
  function AgentTypes(h: seq<TaskRecord>): (ts: seq<string>)
    ensures |ts| == |h| && forall i :: 0 <= i < |h| ==> ts[i] == h[i].agentType
  {
    seq(|h|, i requires 0 <= i < |h| => h[i].agentType)
  }

  /** Each agent type's usage count is the number of records of that type,
      and a type with no record has no entry. */
  lemma {:induction false} UsageCountsExact(h: seq<TaskRecord>, t: string)
    ensures (if t in UsageCounts(h) then UsageCounts(h)[t] else 0) == multiset(AgentTypes(h))[t]
  {
    if h != [] {
      var init := h[..|h| - 1];
      UsageCountsExact(init, t);
      assert AgentTypes(h) == AgentTypes(init) + [h[|h| - 1].agentType];
    }
  }

  /** One more use of `agentType`. */
  function Bump(usage: map<string, nat>, agentType: string): map<string, nat>
  {
    usage[agentType := if agentType in usage then usage[agentType] + 1 else 1]
  }

  /** The per-agent-type use counts of a history. */
  function UsageCounts(h: seq<TaskRecord>): (u: map<string, nat>)
    ensures forall t :: t in u ==> u[t] > 0
  {
    if h == [] then map[] else Bump(UsageCounts(h[..|h| - 1]), h[|h| - 1].agentType)
  }

  /** Counting one more record bumps the count of its agent type. */
  lemma UsageCountsStep(h: seq<TaskRecord>, i: nat)
    requires i < |h|
    ensures UsageCounts(h[..i + 1]) == Bump(UsageCounts(h[..i]), h[i].agentType)
  {
    assert h[..i + 1][..i] == h[..i];
  }

  /** The usage map has a key for exactly the agent types that occur in the history. */
  lemma {:induction false} UsageCountsKeys(h: seq<TaskRecord>)
    ensures forall i :: 0 <= i < |h| ==> h[i].agentType in UsageCounts(h)
    ensures forall t :: t in UsageCounts(h) ==> exists i :: 0 <= i < |h| && h[i].agentType == t
  {
    if h != [] {
      var init := h[..|h| - 1];
      UsageCountsKeys(init);
      var u := UsageCounts(h);
      assert u == Bump(UsageCounts(init), h[|h| - 1].agentType);
      forall t | t in u
        ensures exists i :: 0 <= i < |h| && h[i].agentType == t
      {
        if t != h[|h| - 1].agentType {
          var i :| 0 <= i < |init| && init[i].agentType == t;
          assert h[i] == init[i];
        }
      }
      forall i | 0 <= i < |h|
        ensures h[i].agentType in u
      {
        if i < |init| { assert h[i] == init[i]; }
      }
    }
  }

  /** The sum of the counts in a usage map. */
  ghost function MapTotal(m: map<string, nat>): nat
    decreases |m|
  {
    if m == map[] then 0
    else
      var k :| k in m;
      assert |m - {k}| < |m| by { assert (m - {k}).Keys == m.Keys - {k}; }
      m[k] + MapTotal(m - {k})
  }

  /** The total does not depend on which key is taken first. */
  lemma {:induction false} MapTotalRemove(m: map<string, nat>, k: string)
    requires k in m
    ensures MapTotal(m) == m[k] + MapTotal(m - {k})
    decreases |m|
  {
    var j :| j in m && MapTotal(m) == m[j] + MapTotal(m - {j});
    if j != k {
      assert (m - {k}).Keys == m.Keys - {k};
      assert (m - {j}).Keys == m.Keys - {j};
      MapTotalRemove(m - {j}, k);
      MapTotalRemove(m - {k}, j);
      assert m - {j} - {k} == m - {k} - {j};
    }
  }

  lemma BumpTotal(u: map<string, nat>, t: string)
    ensures MapTotal(Bump(u, t)) == MapTotal(u) + 1
  {
    var b := Bump(u, t);
    MapTotalRemove(b, t);
    if t in u {
      MapTotalRemove(u, t);
      assert b - {t} == u - {t};
    } else {
      assert b - {t} == u;
    }
  }

  /** The usage counts add up to the number of recorded tasks. */
  lemma {:induction false} UsageCountsAddUp(h: seq<TaskRecord>)
    ensures MapTotal(UsageCounts(h)) == |h|
  {
    if h != [] {
      UsageCountsAddUp(h[..|h| - 1]);
      BumpTotal(UsageCounts(h[..|h| - 1]), h[|h| - 1].agentType);
    }
  }

  lemma RateBetween(successes: nat, total: nat)
    requires 0 < total && successes <= total
    ensures 0.0 <= (successes as real) / (total as real) <= 1.0
  {
  }

  // ---------------------------------------------------------------------------
  // The supervisor object
  // ---------------------------------------------------------------------------

  class SupervisorAgent {
    /** The store the supervisor reports into (a process-wide singleton in the
        original, passed in here). */
    const obs: ObservabilityManager
    var taskHistory: seq<TaskRecord>

    /** Every record ever appended, oldest first. */
    ghost var allTasks: seq<TaskRecord>

    /** The history is the newest `MaxHistory` records ever appended. */
    ghost predicate Valid()
      reads this
    {
      taskHistory == Last(allTasks, MaxHistory)
    }

    constructor (obs: ObservabilityManager)
      ensures Valid()
      ensures this.obs == obs && taskHistory == [] && allTasks == []
    {
      this.obs := obs;
      taskHistory := [];
      allTasks := [];
    }

    /** `_record_task`: append one record and keep the newest 100. */
    method RecordTask(taskId: string, userInput: string, agentType: string, result: TaskResult,
                      executionTime: real, now: string)
      requires Valid()
      modifies this`taskHistory, this`allTasks
      ensures Valid()
      ensures allTasks == old(allTasks) + [TaskRecord(taskId, now, userInput, agentType, result.success, executionTime, result.ToDict())]
      ensures taskHistory == Capped(old(taskHistory),
        TaskRecord(taskId, now, userInput, agentType, result.success, executionTime, result.ToDict()), MaxHistory)
      ensures |taskHistory| <= MaxHistory
    {
      var record := TaskRecord(taskId, now, userInput, agentType, result.success, executionTime, result.ToDict());
      LastOfLast(allTasks, record, MaxHistory);
      taskHistory := taskHistory + [record];
      if |taskHistory| > MaxHistory {
        taskHistory := Suffix(taskHistory, MaxHistory);
      }
      allTasks := allTasks + [record];
    }

    /** `get_task_history(limit)`: the slice `task_history[-limit:]`. */
    function GetTaskHistory(limit: int): (r: seq<TaskRecord>)
      reads this
      ensures limit > 0 ==> r == taskHistory[|taskHistory| - Min(limit, |taskHistory|)..]
      ensures limit == 0 ==> r == taskHistory
      ensures limit < 0 ==> r == taskHistory[Min(-limit, |taskHistory|)..]
    {
      Suffix(taskHistory, limit)
    }

    /** `execute_task`. Every call, successful or not, appends exactly one
        history record, one start span and one end span. */
    method ExecuteTask(userInput: string, agentType: Option<string>, env: Environment) returns (result: TaskResult)
      requires Valid() && obs.Valid()
      modifies this`taskHistory, this`allTasks, obs`traces, obs`allSpans, obs`events, obs`allEvents, obs`metrics
      ensures Valid() && obs.Valid()
      ensures result == ExpectedResult(userInput, agentType, env)
      ensures allTasks == old(allTasks) + [TaskRecordOf(userInput, ResolveLabel(agentType, env.classifierReply), result, env)]
      ensures taskHistory ==
        Capped(old(taskHistory), TaskRecordOf(userInput, ResolveLabel(agentType, env.classifierReply), result, env), MaxHistory)
      ensures obs.allSpans == old(obs.allSpans) + [StartSpan(userInput, env)] + [EndSpan(result, env)]
      ensures obs.allEvents == old(obs.allEvents) + TaskEvents(agentType, env)
      ensures obs.metrics == TaskMetrics(old(obs.metrics), result, env.elapsed)
    {
      ghost var metrics0 := obs.metrics;
      var traceId := obs.StartTrace("execute_task." + env.taskId, map["user_input" := Text(userInput)], env.traceId, env.now);
      ExpectedResultSteps(userInput, agentType, env);
      var chosen, outcome := Route(agentType, env);
      assert obs.metrics == metrics0;
      result := Conclude(userInput, chosen, outcome, env, traceId);
    }

    /** The `try` block of `execute_task` up to the dispatch: resolve the
        label, then run it. */
    method Route(agentType: Option<string>, env: Environment) returns (chosen: string, outcome: Outcome<string>)
      requires obs.Valid()
      modifies obs`events, obs`allEvents
      ensures obs.Valid()
      ensures chosen == ResolveLabel(agentType, env.classifierReply)
      ensures outcome == Dispatch(chosen, env)
      ensures obs.allEvents == old(obs.allEvents) + TaskEvents(agentType, env)
    {
      chosen := SelectAgent(agentType, env);
      outcome := RunAgent(chosen, env);
      TaskEventsSteps(old(obs.allEvents), agentType, env);
    }

    /** Step 1 of `execute_task`: the explicit label, or the classifier's. */
    method SelectAgent(agentType: Option<string>, env: Environment) returns (chosen: string)
      requires obs.Valid()
      modifies obs`events, obs`allEvents
      ensures obs.Valid()
      ensures chosen == ResolveLabel(agentType, env.classifierReply)
      ensures obs.allEvents == old(obs.allEvents) + IntentEvents(agentType, env)
    {
      if agentType.None? {
        obs.RecordEvent("intent_analysis", map["task_id" := Text(env.taskId)], env.now);
        chosen := AnalyzeIntent(env.classifierReply).Name();
      } else {
        chosen := agentType.value;
      }
    }

    /** Step 2 of `execute_task`: the dispatch on the label. */
    method RunAgent(chosen: string, env: Environment) returns (outcome: Outcome<string>)
      requires obs.Valid()
      modifies obs`events, obs`allEvents
      ensures obs.Valid()
      ensures outcome == Dispatch(chosen, env)
      ensures obs.allEvents == old(obs.allEvents) + DispatchEvents(chosen, env)
    {
      obs.RecordEvent("agent_selection", SelectionData(env, chosen), env.now);
      if chosen == "general" {
        outcome := env.chatReply;
      } else if chosen in SubAgentKeys {
        obs.RecordEvent("agent_invocation", SelectionData(env, chosen), env.now);
        match env.agentReply {
          case Done(messages) =>
            outcome := Done(LastContent(messages));
          case Raised(e) =>
            outcome := Raised(e);
        }
      } else {
        outcome := Raised(UnknownAgentPrefix + chosen);
      }
    }

    /** Steps 3 and 4 of `execute_task`, or its exception handler: build the
        result, record it, end the trace and record the metrics. */
    method Conclude(userInput: string, chosen: string, outcome: Outcome<string>, env: Environment, traceId: string)
      returns (result: TaskResult)
      requires Valid() && obs.Valid()
      modifies this`taskHistory, this`allTasks, obs`traces, obs`allSpans, obs`metrics
      ensures Valid() && obs.Valid()
      ensures result == ResultOf(userInput, chosen, outcome, env)
      ensures allTasks == old(allTasks) + [TaskRecordOf(userInput, chosen, result, env)]
      ensures taskHistory == Capped(old(taskHistory), TaskRecordOf(userInput, chosen, result, env), MaxHistory)
      ensures obs.allSpans == old(obs.allSpans) + [Span(traceId, "end", env.now, EndMetadata(result, env.elapsed))]
      ensures obs.metrics == TaskMetrics(old(obs.metrics), result, env.elapsed)
    {
      var metadata := TaskMetadata(userInput, env);
      match outcome {
        case Done(content) =>
          result := TaskResult(true, chosen, content, metadata, None);
          RecordTask(env.taskId, userInput, chosen, result, env.elapsed, env.now);
          obs.EndTrace(traceId, map["success" := Flag(true), "execution_time" := Number(env.elapsed)], env.now);
          obs.RecordMetric("agent." + chosen + ".execution_time", env.elapsed);
          obs.RecordMetric("agent." + chosen + ".success", 1.0);
        case Raised(e) =>
          var shown := if chosen != "" then chosen else "unknown";
          result := TaskResult(false, shown, FailurePrefix + e, metadata, Some(e));
          RecordTask(env.taskId, userInput, chosen, result, env.elapsed, env.now);
          obs.EndTrace(traceId, map["success" := Flag(false), "error" := Text(e)], env.now);
          obs.RecordMetric("agent." + shown + ".failure", 1.0);
      }
    }

    /** `get_statistics`: zeros and an empty usage map for an empty history;
        otherwise the success rate, the average time and the per-type usage
        counts, which add up to the number of tasks. */
    method GetStatistics() returns (s: TaskStatistics)
      ensures taskHistory == [] ==> s == TaskStatistics(0, 0.0, 0.0, map[])
      ensures taskHistory != [] ==>
        && s.totalTasks == |taskHistory|
        && s.successRate == (CountSuccesses(taskHistory) as real) / (|taskHistory| as real)
        && 0.0 <= s.successRate <= 1.0
        && s.avgExecutionTime == SumTimes(taskHistory) / (|taskHistory| as real)
        && s.agentUsage == UsageCounts(taskHistory)
        && MapTotal(s.agentUsage) == s.totalTasks
    {
      if taskHistory == [] {
        return TaskStatistics(0, 0.0, 0.0, map[]);
      }
      var total := |taskHistory|;
      var successCount := CountSuccesses(taskHistory);

      var usage: map<string, nat> := map[];
      var i := 0;
      while i < total
        invariant 0 <= i <= total
        invariant usage == UsageCounts(taskHistory[..i])
      {
        var agentType := taskHistory[i].agentType;
        UsageCountsStep(taskHistory, i);
        if agentType !in usage {
          usage := usage[agentType := 0];
        }
        usage := usage[agentType := usage[agentType] + 1];
        i := i + 1;
      }
      assert taskHistory[..total] == taskHistory;

      var avgTime := SumTimes(taskHistory) / (total as real);
      RateBetween(successCount, total);
      UsageCountsAddUp(taskHistory);
      s := TaskStatistics(total, (successCount as real) / (total as real), avgTime, usage);
    }
  }
}
