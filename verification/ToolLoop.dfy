/**
 The tool loop with sub-agents, as functions of the loop state. The model's answers, the tools, the
 approval gate, compaction, timers and the plan-mode switch are an adversary: an arbitrary function
 from the number of LLM turns taken so far, by the loop and its sub-agents together, to what happens
 on the next one.
 */
module ToolLoop {
  import opened Prelude
  import Json
  import opened SessionLog
  import opened Messages
  import StreamDemux
  import opened ToolSchema
  import opened WorkingMemory

  // ---------- the adversary ----------

  /** A successful LLM call, as text and calls or as a stream, and how an output-slot retry would go. */
  datatype Completion = Completion(
    output: string,
    toolCalls: seq<ToolCall>,
    chunks: seq<StreamDemux.Chunk>,
    finishReason: Option<string>,
    supportsOutputCap: bool,
    ceiling: Option<nat>,
    retry: Option<(string, seq<ToolCall>)>)

  datatype Reply = Answered(completion: Completion) | ContextExceeded(detail: string) | CallFailed

  /** One pass of the reactive-retry loop. A timer counts only where one is armed. */
  datatype AttemptInput = AttemptInput(
    overMidWater: bool,
    midCompacted: Option<seq<Message>>,
    reply: Reply,
    reactiveCompacted: seq<Message>,
    reactiveFold: Compaction,
    callTimesOut: bool,
    retryTimesOut: bool,
    compactionTimesOut: bool)

  /** What a tool reports: its message, and of its data the matches, the kind and the path, where they are texts. */
  datatype Observation = Observation(
    ok: bool,
    terminal: bool,
    errorType: Option<string>,
    message: string,
    matches: seq<string>,
    kind: Option<string>,
    path: Option<string>)

  /**
   What happens to one requested call, given its place in the turn and its name. The content of a result is its whole
   output as a text, and its bytes are those of that text.
   */
  datatype Service = Service(
    denial: Option<string>,
    taskAnswer: string,
    observation: Observation,
    content: string,
    contentBytes: nat,
    shortened: string)

  datatype TurnInput = TurnInput(
    planMode: bool,
    microcompacted: Option<seq<Message>>,
    first: AttemptInput,
    second: AttemptInput,
    services: (nat, string) -> Service,
    compacted: Option<seq<Message>>,
    fold: Option<Compaction>,
    compactionTimesOut: bool)

  type Adversary = nat -> TurnInput

  /** What stays fixed during a run. */
  datatype Config = Config(
    inventory: Inventory,
    hasSender: bool,
    hasGate: bool,
    expectedOutputTokens: nat,
    initialRecoveryBudget: nat,
    maxSubSteps: nat,
    retainTailSteps: nat,
    workingSummaryMaxBytes: nat,
    subDisallowed: seq<string>,
    timeoutSecs: nat,
    available: seq<string> -> seq<string>,
    decode: string -> Option<Arguments>)

  // ---------- the state and what a run leaves behind ----------

  /**
   What a loop works on: its directory, the directory its project instructions were read from when the run
   began, the candidate tools of its route, the resources bound to it, and the memory of its request.
   */
  datatype Context = Context(
    directory: string,
    instructionsFrom: string,
    candidateTools: seq<string>,
    resources: seq<string>,
    memory: Memory)

  /** The last tool observation, with the tool it came from and the size of its result. */
  datatype Seen = Seen(toolName: string, bytes: nat, observation: Observation)

  datatype LlmEvent = SchemaFrozen(rebuilt: bool) | Generate | ReactiveCompact | Layer2Lookup

  /** One LLM turn: at which depth, on what, with which tools and messages last, and its calls in order. */
  datatype TurnRecord = TurnRecord(
    depth: nat,
    context: Context,
    messages: seq<Message>,
    visible: seq<string>,
    disallowed: seq<string>,
    rebuilt: bool,
    definitions: seq<ToolDefinition>,
    sent: seq<ToolDefinition>,
    events: seq<LlmEvent>)

  datatype ServiceKind = Denied | Searched | TaskTool | SubAgentCall | Executed

  datatype ServiceRecord = ServiceRecord(depth: nat, id: string, kind: ServiceKind)

  datatype Action = FinalAnswer | AskUser | Fail

  datatype Status = LoopRunning | AwaitingUser | Succeeded | Failed

  datatype State = State(
    goal: string,
    depth: nat,
    context: Context,
    stepIndex: nat,
    stepBudget: nat,
    recoveryBudget: nat,
    status: Status,
    schema: Schema,
    layer2Attempted: bool,
    lastObservation: Option<Seen>,
    journal: Journal,
    messages: seq<Message>,
    trace: seq<TurnRecord>,
    services: seq<ServiceRecord>,
    told: seq<Told>)

  datatype Outcome = Ended(action: Action, message: string) | TimedOut

  datatype RunEnd = RunEnd(state: State, outcome: Outcome)

  function SaturatingSub(a: nat, b: nat): nat {
    if a < b then 0 else a - b
  }

  /** `record_terminal_step`, and `record_ask_user_step`, which leaves the budget alone. */
  function RecordTerminal(s: State, action: Action, reason: Reason, outcome: StepOutcome): State {
    s.(stepIndex := s.stepIndex + 1,
       stepBudget := if action.AskUser? then s.stepBudget else SaturatingSub(s.stepBudget, 1),
       status := match action case FinalAnswer => Succeeded case Fail => Failed case AskUser => AwaitingUser,
       journal := Recorded(s.journal, Step(s.stepIndex + 1, None, reason, outcome)))
  }

  function End(s: State, action: Action, reason: Reason, message: string): RunEnd {
    RunEnd(RecordTerminal(s, action, reason, Concluded(message)), Ended(action, message))
  }

  // ---------- the LLM call with its retries ----------

  datatype AttemptState = AttemptState(messages: seq<Message>, layer2Attempted: bool, events: seq<LlmEvent>)

  datatype AttemptResult =
    | Reached(text: string, toolCalls: seq<ToolCall>)
    | GaveUp(reason: Reason, message: string)
    | AttemptTimedOut

  datatype AttemptEnd = AttemptEnd(state: AttemptState, result: AttemptResult)

  /** One outbound call; with a sender it is announced first. */
  function OneCall(cfg: Config, rebuilt: bool): seq<LlmEvent> {
    (if cfg.hasSender then [SchemaFrozen(rebuilt)] else []) + [Generate]
  }

  /** Mid-tier compaction before a first pass; Layer 2 is looked up once per run. */
  function MidTier(a: AttemptState, i: AttemptInput): AttemptState {
    if !i.overMidWater then a
    else
      AttemptState(if i.midCompacted.Some? then i.midCompacted.value else a.messages, true,
                   a.events + (if a.layer2Attempted then [] else [Layer2Lookup]))
  }

  /** Text and calls of an answer: from the stream if there is a sender, with the output as fallback text. */
  function AnswerOf(cfg: Config, c: Completion): (string, seq<ToolCall>) {
    if cfg.hasSender then
      var run := StreamDemux.Run(c.chunks);
      (if run.text == "" && c.output != "" then c.output else run.text, StreamDemux.Decoded(run.calls, cfg.decode))
    else (c.output, c.toolCalls)
  }

  /** A truncated answer is retried once when the provider can raise its output cap. */
  predicate Escalates(cfg: Config, c: Completion) {
    && (c.finishReason == Some("max_tokens") || c.finishReason == Some("length"))
    && c.supportsOutputCap && c.ceiling.Some? && c.ceiling.value > cfg.expectedOutputTokens
  }

  const CALL_FAILED: string := "LLM call failed"

  /** What one pass makes of its reply: how the attempt ends, or nothing yet and a compacted buffer. */
  function Pass(cfg: Config, i: AttemptInput, goal: string, called: AttemptState, reactiveUsed: bool, armed: bool)
    : (r: (AttemptState, Option<AttemptResult>))
    ensures reactiveUsed ==> r.1.Some?
  {
    if armed && i.callTimesOut then (called, Some(AttemptTimedOut))
    else
      match i.reply
      case Answered(c) =>
        var answer := AnswerOf(cfg, c);
        if !Escalates(cfg, c) then (called, Some(Reached(answer.0, answer.1)))
        else
          var retried := called.(events := called.events + OneCall(cfg, false));
          if armed && i.retryTimesOut then (retried, Some(AttemptTimedOut))
          else
            var final := if c.retry.Some? then c.retry.value else answer;
            (retried, Some(Reached(final.0, final.1)))
      case ContextExceeded(detail) =>
        if reactiveUsed then
          (called, Some(GaveUp(ContextLost,
                               CALL_FAILED + (": context window still exceeded after reactive compact (" + detail
                                              + "); goal: " + goal))))
        else
          var compacted := called.(messages := i.reactiveCompacted, events := called.events + [ReactiveCompact]);
          (compacted, if armed && i.compactionTimesOut then Some(AttemptTimedOut) else None)
      case CallFailed => (called, Some(GaveUp(CallLost, CALL_FAILED + (" for goal: " + goal))))
  }

  /** The reactive-retry loop: mid-tier compaction before a first pass, a second pass after one reactive compaction. */
  function Attempt(cfg: Config, t: TurnInput, goal: string, a: AttemptState, reactiveUsed: bool, rebuilt: bool,
                   armed: bool): AttemptEnd
    decreases !reactiveUsed
  {
    var i := if reactiveUsed then t.second else t.first;
    var before := if reactiveUsed then a else MidTier(a, i);
    var called := before.(events := before.events + OneCall(cfg, !reactiveUsed && rebuilt));
    var pass := Pass(cfg, i, goal, called, reactiveUsed, armed);
    if pass.1.Some? then AttemptEnd(pass.0, pass.1.value) else Attempt(cfg, t, goal, pass.0, true, rebuilt, armed)
  }

  // ---------- terminal pseudo-tools ----------

  function Field(arguments: Arguments, key: string, default: string): string {
    if key in arguments then arguments[key] else default
  }

  predicate IsTerminal(name: string) {
    name == "final_answer" || name == "ask_user" || name == "fail"
  }

  predicate IsAscii(s: string) {
    forall i :: 0 <= i < |s| ==> s[i] as int < 128
  }

  /** `ask_user_from_observation`: lists candidates in one of two languages, or repeats the observation's message. */
  function QuestionFrom(goal: string, o: Observation): string {
    if o.errorType != Some("multiple_candidates") then o.message
    else if !IsAscii(goal) then
      if o.matches == [] then "我找到了多个候选路径。请告诉我你想看哪一个更具体的路径。"
      else "我找到了多个候选路径：" + Join(o.matches, "、") + "。你想看哪一个？"
    else if o.matches == [] then "I found multiple candidate paths. Please tell me which one you want."
    else "I found multiple candidate paths: " + Join(o.matches, ", ") + ". Which one do you want?"
  }

  /** `effective_ask_user_payload`: once a tool has been observed, its observation replaces the model's question. */
  function Question(goal: string, last: Option<Seen>, proposed: string): string {
    if last.Some? then QuestionFrom(goal, last.value.observation) else proposed
  }

  /** The message of a `Read` over the limit: what is in the file, which its reader is not shown. */
  predicate IsLargeFile(toolName: string, bytes: nat, message: string) {
    toolName == "Read" && bytes > READ_LIMIT_BYTES && message != ""
  }

  /** A question repeats a large file if such a message is the last observation and it lists no candidates. */
  predicate RepeatsLargeFile(last: Option<Seen>) {
    && last.Some? && last.value.observation.errorType != Some("multiple_candidates")
    && IsLargeFile(last.value.toolName, last.value.bytes, last.value.observation.message)
  }

  function Ask(s: State, proposed: string): RunEnd {
    var question, large := Question(s.goal, s.lastObservation, proposed), RepeatsLargeFile(s.lastObservation);
    var asked := s.(told := s.told + [Asked(s.depth, Text(question, if large then Some(0) else None))]);
    RunEnd(RecordTerminal(asked, AskUser, AskUserCalled, AskedUser(question, large)), Ended(AskUser, question))
  }

  function Decide(s: State, call: ToolCall): (r: RunEnd)
    requires IsTerminal(call.name)
    ensures s.told <= r.state.told
  {
    if call.name == "final_answer" then
      End(s, FinalAnswer, FinalAnswerCalled, Field(call.arguments, "message", ""))
    else if call.name == "ask_user" then Ask(s, Field(call.arguments, "question", ""))
    else End(s, Fail, FailCalled, Field(call.arguments, "reason", "LLM reported failure."))
  }

  function FirstTerminal(calls: seq<ToolCall>): (k: Option<nat>)
    ensures k.Some? ==> k.value < |calls| && IsTerminal(calls[k.value].name)
    ensures k.Some? ==> forall i :: 0 <= i < k.value ==> !IsTerminal(calls[i].name)
    ensures k.None? ==> forall i :: 0 <= i < |calls| ==> !IsTerminal(calls[i].name)
  {
    if calls == [] then None
    else if IsTerminal(calls[0].name) then Some(0)
    else match FirstTerminal(calls[1..]) case None => None case Some(k) => Some(k + 1)
  }

  // ---------- serving calls ----------

  predicate IsTaskTool(name: string) {
    name == "task_create" || name == "task_update" || name == "task_list" || name == "task_get"
  }

  /** A call is answered by one tool result and leaves one service record. */
  function Answer(s: State, call: ToolCall, kind: ServiceKind, content: string, isError: bool): State {
    s.(messages := s.messages + [ToolResult(call.id, content, isError)],
       services := s.services + [ServiceRecord(s.depth, call.id, kind)])
  }

  function Charged(s: State): State {
    s.(stepBudget := SaturatingSub(s.stepBudget, 1))
  }

  function RecoveryAfter(budget: nat, o: Observation): nat {
    if o.ok || o.terminal || o.errorType == Some("multiple_candidates") || o.errorType == Some("needs_more_information")
    then budget else SaturatingSub(budget, 1)
  }

  const READ_LIMIT_BYTES := 100_000

  function ToolContent(call: ToolCall, v: Service): (string, bool) {
    if call.name == "Read" && v.contentBytes > READ_LIMIT_BYTES then
      ("Error: file content is too large (" + Json.Decimal(v.contentBytes)
       + " chars) to include in context. Re-read with a "
       + "smaller `max_bytes` parameter to retrieve a manageable portion of the file.", true)
    else if call.name == "Read" then (v.content, !v.observation.ok)
    else (v.shortened, !v.observation.ok)
  }

  function Warning(step: nat, recovery: nat): Message {
    UserMessage("System: step budget exhausted (remaining: " + Json.Decimal(step) + ", recovery: "
                + Json.Decimal(recovery)
                + "). Please call final_answer or fail now.")
  }

  /** `next_working_directory_from_observation`: inspecting a directory enters it. */
  function NextDirectory(toolName: string, o: Observation, current: string): string {
    if o.ok && toolName == "Inspect" && o.kind == Some("directory") && o.path.Some? && o.path.value != ""
    then o.path.value else current
  }

  function ToolStep(call: ToolCall, v: Service, step: nat): Step {
    var o := v.observation;
    Step(step, Some(call.name), ToolUse,
         ToolRan(o.ok, o.message, IsLargeFile(call.name, v.contentBytes, o.message)))
  }

  /** `interpret_observation` and `record_step`. */
  function Observed(s: State, call: ToolCall, v: Service, step: nat): State {
    Charged(s).(stepIndex := step,
                recoveryBudget := RecoveryAfter(s.recoveryBudget, v.observation),
                status := LoopRunning,
                context := s.context.(directory := NextDirectory(call.name, v.observation, s.context.directory)),
                lastObservation := Some(Seen(call.name, v.contentBytes, v.observation)),
                journal := Recorded(s.journal, ToolStep(call, v, step)))
  }

  /** A regular tool call: executed, interpreted and recorded as the turn's step. */
  function ServeTool(s: State, call: ToolCall, v: Service, step: nat): State {
    var recorded := Observed(s, call, v, step);
    var content := ToolContent(call, v);
    var answered := Answer(recorded, call, Executed, content.0, content.1);
    if recorded.stepBudget == 0 || (!v.observation.ok && !v.observation.terminal && recorded.recoveryBudget == 0)
    then answered.(messages := answered.messages + [Warning(recorded.stepBudget, recorded.recoveryBudget)])
    else answered
  }

  const MAX_SUB_AGENT_RESULT_CHARS := 4000

  function TruncateSubAgentResult(message: string): string {
    if |message| > MAX_SUB_AGENT_RESULT_CHARS then
      message[..MAX_SUB_AGENT_RESULT_CHARS] + "...\n[Sub-agent response truncated to "
      + Json.Decimal(MAX_SUB_AGENT_RESULT_CHARS) + " chars]"
    else message
  }

  datatype SubResult = SubResult(state: State, content: string, isError: bool)

  function SubBudget(cfg: Config, s: State): nat {
    if s.stepBudget < cfg.maxSubSteps then s.stepBudget else cfg.maxSubSteps
  }

  /** The context of a run that begins: its project instructions are read from where it is. */
  function Entered(c: Context): Context {
    c.(instructionsFrom := c.directory)
  }

  /** The state a sub-agent starts from: the parent's context, its own messages and budget, the records continued. */
  function SubState(cfg: Config, s: State, task: string): State {
    State(task, s.depth + 1, Entered(s.context), 0, SubBudget(cfg, s), cfg.initialRecoveryBudget, LoopRunning,
          Fresh(Drop(s.schema.visible, cfg.subDisallowed), cfg.subDisallowed), false, None, NOTHING_DONE,
          [UserMessage(task)], s.trace, s.services, s.told)
  }

  /** How many levels of sub-agents a state may still open. */
  function Nesting(depth: nat): nat {
    if depth == 0 then 1 else 0
  }

  /** What the parent's model is told of a sub-agent's end, and whether it is an error. */
  function SubReport(cfg: Config, o: Outcome): (string, bool) {
    match o
    case TimedOut => ("[Sub-agent error] Timed out after " + Json.Decimal(cfg.timeoutSecs) + " seconds.", true)
    case Ended(action, message) => (TruncateSubAgentResult(message), action.Fail?)
  }

  /** `execute_sub_agent`: refused below the top level and without a task; the budget is carved out first. */
  function SubAgent(cfg: Config, env: Adversary, arguments: Arguments, s: State): (r: SubResult)
    ensures r.state.depth == s.depth && r.state.stepBudget <= s.stepBudget && s.told <= r.state.told
    decreases Nesting(s.depth), s.stepBudget, 0, 0
  {
    var task := Trim(Field(arguments, "task", ""));
    if s.depth >= 1 then SubResult(s, "[Sub-agent error] Sub-agents cannot spawn further sub-agents.", true)
    else if task == "" then SubResult(s, "[Sub-agent error] No task provided.", true)
    else
      var end := Run(cfg, env, SubState(cfg, s, task), cfg.timeoutSecs > 0);
      var after := s.(stepBudget := s.stepBudget - SubBudget(cfg, s),
                      trace := end.state.trace, services := end.state.services,
                      told := end.state.told);
      var report := SubReport(cfg, end.outcome);
      SubResult(after, report.0, report.1)
  }

  /** One requested call, by the first of the five paths that takes it. */
  function Serve(cfg: Config, env: Adversary, call: ToolCall, v: Service, step: nat, s: State): (r: State)
    ensures r.depth == s.depth && r.stepBudget <= SaturatingSub(s.stepBudget, 1) && s.told <= r.told
    decreases Nesting(s.depth), s.stepBudget, 1, 0
  {
    if cfg.hasGate && v.denial.Some? then Answer(Charged(s), call, Denied, "[Tool denied] " + v.denial.value, true)
    else if call.name == TOOL_SEARCH then
      var name := Field(call.arguments, "tool_name", "");
      Answer(Charged(s).(schema := Search(s.schema, name)), call, Searched, SearchAnswer(s.schema, name), false)
    else if IsTaskTool(call.name) then Answer(Charged(s), call, TaskTool, v.taskAnswer, "Error:" <= v.taskAnswer)
    else if call.name == "Agent" then
      var sub := SubAgent(cfg, env, call.arguments, Charged(s));
      Answer(sub.state, call, SubAgentCall, sub.content, sub.isError)
    else ServeTool(s, call, v, step)
  }

  function ServiceOf(t: TurnInput, calls: seq<ToolCall>, i: nat): Service
    requires i < |calls|
  {
    t.services(i, calls[i].name)
  }

  /** The calls of a turn from the `i`-th on, in request order. */
  function ServeAll(cfg: Config, env: Adversary, t: TurnInput, calls: seq<ToolCall>, i: nat, step: nat, s: State)
    : (r: State)
    requires i <= |calls|
    ensures r.depth == s.depth && r.stepBudget <= s.stepBudget && s.told <= r.told
    ensures i < |calls| ==> r.stepBudget <= SaturatingSub(s.stepBudget, 1)
    decreases Nesting(s.depth), s.stepBudget, 2, |calls| - i
  {
    if i == |calls| then s
    else ServeAll(cfg, env, t, calls, i + 1, step, Serve(cfg, env, calls[i], ServiceOf(t, calls, i), step, s))
  }

  // ---------- the start of a run ----------

  /** A request that a loop takes up: the turns of its session, its text, and what long-term memory recalls for it. */
  datatype Intake = Intake(history: seq<Turn>, input: string, recall: string)

  /** The state of a loop that begins with a request; its project instructions are read where it starts. */
  function Begin(cfg: Config, i: Intake, directory: string, candidates: seq<string>, resources: seq<string>,
                 stepBudget: nat): State {
    State(i.input, 0, Context(directory, directory, candidates, resources, Sections(i.history, i.recall, "")), 0,
          stepBudget, cfg.initialRecoveryBudget, LoopRunning, Fresh(cfg.available(candidates), []), false, None,
          NOTHING_DONE, InitialMessages(i.history, i.input), [], [], [])
  }

  // ---------- turns ----------

  function PrepareTurn(cfg: Config, t: TurnInput, s: State): Prepared {
    Prepare(cfg.inventory, s.schema, t.planMode, cfg.available(s.context.candidateTools))
  }

  /** The LLM phase of a turn, from microcompaction to the last retry. */
  function CallModel(cfg: Config, t: TurnInput, s: State, armed: bool): AttemptEnd {
    var start := AttemptState(if t.microcompacted.Some? then t.microcompacted.value else s.messages,
                              s.layer2Attempted, []);
    Attempt(cfg, t, s.goal, start, false, PrepareTurn(cfg, t, s).rebuilt, armed)
  }

  /** The history folded by a compaction, if there was one. */
  function Fold(cfg: Config, s: State, c: Option<Compaction>): (r: State)
    ensures r.(journal := s.journal, told := s.told) == s && s.told <= r.told
  {
    if c.None? then s
    else
      s.(journal := Folded(s.journal, c.value, s.stepIndex, cfg.retainTailSteps, cfg.workingSummaryMaxBytes),
         told := s.told + ToldBy(s.journal, c.value, cfg.retainTailSteps))
  }

  /** The compaction of an LLM phase that made one. */
  function ReactiveFold(t: TurnInput, events: seq<LlmEvent>): Option<Compaction> {
    if ReactiveCompact in events then Some(t.first.reactiveFold) else None
  }

  /** The state after the LLM phase: one more turn in the trace. */
  function AfterModel(cfg: Config, t: TurnInput, s: State, armed: bool): (r: State)
    ensures r.depth == s.depth && r.stepBudget == s.stepBudget && s.told <= r.told
  {
    var p, a := PrepareTurn(cfg, t, s), CallModel(cfg, t, s, armed).state;
    var folded := Fold(cfg, s, ReactiveFold(t, a.events));
    folded.(schema := p.schema, layer2Attempted := a.layer2Attempted, messages := a.messages,
       trace := s.trace + [TurnRecord(s.depth, s.context, a.messages, p.schema.visible, p.schema.disallowed,
                                      p.rebuilt, p.definitions, p.sent, a.events)])
  }

  function WithAssistant(s: State, text: string, calls: seq<ToolCall>): State {
    s.(messages := s.messages + [AssistantMessage(text, calls)])
  }

  /** The state after all calls of a continuing turn, before compaction at its end. */
  function AfterCalls(cfg: Config, env: Adversary, t: TurnInput, s: State, armed: bool, text: string,
                      calls: seq<ToolCall>): (r: State)
    requires calls != []
    ensures r.depth == s.depth && r.stepBudget <= SaturatingSub(s.stepBudget, 1) && s.told <= r.told
    decreases Nesting(s.depth), s.stepBudget, 3, 0
  {
    ServeAll(cfg, env, t, calls, 0, s.stepIndex + 1, WithAssistant(AfterModel(cfg, t, s, armed), text, calls))
  }

  /** Compaction at the end of a turn. */
  function Compact(cfg: Config, t: TurnInput, s: State): (r: State)
    ensures r.(messages := s.messages, journal := s.journal, told := s.told) == s && s.told <= r.told
  {
    Fold(cfg, s, t.fold).(messages := if t.compacted.Some? then t.compacted.value else s.messages)
  }

  /** `execute_tool_loop` from a prepared message buffer; `armed` says whether a sub-agent timer runs. */
  function Run(cfg: Config, env: Adversary, s: State, armed: bool): (r: RunEnd)
    ensures s.told <= r.state.told
    decreases Nesting(s.depth), s.stepBudget, 4, 0
  {
    var t := env(|s.trace|);
    if s.stepBudget == 0 then
      End(s.(schema := PrepareTurn(cfg, t, s).schema), Fail, BudgetSpent,
          "Step budget exhausted after " + Json.Decimal(s.stepIndex) + " steps; goal: " + s.goal)
    else
      var reached := AfterModel(cfg, t, s, armed);
      match CallModel(cfg, t, s, armed).result
      case AttemptTimedOut => RunEnd(reached, TimedOut)
      case GaveUp(reason, message) => End(reached, Fail, reason, message)
      case Reached(text, calls) =>
        var answered := WithAssistant(reached, text, calls);
        if calls == [] then
          End(answered, FinalAnswer, TextOnly,
              if text == "" then "Runtime loop completed." else text)
        else
          match FirstTerminal(calls)
          case Some(k) => Decide(answered, calls[k])
          case None =>
            var next := Compact(cfg, t, AfterCalls(cfg, env, t, s, armed, text, calls));
            if armed && t.compactionTimesOut then RunEnd(next, TimedOut) else Run(cfg, env, next, armed)
  }

  /** Without a router the loop echoes its input as the final answer. */
  function Execute(cfg: Config, env: Adversary, hasRouter: bool, s: State, input: string): RunEnd {
    if hasRouter then Run(cfg, env, s, false)
    else End(s, FinalAnswer, NoRouter, input)
  }
}
