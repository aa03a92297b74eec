/**
 The tool loop as the runtime executes it: a mutable loop state, a message buffer and loops over
 retries, calls and turns. Every method is proved equal to the function of the state it stands for.
 */
module ToolLoopRuntime {
  import opened Prelude
  import Json
  import opened SessionLog
  import opened Messages
  import StreamDemux
  import opened ToolSchema
  import opened WorkingMemory
  import opened ToolLoop
  import opened ToolLoopProofs
  import ToolLoopRuns

  class LoopState {
    const goal: string
    const subAgentDepth: nat
    var context: Context
    var stepIndex: nat
    var remainingStepBudget: nat
    var remainingRecoveryBudget: nat
    var status: Status
    var visibleTools: seq<string>
    var disallowedTools: seq<string>
    var frozenToolSchema: Option<seq<ToolDefinition>>
    var toolSchemaDirty: bool
    var observedPlanMode: Option<bool>
    var deferredTools: Option<Deferred>
    var layer2Attempted: bool
    var lastObservation: Option<Seen>
    var history: seq<Step>
    var workingSummary: Text
    /** What was done so far, by the loop and its sub-agents: LLM turns, served calls and what was told. */
    var trace: seq<TurnRecord>
    var services: seq<ServiceRecord>
    var told: seq<Told>

    function SchemaView(): Schema
      reads this
    {
      Schema(visibleTools, disallowedTools, frozenToolSchema, toolSchemaDirty, observedPlanMode, deferredTools)
    }

    /** The step history with its summary, and what was told of it. */
    function Memo(): (Journal, seq<Told>)
      reads this
    {
      (Journal(history, workingSummary), told)
    }

    /** The state the specification speaks of; the message buffer is not part of this object. */
    function View(messages: seq<Message>): State
      reads this
    {
      State(goal, subAgentDepth, context, stepIndex, remainingStepBudget, remainingRecoveryBudget, status,
            SchemaView(), layer2Attempted, lastObservation, Journal(history, workingSummary), messages, trace, services,
            told)
    }

    constructor (goal: string, depth: nat, context: Context, visible: seq<string>, disallowed: seq<string>,
                 stepBudget: nat, recoveryBudget: nat, trace: seq<TurnRecord>, services: seq<ServiceRecord>,
                 told: seq<Told>)
      ensures forall ms ::
                View(ms) == State(goal, depth, context, 0, stepBudget, recoveryBudget, LoopRunning,
                                  Fresh(visible, disallowed), false, None, NOTHING_DONE, ms, trace, services, told)
    {
      this.goal, this.subAgentDepth, this.context := goal, depth, context;
      this.stepIndex, this.remainingStepBudget, this.remainingRecoveryBudget := 0, stepBudget, recoveryBudget;
      this.status := LoopRunning;
      this.visibleTools, this.disallowedTools := visible, disallowed;
      this.frozenToolSchema, this.toolSchemaDirty, this.observedPlanMode, this.deferredTools := None, true, None, None;
      this.layer2Attempted, this.lastObservation := false, None;
      this.history, this.workingSummary := [], Plain("");
      this.trace, this.services, this.told := trace, services, told;
    }

    method MarkToolSchemaDirty()
      modifies `toolSchemaDirty
      ensures toolSchemaDirty
    {
      toolSchemaDirty := true;
    }

    /** `freeze_or_reuse_tool_schema`: a clean snapshot is reused, anything else is replaced. */
    method FreezeOrReuseToolSchema(built: seq<ToolDefinition>) returns (definitions: seq<ToolDefinition>)
      modifies `frozenToolSchema, `toolSchemaDirty
      ensures SchemaView() == Freeze(old(SchemaView()), built)
      ensures frozenToolSchema == Some(definitions)
    {
      if !toolSchemaDirty && frozenToolSchema.Some? {
        return frozenToolSchema.value;
      }
      frozenToolSchema := Some(built);
      toolSchemaDirty := false;
      definitions := built;
    }

    /** `refresh_tool_loop_visible_tools`. */
    method RefreshVisibleTools(inv: Inventory, planMode: bool, candidates: seq<string>)
      modifies `visibleTools, `disallowedTools, `toolSchemaDirty, `observedPlanMode
      ensures SchemaView() == Refresh(inv, old(SchemaView()), planMode, candidates)
    {
      hide Keep, Drop;
      if observedPlanMode.Some? && observedPlanMode.value != planMode {
        MarkToolSchemaDirty();
      }
      observedPlanMode := Some(planMode);
      var visible := candidates;
      if planMode {
        visible := RetainReadOnly(visible, inv.readOnly);
        Block(TASK_CREATE);
        Block(TASK_UPDATE);
      }
      if disallowedTools != [] {
        visible := RetainAllowed(visible, disallowedTools);
      } else {
        NothingDropped(visible);
      }
      if visibleTools != visible {
        MarkToolSchemaDirty();
      }
      visibleTools := visible;
    }

    method Block(name: string)
      modifies `disallowedTools, `toolSchemaDirty
      ensures SchemaView() == ToolSchema.Block(old(SchemaView()), name)
    {
      if name !in disallowedTools {
        disallowedTools := disallowedTools + [name];
        MarkToolSchemaDirty();
      }
    }

    /** `apply_deferred_mode`. */
    method ApplyDeferredMode(inv: Inventory, definitions: seq<ToolDefinition>) returns (sent: seq<ToolDefinition>)
      modifies `deferredTools
      ensures SchemaView() == Defer(inv, old(SchemaView()), definitions)
      ensures sent == Sent(inv, old(SchemaView()), definitions)
    {
      hide CORE_TOOLS, SearchTool, TotalWeight, Loaded, Withheld;
      var total := TotalWeightOf(inv, definitions);
      if total <= inv.threshold {
        if deferredTools.Some? {
          deferredTools := Some(deferredTools.value.(deferredNames := []));
        }
        return definitions;
      }
      var loaded := if deferredTools.Some? then deferredTools.value.loadedNames else [];
      var withheld: seq<string>;
      sent, withheld := SplitDefinitions(definitions, loaded);
      deferredTools := Some(Deferred(withheld, loaded));
      if withheld != [] {
        sent := sent + [SearchTool(withheld)];
      }
    }

    /** `record_terminal_step` and `record_ask_user_step`. */
    method RecordTerminalStep(action: Action, reason: Reason, outcome: StepOutcome)
      modifies `stepIndex, `remainingStepBudget, `status, `history
      ensures forall ms :: View(ms) == RecordTerminal(old(View(ms)), action, reason, outcome)
    {
      history := history + [Step(stepIndex + 1, None, reason, outcome)];
      stepIndex := stepIndex + 1;
      match action {
        case FinalAnswer =>
          status := Succeeded;
          Charge();
        case Fail =>
          status := Failed;
          Charge();
        case AskUser =>
          status := AwaitingUser;
      }
    }

    method Charge()
      modifies `remainingStepBudget
      ensures remainingStepBudget == SaturatingSub(old(remainingStepBudget), 1)
    {
      remainingStepBudget := if remainingStepBudget == 0 then 0 else remainingStepBudget - 1;
    }
  }

  // ---------- list loops ----------

  method RetainReadOnly(names: seq<string>, readOnly: set<string>) returns (kept: seq<string>)
    ensures kept == Keep(names, readOnly)
  {
    kept := [];
    for i := 0 to |names|
      invariant kept == Keep(names[..i], readOnly)
    {
      assert names[..i + 1][..i] == names[..i];
      if names[i] in readOnly {
        kept := kept + [names[i]];
      }
    }
    assert names[..|names|] == names;
  }

  method RetainAllowed(names: seq<string>, disallowed: seq<string>) returns (kept: seq<string>)
    ensures kept == Drop(names, disallowed)
  {
    kept := [];
    for i := 0 to |names|
      invariant kept == Drop(names[..i], disallowed)
    {
      assert names[..i + 1][..i] == names[..i];
      if names[i] !in disallowed {
        kept := kept + [names[i]];
      }
    }
    assert names[..|names|] == names;
  }

  lemma {:induction false} NothingDropped(names: seq<string>)
    ensures Drop(names, []) == names
  {
    if names != [] {
      NothingDropped(names[..|names| - 1]);
    }
  }

  method TotalWeightOf(inv: Inventory, definitions: seq<ToolDefinition>) returns (total: nat)
    ensures total == TotalWeight(inv, definitions)
  {
    total := 0;
    for i := 0 to |definitions|
      invariant total == TotalWeight(inv, definitions[..i])
    {
      assert definitions[..i + 1][..i] == definitions[..i];
      total := total + inv.weight(definitions[i]);
    }
    assert definitions[..|definitions|] == definitions;
  }

  method SplitDefinitions(definitions: seq<ToolDefinition>, loaded: seq<string>)
    returns (sent: seq<ToolDefinition>, withheld: seq<string>)
    ensures sent == Loaded(definitions, loaded) && withheld == Withheld(definitions, loaded)
  {
    hide CORE_TOOLS;
    sent, withheld := [], [];
    for i := 0 to |definitions|
      invariant sent == Loaded(definitions[..i], loaded) && withheld == Withheld(definitions[..i], loaded)
    {
      assert definitions[..i + 1][..i] == definitions[..i];
      var d := definitions[i];
      if d.name in CORE_TOOLS || d.name in loaded {
        sent := sent + [d];
      } else {
        withheld := withheld + [d.name];
      }
    }
    assert definitions[..|definitions|] == definitions;
  }

  // ---------- compaction of the step history ----------

  function FoldedMemo(cfg: Config, memo: (Journal, seq<Told>), index: nat, c: Option<Compaction>)
    : (Journal, seq<Told>)
  {
    if c.None? then memo
    else
      (Folded(memo.0, c.value, index, cfg.retainTailSteps, cfg.workingSummaryMaxBytes),
       memo.1 + ToldBy(memo.0, c.value, cfg.retainTailSteps))
  }

  /** `summarize_discarded_steps`. */
  method SummarizeDiscardedSteps(steps: seq<Step>) returns (summary: Text)
    ensures summary == Digest(steps)
  {
    hide StepLine, Joined, Json.Decimal;
    var lines := Plain("");
    for i := 0 to |steps|
      invariant lines == StepLines(steps[..i])
    {
      assert steps[..i + 1][..i] == steps[..i];
      lines := Joined(lines, StepLine(steps[i]));
    }
    assert steps[..|steps|] == steps;
    summary := Joined(Plain("[Compact summary — " + Json.Decimal(|steps|) + " steps discarded]"), lines);
  }

  /** What the summarizer's prompt says of the discarded steps. */
  method ShowSteps(steps: seq<Step>) returns (shown: seq<Told>)
    ensures shown == ShownSteps(steps)
  {
    hide OutcomeText, Shorten, ReasonText;
    shown := [];
    for i := 0 to |steps|
      invariant shown == ShownSteps(steps[..i])
    {
      assert steps[..i + 1][..i] == steps[..i];
      var step := steps[i];
      shown := shown + [Shown(step.index, ToolNameOf(step), Shorten(ReasonText(step.reason), 100),
                              OutcomeText(step.outcome, 150))];
    }
    assert steps[..|steps|] == steps;
  }

  /** `compact_history`, or `compact_history_with_llm` if the summarizer is asked. */
  method CompactHistory(cfg: Config, ls: LoopState, c: Compaction)
    modifies ls`history, ls`workingSummary, ls`told
    ensures var j := old(ls.Memo().0);
            && ls.Memo().0 == HistoryCompacted(j, c, ls.stepIndex, cfg.retainTailSteps, cfg.workingSummaryMaxBytes)
            && ls.told == old(ls.told) + ToldBy(j, c, cfg.retainTailSteps)
  {
    hide Digest, ShownSteps, Capped, Joined, Trim;
    if |ls.history| <= cfg.retainTailSteps {
      NoSteps();
      return;
    }
    var split := |ls.history| - cfg.retainTailSteps;
    var discarded := ls.history[..split];
    var summary: Text;
    if !c.summarizer.NotAsked? {
      var shown := ShowSteps(discarded);
      ls.told := ls.told + shown;
    }
    if c.summarizer.Summary? && Trim(c.summarizer.text) != "" {
      summary := Plain(c.summarizer.text);
    } else {
      summary := SummarizeDiscardedSteps(discarded);
    }
    ls.history := [Boundary(ls.stepIndex, split)] + ls.history[split..];
    if ls.workingSummary.chars != "" {
      summary := Joined(Joined(summary, Plain("\n\n")), ls.workingSummary);
    }
    ls.workingSummary := Capped(summary, cfg.workingSummaryMaxBytes);
  }

  lemma NoSteps()
    ensures ShownSteps([]) == []
  {
  }

  /** `run_compaction`, but for the messages. */
  method RunCompaction(cfg: Config, ls: LoopState, c: Compaction)
    modifies ls`history, ls`workingSummary, ls`told
    ensures ls.Memo() == FoldedMemo(cfg, old(ls.Memo()), ls.stepIndex, Some(c))
  {
    hide HistoryCompacted, ToldBy;
    CompactHistory(cfg, ls, c);
    if c.ofMessages.Some? && ls.workingSummary.chars == "" {
      ls.history := [Boundary(ls.stepIndex, c.ofMessages.value.0)] + ls.history;
      ls.workingSummary := Plain(c.ofMessages.value.1);
    }
  }

  // ---------- the LLM call with its retries ----------

  /** The mid-tier compaction before a first pass. */
  method MidTierPass(i: AttemptInput, ls: LoopState, messages: seq<Message>, before: seq<LlmEvent>)
    returns (sent: seq<Message>, events: seq<LlmEvent>)
    modifies ls`layer2Attempted
    ensures AttemptState(sent, ls.layer2Attempted, events) ==
            MidTier(AttemptState(messages, old(ls.layer2Attempted), before), i)
  {
    sent, events := messages, before;
    if i.overMidWater {
      if !ls.layer2Attempted {
        events := events + [Layer2Lookup];
        ls.layer2Attempted := true;
      }
      if i.midCompacted.Some? {
        sent := i.midCompacted.value;
      }
    }
  }

  /** Text and calls of an answer: accumulated from the stream if there is a sender. */
  method ReceiveAnswer(cfg: Config, c: Completion) returns (text: string, calls: seq<ToolCall>)
    ensures (text, calls) == AnswerOf(cfg, c)
  {
    hide StreamDemux.Run, StreamDemux.Decoded;
    text, calls := c.output, c.toolCalls;
    if cfg.hasSender {
      text, calls := StreamDemux.Accumulate(c.chunks, cfg.decode);
      if text == "" && c.output != "" {
        text := c.output;
      }
    }
  }

  /** A pass ends in the one reactive compaction of its turn. */
  predicate Compacts(i: AttemptInput, reactiveUsed: bool, armed: bool) {
    !(armed && i.callTimesOut) && i.reply.ContextExceeded? && !reactiveUsed
  }

  /** What a pass makes of its reply; the output-slot retry is made here, at most once. */
  method ReadReply(cfg: Config, i: AttemptInput, ls: LoopState, messages: seq<Message>, before: seq<LlmEvent>,
                   reactiveUsed: bool, armed: bool)
    returns (sent: seq<Message>, events: seq<LlmEvent>, result: Option<AttemptResult>)
    modifies ls`history, ls`workingSummary, ls`told
    ensures (AttemptState(sent, ls.layer2Attempted, events), result) ==
            Pass(cfg, i, ls.goal, AttemptState(messages, ls.layer2Attempted, before), reactiveUsed, armed)
    ensures ReactiveCompact in events <==> ReactiveCompact in before || Compacts(i, reactiveUsed, armed)
    ensures result.None? ==> Compacts(i, reactiveUsed, armed)
    ensures ls.Memo() == FoldedMemo(cfg, old(ls.Memo()), ls.stepIndex,
                                    if Compacts(i, reactiveUsed, armed) then Some(i.reactiveFold) else None)
  {
    hide AnswerOf, Escalates, Folded, ToldBy;
    sent, events := messages, before;
    if armed && i.callTimesOut {
      return sent, events, Some(AttemptTimedOut);
    }
    match i.reply {
      case Answered(c) =>
        var text, calls := ReceiveAnswer(cfg, c);
        if Escalates(cfg, c) {
          events := events + OneCall(cfg, false);
          if armed && i.retryTimesOut {
            return sent, events, Some(AttemptTimedOut);
          }
          if c.retry.Some? {
            text, calls := c.retry.value.0, c.retry.value.1;
          }
        }
        result := Some(Reached(text, calls));
      case ContextExceeded(detail) =>
        if reactiveUsed {
          return sent, events,
                 Some(GaveUp(ContextLost,
                             CALL_FAILED + (": context window still exceeded after reactive compact (" + detail
                                            + "); goal: " + ls.goal)));
        }
        RunCompaction(cfg, ls, i.reactiveFold);
        sent := i.reactiveCompacted;
        events := events + [ReactiveCompact];
        result := if armed && i.compactionTimesOut then Some(AttemptTimedOut) else None;
      case CallFailed =>
        result := Some(GaveUp(CallLost, CALL_FAILED + (" for goal: " + ls.goal)));
    }
  }

  /**
   The reactive-retry loop. A flag remembers whether this turn has announced its schema yet, another
   whether its one reactive compaction has been used.
   */
  method CallWithRetries(cfg: Config, t: TurnInput, ls: LoopState, messages: seq<Message>, rebuilt: bool, armed: bool)
    returns (sent: seq<Message>, events: seq<LlmEvent>, result: AttemptResult)
    modifies ls`layer2Attempted, ls`history, ls`workingSummary, ls`told
    ensures AttemptEnd(AttemptState(sent, ls.layer2Attempted, events), result) ==
            Attempt(cfg, t, ls.goal, AttemptState(messages, old(ls.layer2Attempted), []), false, rebuilt, armed)
    ensures ls.Memo() == FoldedMemo(cfg, old(ls.Memo()), ls.stepIndex, ReactiveFold(t, events))
  {
    hide Pass, Folded, ToldBy;
    sent, events := messages, [];
    ghost var whole := Attempt(cfg, t, ls.goal, AttemptState(messages, ls.layer2Attempted, []), false, rebuilt, armed);
    var frozenEmitted, reactiveUsed := false, false;
    while true
      invariant frozenEmitted == reactiveUsed
      invariant whole == Attempt(cfg, t, ls.goal, AttemptState(sent, ls.layer2Attempted, events), reactiveUsed,
                                 rebuilt, armed)
      invariant reactiveUsed <==> ReactiveCompact in events
      invariant ls.Memo() == FoldedMemo(cfg, old(ls.Memo()), ls.stepIndex,
                                        if reactiveUsed then Some(t.first.reactiveFold) else None)
      decreases !reactiveUsed
    {
      var i := if reactiveUsed then t.second else t.first;
      if !reactiveUsed {
        sent, events := MidTierPass(i, ls, sent, events);
      }
      events := events + OneCall(cfg, !frozenEmitted && rebuilt);
      frozenEmitted := true;
      var end: Option<AttemptResult>;
      sent, events, end := ReadReply(cfg, i, ls, sent, events, reactiveUsed, armed);
      if end.Some? {
        return sent, events, end.value;
      }
      reactiveUsed := true;
    }
  }

  // ---------- serving calls ----------

  /** One tool result goes to the messages, one entry to the records. */
  method Respond(ls: LoopState, messages: seq<Message>, call: ToolCall, kind: ServiceKind, content: string,
                 isError: bool)
    returns (appended: seq<Message>)
    modifies ls`services
    ensures ls.View(appended) == Answer(old(ls.View(messages)), call, kind, content, isError)
  {
    appended := messages + [ToolResult(call.id, content, isError)];
    ls.services := ls.services + [ServiceRecord(ls.subAgentDepth, call.id, kind)];
  }

  /** The `tool_search` pseudo-tool. */
  method SearchTools(ls: LoopState, name: string) returns (answer: string)
    modifies ls`deferredTools, ls`toolSchemaDirty
    ensures ls.SchemaView() == Search(old(ls.SchemaView()), name)
    ensures answer == SearchAnswer(old(ls.SchemaView()), name)
  {
    if ls.deferredTools.None? {
      return "All tools are already loaded. '" + name + "' is available.";
    }
    var deferred := ls.deferredTools.value;
    if name !in deferred.deferredNames {
      return "Tool '" + name + "' is not in the deferred list. Available deferred tools: "
          + Join(deferred.deferredNames, ", ");
    }
    if name !in deferred.loadedNames {
      ls.deferredTools := Some(deferred.(loadedNames := deferred.loadedNames + [name]));
      ls.MarkToolSchemaDirty();
    }
    answer := "Tool '" + name + "' schema will be available in the next turn.";
  }

  /** A directory that was inspected becomes the working directory. */
  method FollowDirectory(ls: LoopState, toolName: string, o: Observation)
    modifies ls`context
    ensures ls.context == old(ls.context).(directory := NextDirectory(toolName, o, old(ls.context.directory)))
  {
    if o.ok && toolName == "Inspect" && o.kind == Some("directory") {
      if o.path.Some? && o.path.value != "" {
        ls.context := ls.context.(directory := o.path.value);
      }
    }
  }

  /** `interpret_observation` and `record_step`. */
  method RecordStep(ls: LoopState, call: ToolCall, v: Service, step: nat, ghost messages: seq<Message>)
    modifies ls`stepIndex, ls`remainingStepBudget, ls`remainingRecoveryBudget, ls`status, ls`context,
             ls`lastObservation, ls`history
    ensures ls.View(messages) == Observed(old(ls.View(messages)), call, v, step)
  {
    hide RecoveryAfter, NextDirectory, ToolStep;
    ls.Charge();
    ls.stepIndex, ls.status := step, LoopRunning;
    ls.remainingRecoveryBudget := RecoveryAfter(ls.remainingRecoveryBudget, v.observation);
    FollowDirectory(ls, call.name, v.observation);
    ls.lastObservation := Some(Seen(call.name, v.contentBytes, v.observation));
    ls.history := ls.history + [ToolStep(call, v, step)];
  }

  /** A regular call: its observation is interpreted, the step recorded, its result appended. */
  method RunTool(ls: LoopState, call: ToolCall, v: Service, step: nat, messages: seq<Message>)
    returns (appended: seq<Message>)
    modifies ls`stepIndex, ls`remainingStepBudget, ls`remainingRecoveryBudget, ls`status, ls`context,
             ls`lastObservation, ls`history, ls`services
    ensures ls.View(appended) == ServeTool(old(ls.View(messages)), call, v, step)
  {
    hide ToolContent, Warning, Observed, Answer;
    RecordStep(ls, call, v, step, messages);
    ghost var recorded := ls.View(messages);
    var content := ToolContent(call, v);
    appended := Respond(ls, messages, call, Executed, content.0, content.1);
    assert recorded.stepBudget == ls.remainingStepBudget && recorded.recoveryBudget == ls.remainingRecoveryBudget;
    if ls.remainingStepBudget == 0
       || (!v.observation.ok && !v.observation.terminal && ls.remainingRecoveryBudget == 0) {
      appended := appended + [Warning(ls.remainingStepBudget, ls.remainingRecoveryBudget)];
    }
  }

  /** The budget leaves the parent first; the sub-agent starts from its own task and fresh flags. */
  method SpawnSubAgent(cfg: Config, ls: LoopState, task: string, ghost messages: seq<Message>) returns (sub: LoopState)
    modifies ls`remainingStepBudget
    ensures fresh(sub) && sub.View(InitialMessages([], task)) == SubState(cfg, old(ls.View(messages)), task)
    ensures sub.goal == task && sub.subAgentDepth == ls.subAgentDepth + 1
    ensures ls.remainingStepBudget == old(ls.remainingStepBudget) - SubBudget(cfg, old(ls.View(messages)))
  {
    hide Drop;
    var budget := if ls.remainingStepBudget < cfg.maxSubSteps then ls.remainingStepBudget else cfg.maxSubSteps;
    ls.remainingStepBudget := ls.remainingStepBudget - budget;
    var visible := RetainAllowed(ls.visibleTools, cfg.subDisallowed);
    sub := new LoopState(task, ls.subAgentDepth + 1, Entered(ls.context), visible, cfg.subDisallowed, budget,
                         cfg.initialRecoveryBudget, ls.trace, ls.services, ls.told);
    assert InitialMessages([], task) == [UserMessage(task)];
  }

  /** What the parent's model is told of a sub-agent's end. */
  method ReportOf(cfg: Config, outcome: Outcome) returns (content: string, isError: bool)
    ensures (content, isError) == SubReport(cfg, outcome)
  {
    match outcome {
      case TimedOut =>
        content, isError := "[Sub-agent error] Timed out after " + Json.Decimal(cfg.timeoutSecs) + " seconds.", true;
      case Ended(action, message) =>
        content, isError := TruncateSubAgentResult(message), action.Fail?;
    }
  }

  /** A sub-agent with a task: it is run to its end, and its records are taken over. */
  method RunSubAgent(cfg: Config, env: Adversary, task: string, ls: LoopState, ghost messages: seq<Message>)
    returns (content: string, isError: bool)
    requires ls.subAgentDepth == 0
    modifies ls
    ensures var s := old(ls.View(messages));
            var end := Run(cfg, env, SubState(cfg, s, task), cfg.timeoutSecs > 0);
            && (content, isError) == SubReport(cfg, end.outcome)
            && ls.View(messages) == s.(stepBudget := s.stepBudget - SubBudget(cfg, s), trace := end.state.trace,
                                       services := end.state.services, told := end.state.told)
    decreases Nesting(ls.subAgentDepth), ls.remainingStepBudget, 0
  {
    hide Run, SubReport, SubState, SubBudget, InitialMessages, Sound, Pays, Unpaid;
    ghost var s := ls.View(messages);
    var sub := SpawnSubAgent(cfg, ls, task, messages);
    ghost var parent := ls.View(messages);
    var subMessages, outcome := ExecuteToolLoop(cfg, env, true, [], None, sub, cfg.timeoutSecs > 0);
    ghost var end := sub.View(subMessages);
    assert ls.View(messages) == parent;
    ls.trace, ls.services, ls.told := sub.trace, sub.services, sub.told;
    assert ls.trace == end.trace && ls.services == end.services && ls.told == end.told;
    content, isError := ReportOf(cfg, outcome);
  }

  /** `execute_sub_agent`. */
  method ExecuteSubAgent(cfg: Config, env: Adversary, arguments: Arguments, ls: LoopState, ghost messages: seq<Message>)
    returns (content: string, isError: bool)
    modifies ls
    ensures SubResult(ls.View(messages), content, isError) == SubAgent(cfg, env, arguments, old(ls.View(messages)))
    decreases Nesting(ls.subAgentDepth), ls.remainingStepBudget, 1
  {
    hide Run, Trim, Field, SubReport, SubState, SubAgent;
    SubAgentReports(cfg, env, arguments, ls.View(messages));
    if ls.subAgentDepth >= 1 {
      return "[Sub-agent error] Sub-agents cannot spawn further sub-agents.", true;
    }
    var task := Trim(Field(arguments, "task", ""));
    if task == "" {
      return "[Sub-agent error] No task provided.", true;
    }
    content, isError := RunSubAgent(cfg, env, task, ls, messages);
  }

  /** One requested call: the gate, then `tool_search`, the task tools, `Agent`, and regular tools. */
  method ServeCall(cfg: Config, env: Adversary, ls: LoopState, call: ToolCall, v: Service, step: nat,
                   messages: seq<Message>)
    returns (appended: seq<Message>)
    modifies ls
    ensures ls.View(appended) == Serve(cfg, env, call, v, step, old(ls.View(messages)))
    decreases Nesting(ls.subAgentDepth), ls.remainingStepBudget, 2
  {
    hide SubAgent, Search, SearchAnswer, Answer, ServeTool;
    if cfg.hasGate && v.denial.Some? {
      ls.Charge();
      appended := Respond(ls, messages, call, Denied, "[Tool denied] " + v.denial.value, true);
    } else if call.name == TOOL_SEARCH {
      ls.Charge();
      var answer := SearchTools(ls, Field(call.arguments, "tool_name", ""));
      appended := Respond(ls, messages, call, Searched, answer, false);
    } else if IsTaskTool(call.name) {
      ls.Charge();
      appended := Respond(ls, messages, call, TaskTool, v.taskAnswer, "Error:" <= v.taskAnswer);
    } else if call.name == "Agent" {
      ls.Charge();
      var content, isError := ExecuteSubAgent(cfg, env, call.arguments, ls, messages);
      appended := Respond(ls, messages, call, SubAgentCall, content, isError);
    } else {
      appended := RunTool(ls, call, v, step, messages);
    }
  }

  /** The calls of one turn, in request order. */
  method ServeCalls(cfg: Config, env: Adversary, t: TurnInput, calls: seq<ToolCall>, step: nat, ls: LoopState,
                    messages: seq<Message>)
    returns (appended: seq<Message>)
    modifies ls
    ensures ls.View(appended) == ServeAll(cfg, env, t, calls, 0, step, old(ls.View(messages)))
    decreases Nesting(ls.subAgentDepth), ls.remainingStepBudget, 3
  {
    hide Serve;
    ghost var whole := ServeAll(cfg, env, t, calls, 0, step, ls.View(messages));
    appended := messages;
    for i := 0 to |calls|
      invariant whole == ServeAll(cfg, env, t, calls, i, step, ls.View(appended))
      invariant ls.remainingStepBudget <= old(ls.remainingStepBudget)
    {
      appended := ServeCall(cfg, env, ls, calls[i], ServiceOf(t, calls, i), step, appended);
    }
  }

  // ---------- the loop ----------

  /** `effective_ask_user_payload`. */
  method EffectiveQuestion(ls: LoopState, proposed: string) returns (question: string)
    ensures question == Question(ls.goal, ls.lastObservation, proposed)
  {
    if ls.lastObservation.None? {
      return proposed;
    }
    question := QuestionFrom(ls.goal, ls.lastObservation.value.observation);
  }

  /** The question goes to the user and into the history. */
  method PutQuestion(ls: LoopState, proposed: string, ghost messages: seq<Message>) returns (outcome: Outcome)
    modifies ls`stepIndex, ls`remainingStepBudget, ls`status, ls`history, ls`told
    ensures RunEnd(ls.View(messages), outcome) == Ask(old(ls.View(messages)), proposed)
  {
    hide Question, RepeatsLargeFile, RecordTerminal;
    var question := EffectiveQuestion(ls, proposed);
    var large := RepeatsLargeFile(ls.lastObservation);
    ls.told := ls.told + [Asked(ls.subAgentDepth, Text(question, if large then Some(0) else None))];
    ls.RecordTerminalStep(AskUser, AskUserCalled, AskedUser(question, large));
    outcome := Ended(AskUser, question);
  }

  /** The end of a turn whose calls include a terminal pseudo-tool. */
  method DecideTerminal(ls: LoopState, call: ToolCall, ghost messages: seq<Message>)
    returns (outcome: Outcome)
    requires IsTerminal(call.name)
    modifies ls`stepIndex, ls`remainingStepBudget, ls`status, ls`history, ls`told
    ensures RunEnd(ls.View(messages), outcome) == Decide(old(ls.View(messages)), call)
  {
    if call.name == "final_answer" {
      var message := Field(call.arguments, "message", "");
      ls.RecordTerminalStep(FinalAnswer, FinalAnswerCalled, Concluded(message));
      outcome := Ended(FinalAnswer, message);
    } else if call.name == "ask_user" {
      outcome := PutQuestion(ls, Field(call.arguments, "question", ""), messages);
    } else {
      var message := Field(call.arguments, "reason", "LLM reported failure.");
      ls.RecordTerminalStep(Fail, FailCalled, Concluded(message));
      outcome := Ended(Fail, message);
    }
  }

  /** The earliest terminal pseudo-tool among the calls of a turn. */
  method FindTerminal(calls: seq<ToolCall>) returns (k: Option<nat>)
    ensures k == FirstTerminal(calls)
  {
    for i := 0 to |calls|
      invariant forall j :: 0 <= j < i ==> !IsTerminal(calls[j].name)
    {
      if IsTerminal(calls[i].name) {
        ToolLoopRuns.FirstTerminalIs(calls, i);
        return Some(i);
      }
    }
    NoneTerminal(calls);
    k := None;
  }

  lemma {:induction false} NoneTerminal(calls: seq<ToolCall>)
    requires forall j :: 0 <= j < |calls| ==> !IsTerminal(calls[j].name)
    ensures FirstTerminal(calls).None?
  {
    hide IsTerminal;
    if calls != [] {
      NoneTerminal(calls[1..]);
    }
  }

  /** Refresh, freeze or reuse, and deferred mode, at the start of a turn. */
  method PrepareTools(cfg: Config, t: TurnInput, ls: LoopState)
    returns (rebuilt: bool, definitions: seq<ToolDefinition>, offered: seq<ToolDefinition>)
    modifies ls`visibleTools, ls`disallowedTools, ls`toolSchemaDirty, ls`observedPlanMode, ls`frozenToolSchema,
             ls`deferredTools
    ensures Prepared(ls.SchemaView(), rebuilt, definitions, offered) ==
            Prepare(cfg.inventory, old(ls.SchemaView()), t.planMode, cfg.available(ls.context.candidateTools))
  {
    hide Build, Refresh, Defer, Sent;
    ls.RefreshVisibleTools(cfg.inventory, t.planMode, cfg.available(ls.context.candidateTools));
    rebuilt := ls.toolSchemaDirty || ls.frozenToolSchema.None?;
    definitions := ls.FreezeOrReuseToolSchema(Build(cfg.inventory, ls.visibleTools, ls.disallowedTools));
    offered := ls.ApplyDeferredMode(cfg.inventory, definitions);
  }

  /** The LLM phase of a turn whose tools are prepared. */
  method AskModel(cfg: Config, t: TurnInput, ls: LoopState, messages: seq<Message>, rebuilt: bool,
                  definitions: seq<ToolDefinition>, offered: seq<ToolDefinition>, armed: bool, ghost s: State)
    returns (sent: seq<Message>, result: AttemptResult)
    requires Prepared(ls.SchemaView(), rebuilt, definitions, offered) == PrepareTurn(cfg, t, s)
    requires ls.View(messages) == s.(schema := ls.SchemaView())
    modifies ls`layer2Attempted, ls`history, ls`workingSummary, ls`told, ls`trace
    ensures ls.View(sent) == AfterModel(cfg, t, s, armed) && result == CallModel(cfg, t, s, armed).result
  {
    hide Attempt, Prepare, Folded, ToldBy;
    sent := if t.microcompacted.Some? then t.microcompacted.value else messages;
    var events: seq<LlmEvent>;
    sent, events, result := CallWithRetries(cfg, t, ls, sent, rebuilt, armed);
    ls.trace := ls.trace + [TurnRecord(ls.subAgentDepth, ls.context, sent, ls.visibleTools, ls.disallowedTools, rebuilt,
                                       definitions, offered, events)];
  }

  /** `maybe_compact`. */
  method CompactAfterTurn(cfg: Config, t: TurnInput, ls: LoopState, messages: seq<Message>) returns (sent: seq<Message>)
    modifies ls`history, ls`workingSummary, ls`told
    ensures ls.View(sent) == Compact(cfg, t, old(ls.View(messages)))
  {
    hide Folded, ToldBy;
    if t.fold.Some? {
      RunCompaction(cfg, ls, t.fold.value);
    }
    sent := if t.compacted.Some? then t.compacted.value else messages;
  }

  /** What a turn does with an answer: end the run by it, or serve its calls and compact. */
  method ActOnAnswer(cfg: Config, env: Adversary, t: TurnInput, ls: LoopState, messages: seq<Message>, text: string,
                     calls: seq<ToolCall>, armed: bool, ghost s: State)
    returns (sent: seq<Message>, ended: Option<Outcome>)
    requires t == env(|s.trace|) && s.stepBudget > 0 && CallModel(cfg, t, s, armed).result == Reached(text, calls)
    requires ls.View(messages) == AfterModel(cfg, t, s, armed) && ls.View(messages).stepBudget == s.stepBudget
    requires ls.stepIndex == s.stepIndex
    modifies ls
    ensures if ended.Some? then RunEnd(ls.View(sent), ended.value) == Run(cfg, env, s, armed)
            else
              && Run(cfg, env, ls.View(sent), armed) == Run(cfg, env, s, armed)
              && ls.remainingStepBudget < old(ls.remainingStepBudget)
    decreases Nesting(ls.subAgentDepth), ls.remainingStepBudget, 4
  {
    hide AfterModel, CallModel, ServeAll, FirstTerminal, Decide, PrepareTurn, Compact, RecordTerminal;
    sent := messages + [AssistantMessage(text, calls)];
    assert ls.View(sent) == WithAssistant(AfterModel(cfg, t, s, armed), text, calls);
    if calls == [] {
      var message := if text == "" then "Runtime loop completed." else text;
      ls.RecordTerminalStep(FinalAnswer, TextOnly, Concluded(message));
      return sent, Some(Ended(FinalAnswer, message));
    }
    var k := FindTerminal(calls);
    if k.Some? {
      var outcome := DecideTerminal(ls, calls[k.value], sent);
      return sent, Some(outcome);
    }
    sent := ServeCalls(cfg, env, t, calls, ls.stepIndex + 1, ls, sent);
    sent := CompactAfterTurn(cfg, t, ls, sent);
    ended := if armed && t.compactionTimesOut then Some(TimedOut) else None;
  }

  /** A run ends at once if its budget is spent or no answer is reached. */
  lemma RunWithoutAnswer(cfg: Config, env: Adversary, s: State, armed: bool)
    ensures var t, whole := env(|s.trace|), Run(cfg, env, s, armed);
            var reached, result := AfterModel(cfg, t, s, armed), CallModel(cfg, t, s, armed).result;
            if s.stepBudget == 0 then
              whole == End(s.(schema := PrepareTurn(cfg, t, s).schema), Fail, BudgetSpent,
                           "Step budget exhausted after " + Json.Decimal(s.stepIndex) + " steps; goal: " + s.goal)
            else if result.AttemptTimedOut? then whole == RunEnd(reached, TimedOut)
            else result.GaveUp? ==> whole == End(reached, Fail, result.reason, result.message)
  {
    hide PrepareTurn, AfterModel, CallModel;
  }

  /** The end of a run whose budget is spent. */
  method FailOnBudget(ls: LoopState, ghost messages: seq<Message>) returns (outcome: Outcome)
    modifies ls`stepIndex, ls`remainingStepBudget, ls`status, ls`history
    ensures var s := old(ls.View(messages));
            RunEnd(ls.View(messages), outcome) ==
            End(s, Fail, BudgetSpent,
                "Step budget exhausted after " + Json.Decimal(s.stepIndex) + " steps; goal: " + s.goal)
  {
    hide RecordTerminal, Json.Decimal;
    var message := "Step budget exhausted after " + Json.Decimal(ls.stepIndex) + " steps; goal: " + ls.goal;
    ls.RecordTerminalStep(Fail, BudgetSpent, Concluded(message));
    outcome := Ended(Fail, message);
  }

  /** What a turn does once its LLM phase is over. */
  method ActOnResult(cfg: Config, env: Adversary, t: TurnInput, ls: LoopState, messages: seq<Message>,
                     result: AttemptResult, armed: bool, ghost s: State)
    returns (sent: seq<Message>, ended: Option<Outcome>)
    requires t == env(|s.trace|) && s.stepBudget > 0 && CallModel(cfg, t, s, armed).result == result
    requires ls.View(messages) == AfterModel(cfg, t, s, armed) && ls.View(messages).stepBudget == s.stepBudget
    requires ls.stepIndex == s.stepIndex
    modifies ls
    ensures if ended.Some? then RunEnd(ls.View(sent), ended.value) == Run(cfg, env, s, armed)
            else
              && Run(cfg, env, ls.View(sent), armed) == Run(cfg, env, s, armed)
              && ls.remainingStepBudget < old(ls.remainingStepBudget)
    decreases Nesting(ls.subAgentDepth), ls.remainingStepBudget, 5
  {
    hide Run, PrepareTurn, AfterModel, CallModel, RecordTerminal;
    RunWithoutAnswer(cfg, env, s, armed);
    sent := messages;
    match result {
      case AttemptTimedOut =>
        ended := Some(TimedOut);
      case GaveUp(reason, message) =>
        ls.RecordTerminalStep(Fail, reason, Concluded(message));
        ended := Some(Ended(Fail, message));
      case Reached(text, calls) =>
        sent, ended := ActOnAnswer(cfg, env, t, ls, sent, text, calls, armed, s);
    }
  }

  /** One turn of the loop: it ends the run, or leaves a state with less budget that the run continues from. */
  method TakeTurn(cfg: Config, env: Adversary, ls: LoopState, messages: seq<Message>, armed: bool)
    returns (sent: seq<Message>, ended: Option<Outcome>)
    modifies ls
    ensures var whole := Run(cfg, env, old(ls.View(messages)), armed);
            if ended.Some? then RunEnd(ls.View(sent), ended.value) == whole
            else Run(cfg, env, ls.View(sent), armed) == whole && ls.remainingStepBudget < old(ls.remainingStepBudget)
    decreases Nesting(ls.subAgentDepth), ls.remainingStepBudget, 6
  {
    hide Run, Prepare, PrepareTurn, AfterModel, CallModel, End, Json.Decimal;
    ghost var s := ls.View(messages);
    var t := env(|ls.trace|);
    var rebuilt, definitions, offered := PrepareTools(cfg, t, ls);
    ShowPrepareTurn(cfg, t, s);
    if ls.remainingStepBudget == 0 {
      var outcome := FailOnBudget(ls, messages);
      RunWithoutAnswer(cfg, env, s, armed);
      return messages, Some(outcome);
    }
    var result: AttemptResult;
    sent, result := AskModel(cfg, t, ls, messages, rebuilt, definitions, offered, armed, s);
    sent, ended := ActOnResult(cfg, env, t, ls, sent, result, armed, s);
  }

  lemma ShowPrepareTurn(cfg: Config, t: TurnInput, s: State)
    ensures PrepareTurn(cfg, t, s) ==
            Prepare(cfg.inventory, s.schema, t.planMode, cfg.available(s.context.candidateTools))
  {
  }

  /** What the main invariant says of the counters, whatever the message buffers. */
  lemma RunFits(cfg: Config, env: Adversary, start: State, armed: bool)
    ensures var s, end := start.(messages := []), Run(cfg, env, start, armed);
            Sound(cfg, s) ==>
              && |end.state.trace| - |s.trace| <= s.stepBudget
              && Pays(s, end.state.(messages := []), -Unpaid(end.outcome))
  {
    hide Run, Extends, Coherent;
    if Sound(cfg, start.(messages := [])) {
      RunKeeps(cfg, env, start, armed);
    }
  }

  /** Turn after turn until one of them ends the run. */
  method TakeTurns(cfg: Config, env: Adversary, ls: LoopState, initial: seq<Message>, armed: bool)
    returns (messages: seq<Message>, outcome: Outcome)
    modifies ls
    ensures RunEnd(ls.View(messages), outcome) == Run(cfg, env, old(ls.View(initial)), armed)
    decreases Nesting(ls.subAgentDepth), ls.remainingStepBudget, 7
  {
    hide *;
    messages := initial;
    ghost var whole := Run(cfg, env, ls.View(messages), armed);
    while true
      invariant whole == Run(cfg, env, ls.View(messages), armed)
      invariant ls.remainingStepBudget <= old(ls.remainingStepBudget)
      decreases ls.remainingStepBudget
    {
      var ended: Option<Outcome>;
      messages, ended := TakeTurn(cfg, env, ls, messages, armed);
      if ended.Some? {
        return messages, ended.value;
      }
    }
  }

  /**
   `execute_tool_loop`. It ends as the specification says against any adversary; and, from a loop state
   the runtime can be in, its LLM turns and those of all its sub-agents fit the budget it began with.
   */
  method ExecuteToolLoop(cfg: Config, env: Adversary, hasRouter: bool, history: seq<Turn>, userReply: Option<string>,
                         ls: LoopState, armed: bool)
    returns (messages: seq<Message>, outcome: Outcome)
    modifies ls
    ensures var input := if userReply.Some? then userReply.value else ls.goal;
            RunEnd(ls.View(messages), outcome) ==
            if hasRouter then Run(cfg, env, old(ls.View(InitialMessages(history, input))), armed)
            else End(old(ls.View([])), FinalAnswer, NoRouter, input)
    ensures hasRouter && Sound(cfg, old(ls.View([]))) ==>
              && |ls.trace| - |old(ls.trace)| <= old(ls.remainingStepBudget)
              && Pays(old(ls.View([])), ls.View([]), -Unpaid(outcome))
    decreases Nesting(ls.subAgentDepth), ls.remainingStepBudget, 8
  {
    hide Run, InitialMessages, Sound, Pays, Unpaid;
    var input := if userReply.Some? then userReply.value else ls.goal;
    if !hasRouter {
      ls.RecordTerminalStep(FinalAnswer, NoRouter, Concluded(input));
      return [], Ended(FinalAnswer, input);
    }
    ghost var start := ls.View(InitialMessages(history, input));
    messages, outcome := TakeTurns(cfg, env, ls, InitialMessages(history, input), armed);
    RunFits(cfg, env, start, armed);
  }
}
