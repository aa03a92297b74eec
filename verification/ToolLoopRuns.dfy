/**
 What follows from the main invariant for whole runs and for lives of a loop that pause to ask the
 user: bounds on calls, the answering of every requested call, and terminal turns.
 */
module ToolLoopRuns {
  import opened Prelude
  import Json
  import opened SessionLog
  import opened Messages
  import opened ToolSchema
  import opened ToolLoop
  import opened ToolLoopProofs
  import opened WorkingMemory

  // ---------- calls over a whole run ----------

  function Total(trace: seq<TurnRecord>, e: LlmEvent): nat {
    if trace == [] then 0 else Total(trace[..|trace| - 1], e) + CountOf(trace[|trace| - 1].events, e)
  }

  function Added(before: seq<TurnRecord>, after: seq<TurnRecord>, e: LlmEvent): int {
    Total(after, e) - Total(before, e)
  }

  ghost predicate GoodSince(cfg: Config, before: seq<TurnRecord>, after: seq<TurnRecord>) {
    before <= after && forall i :: |before| <= i < |after| ==> GoodRecord(cfg, after[i])
  }

  lemma RecordBounds(cfg: Config, r: TurnRecord)
    requires GoodRecord(cfg, r)
    ensures 1 <= CountOf(r.events, Generate) <= 3 && CountOf(r.events, ReactiveCompact) <= 1
    ensures CountOf(r.events, SchemaFrozen(true)) <= 1
    ensures CountOf(r.events, SchemaFrozen(true)) + CountOf(r.events, SchemaFrozen(false)) ==
            if cfg.hasSender then CountOf(r.events, Generate) else 0
  {
    hide FollowsPattern, CountOf, Build, Announced;
    PatternBounds(cfg, r.rebuilt, FollowsPattern(cfg, r.rebuilt, true, r.events), r.events);
  }

  lemma {:induction false} TotalsBounded(cfg: Config, before: seq<TurnRecord>, after: seq<TurnRecord>)
    requires GoodSince(cfg, before, after)
    ensures |after| - |before| <= Added(before, after, Generate) <= 3 * (|after| - |before|)
    ensures Added(before, after, ReactiveCompact) <= |after| - |before|
    ensures Added(before, after, SchemaFrozen(true)) <= |after| - |before|
    ensures Added(before, after, SchemaFrozen(true)) + Added(before, after, SchemaFrozen(false)) ==
            if cfg.hasSender then Added(before, after, Generate) else 0
    decreases |after|
  {
    hide GoodRecord, CountOf;
    if |after| == |before| {
      assert after == before;
    } else {
      TotalsBounded(cfg, before, after[..|after| - 1]);
      RecordBounds(cfg, after[|after| - 1]);
    }
  }

  lemma {:induction false} LookupsByDepth(before: seq<TurnRecord>, after: seq<TurnRecord>)
    requires before <= after && forall i :: |before| <= i < |after| ==> after[i].depth <= 1
    ensures Added(before, after, Layer2Lookup) ==
            Lookups(after, 0) - Lookups(before, 0) + Lookups(after, 1) - Lookups(before, 1)
    decreases |after|
  {
    hide CountOf;
    if |after| == |before| {
      assert after == before;
    } else {
      LookupsByDepth(before, after[..|after| - 1]);
    }
  }

  /** `Agent` calls served at the top level between two states. */
  function AgentCalls(s: State, r: State): int {
    if s.depth == 0 then SubAgentCalls(r.services, 0) - SubAgentCalls(s.services, 0) else 0
  }

  /** All Layer 2 lookups between two states: one by the loop itself, unless it has had it, and one per `Agent` call. */
  lemma AllLookups(cfg: Config, s: State, r: State)
    requires Extends(cfg, s, r) && s.depth <= 1
    ensures Added(s.trace, r.trace, Layer2Lookup) <= (if s.layer2Attempted then 0 else 1) + AgentCalls(s, r)
  {
    hide Build, FollowsPattern, Lookups, SubAgentCalls, Total;
    LookupsByDepth(s.trace, r.trace);
    if s.depth == 1 {
      NoDeepLookups(s.trace, r.trace, 0);
    }
  }

  /**
   Over a whole run with all its sub-agents: at most three calls and one reactive compaction per step
   of the initial budget; Layer 2 lookups at most one at the run's own depth, and with those of its
   sub-agents at most one more per `Agent` call; and with a sender as many announcements as calls, at
   most one of them per turn reporting a rebuild.
   */
  lemma RunCallBounds(cfg: Config, env: Adversary, s: State, armed: bool)
    requires Sound(cfg, s)
    ensures var r := Run(cfg, env, s, armed).state;
            && s.trace <= r.trace && TurnsTaken(s, r) <= s.stepBudget
            && TurnsTaken(s, r) <= Added(s.trace, r.trace, Generate) <= 3 * s.stepBudget
            && Added(s.trace, r.trace, ReactiveCompact) <= s.stepBudget
            && Lookups(r.trace, s.depth) - Lookups(s.trace, s.depth) <= (if s.layer2Attempted then 0 else 1)
            && Added(s.trace, r.trace, Layer2Lookup) <= (if s.layer2Attempted then 0 else 1) + AgentCalls(s, r)
            && Added(s.trace, r.trace, SchemaFrozen(true)) <= s.stepBudget
            && Added(s.trace, r.trace, SchemaFrozen(true)) + Added(s.trace, r.trace, SchemaFrozen(false)) ==
               if cfg.hasSender then Added(s.trace, r.trace, Generate) else 0
  {
    hide Run, GoodRecord, Lookups, SubAgentCalls, Total, Coherent;
    RunKeeps(cfg, env, s, armed);
    AllLookups(cfg, s, Run(cfg, env, s, armed).state);
    TotalsBounded(cfg, s.trace, Run(cfg, env, s, armed).state.trace);
  }

  // ---------- pauses ----------

  /**
   A paused loop, restored from its checkpoint, takes up the request that carries the user's reply: a new message
   buffer, and new memory sections, to which its working summary belongs.
   */
  function Resume(s: State, i: Intake): State {
    var memory := Sections(i.history, i.recall, s.journal.summary.chars);
    s.(schema := Restored(s.schema), status := LoopRunning, context := Entered(s.context).(memory := memory),
       messages := InitialMessages(i.history, i.input))
  }

  predicate Asks(o: Outcome) {
    o.Ended? && o.action.AskUser?
  }

  /** A run and its resumptions, one per request with a reply, for as long as it ends by asking the user. */
  function Life(cfg: Config, env: Adversary, s: State, replies: seq<Intake>): (r: RunEnd)
    ensures Run(cfg, env, s, false).state.told <= r.state.told
    decreases |replies|
  {
    var end := Run(cfg, env, s, false);
    if replies != [] && Asks(end.outcome) then Life(cfg, env, Resume(end.state, replies[0]), replies[1..]) else end
  }

  lemma ResumeIsSound(cfg: Config, s: State, i: Intake)
    requires Sound(cfg, s)
    ensures Sound(cfg, Resume(s, i)) && Extends(cfg, s, Resume(s, i))
  {
    hide Sections, InitialMessages;
    ExtendsItself(cfg, s, Resume(s, i));
  }

  /**
   A life takes at most one LLM turn more than its budget for each time it was resumed: asking the user
   is not charged, everything else is. Its records are good, so the schema it offers stays a fresh
   build across resumptions; and the loop itself looks Layer 2 up at most once in its whole life, its
   sub-agents at most once per `Agent` call.
   */
  lemma {:induction false} LifeBound(cfg: Config, env: Adversary, s: State, replies: seq<Intake>)
    requires Sound(cfg, s)
    ensures var end := Life(cfg, env, s, replies).state;
            && Extends(cfg, s, end)
            && TurnsTaken(s, end) <= s.stepBudget + |replies|
            && Lookups(end.trace, s.depth) - Lookups(s.trace, s.depth) <= (if s.layer2Attempted then 0 else 1)
            && Added(s.trace, end.trace, Layer2Lookup) <= (if s.layer2Attempted then 0 else 1) + AgentCalls(s, end)
    decreases |replies|
  {
    hide Run, GoodRecord, Lookups, SubAgentCalls, Coherent, Total;
    RunKeeps(cfg, env, s, false);
    var end := Run(cfg, env, s, false);
    if replies != [] && Asks(end.outcome) {
      var resumed := Resume(end.state, replies[0]);
      ResumeIsSound(cfg, end.state, replies[0]);
      LifeBound(cfg, env, resumed, replies[1..]);
      ExtendsTransitive(cfg, s, end.state, resumed);
      ExtendsTransitive(cfg, s, resumed, Life(cfg, env, s, replies).state);
    }
    AllLookups(cfg, s, Life(cfg, env, s, replies).state);
  }

  /** A model that asks the user on every turn. */
  ghost predicate AlwaysAsks(env: Adversary) {
    forall n: nat ::
      env(n).first.reply ==
      Answered(Completion("", [ToolCall("1", "ask_user", map[])], [], None, false, None, None))
  }

  lemma AskingTurn(cfg: Config, env: Adversary, s: State)
    requires !cfg.hasSender && AlwaysAsks(env) && s.stepBudget > 0
    ensures var end := Run(cfg, env, s, false);
            Asks(end.outcome) && TurnsTaken(s, end.state) == 1 && end.state.stepBudget == s.stepBudget
  {
    hide Prepare, MidTier, OneCall;
    var t := env(|s.trace|);
    assert t.first.reply.Answered?;
    var calls := [ToolCall("1", "ask_user", map[])];
    assert CallModel(cfg, t, s, false).result == Reached("", calls);
    assert FirstTerminal(calls) == Some(0);
  }

  /** The bound's second term is needed: such a life takes a turn per reply and keeps its whole budget. */
  lemma {:induction false} AskingIsFree(cfg: Config, env: Adversary, s: State, replies: seq<Intake>)
    requires !cfg.hasSender && AlwaysAsks(env) && s.stepBudget > 0
    ensures var end := Life(cfg, env, s, replies).state;
            TurnsTaken(s, end) == 1 + |replies| && end.stepBudget == s.stepBudget
    decreases |replies|
  {
    hide Run, AlwaysAsks;
    AskingTurn(cfg, env, s);
    if replies != [] {
      AskingIsFree(cfg, env, Resume(Run(cfg, env, s, false).state, replies[0]), replies[1..]);
    }
  }

  // ---------- answering ----------

  /** The five ways a call is served, in the order in which they are tried. */
  function Path(cfg: Config, call: ToolCall, v: Service): ServiceKind {
    if cfg.hasGate && v.denial.Some? then Denied
    else if call.name == TOOL_SEARCH then Searched
    else if IsTaskTool(call.name) then TaskTool
    else if call.name == "Agent" then SubAgentCall
    else Executed
  }

  /** One result per call, in order and with its id, each followed by at most one notice to the model. */
  predicate AnswersOf(calls: seq<ToolCall>, added: seq<Message>)
    decreases |calls|
  {
    if calls == [] then added == []
    else
      && added != [] && added[0].ToolResult? && added[0].toolUseId == calls[0].id
      && (AnswersOf(calls[1..], added[1..])
          || (|added| > 1 && added[1].UserMessage? && AnswersOf(calls[1..], added[2..])))
  }

  function ResultIds(ms: seq<Message>): seq<string> {
    if ms == [] then []
    else (if ms[0].ToolResult? then [ms[0].toolUseId] else []) + ResultIds(ms[1..])
  }

  function Ids(calls: seq<ToolCall>): seq<string> {
    if calls == [] then [] else [calls[0].id] + Ids(calls[1..])
  }

  lemma {:induction false} AnswersById(calls: seq<ToolCall>, added: seq<Message>)
    requires AnswersOf(calls, added)
    ensures ResultIds(added) == Ids(calls) && forall m :: m in added ==> !m.AssistantMessage?
    decreases |calls|
  {
    if calls != [] {
      assert added == [added[0]] + added[1..];
      if AnswersOf(calls[1..], added[1..]) {
        AnswersById(calls[1..], added[1..]);
      } else {
        AnswersById(calls[1..], added[2..]);
        assert added[1..] == [added[1]] + added[2..];
        assert added[1..][1..] == added[2..];
      }
    }
  }

  /** The service records made at one depth. */
  function At(services: seq<ServiceRecord>, depth: nat): seq<ServiceRecord> {
    if services == [] then []
    else
      var last := services[|services| - 1];
      At(services[..|services| - 1], depth) + (if last.depth == depth then [last] else [])
  }

  lemma AtSnoc(services: seq<ServiceRecord>, r: ServiceRecord, depth: nat)
    ensures At(services + [r], depth) == At(services, depth) + (if r.depth == depth then [r] else [])
  {
    assert (services + [r])[..|services|] == services;
  }

  lemma {:induction false} DeeperServices(before: seq<ServiceRecord>, after: seq<ServiceRecord>)
    requires before <= after && forall i :: |before| <= i < |after| ==> after[i].depth > 0
    ensures At(after, 0) == At(before, 0)
    decreases |after|
  {
    if |after| == |before| {
      assert after == before;
    } else {
      DeeperServices(before, after[..|after| - 1]);
    }
  }

  /** A sub-agent leaves its parent's messages alone and serves nothing at its parent's depth. */
  lemma SubAgentIsSeparate(cfg: Config, env: Adversary, arguments: Arguments, s: State)
    ensures var r := SubAgent(cfg, env, arguments, s).state;
            r.messages == s.messages && At(r.services, s.depth) == At(s.services, s.depth)
  {
    hide Run, Trim, Drop;
    var task := Trim(Field(arguments, "task", ""));
    if s.depth == 0 && task != "" {
      var sub := SubState(cfg, s, task);
      SubServicesAreDeep(cfg, env, sub, cfg.timeoutSecs > 0);
      DeeperServices(s.services, Run(cfg, env, sub, cfg.timeoutSecs > 0).state.services);
    }
  }

  /** What serving one call adds: its result, perhaps a notice, and one record of the path it took. */
  ghost predicate Served(s: State, r: State, call: ToolCall, kind: ServiceKind) {
    && |s.messages| < |r.messages| && s.messages <= r.messages
    && (var m := r.messages[|s.messages|]; m.ToolResult? && m.toolUseId == call.id)
    && (|r.messages| == |s.messages| + 1
        || (|r.messages| == |s.messages| + 2 && r.messages[|s.messages| + 1].UserMessage?))
    && At(r.services, s.depth) == At(s.services, s.depth) + [ServiceRecord(s.depth, call.id, kind)]
  }

  lemma AnswerServes(s: State, call: ToolCall, kind: ServiceKind, content: string, isError: bool)
    ensures Served(s, Answer(s, call, kind, content, isError), call, kind)
  {
    AtSnoc(s.services, ServiceRecord(s.depth, call.id, kind), s.depth);
  }

  lemma ServedFrom(s: State, middle: State, r: State, call: ToolCall, kind: ServiceKind)
    requires middle.messages == s.messages && middle.depth == s.depth
             && At(middle.services, s.depth) == At(s.services, s.depth)
    requires Served(middle, r, call, kind)
    ensures Served(s, r, call, kind)
  {
  }

  lemma ServeToolServes(s: State, call: ToolCall, v: Service, step: nat)
    ensures Served(s, ServeTool(s, call, v, step), call, Executed)
  {
    hide ToolContent, At;
    var recorded := Observed(s, call, v, step);
    var content := ToolContent(call, v);
    AnswerServes(recorded, call, Executed, content.0, content.1);
  }

  lemma ServeServes(cfg: Config, env: Adversary, call: ToolCall, v: Service, step: nat, s: State)
    ensures Served(s, Serve(cfg, env, call, v, step, s), call, Path(cfg, call, v))
  {
    hide SubAgent, Served, Search, SearchAnswer, ServeTool, Answer, At;
    if cfg.hasGate && v.denial.Some? {
      AnswerServes(Charged(s), call, Denied, "[Tool denied] " + v.denial.value, true);
      ServedFrom(s, Charged(s), Serve(cfg, env, call, v, step, s), call, Denied);
    } else if call.name == TOOL_SEARCH {
      var name := Field(call.arguments, "tool_name", "");
      var charged := Charged(s).(schema := Search(s.schema, name));
      AnswerServes(charged, call, Searched, SearchAnswer(s.schema, name), false);
      ServedFrom(s, charged, Serve(cfg, env, call, v, step, s), call, Searched);
    } else if IsTaskTool(call.name) {
      AnswerServes(Charged(s), call, TaskTool, v.taskAnswer, "Error:" <= v.taskAnswer);
      ServedFrom(s, Charged(s), Serve(cfg, env, call, v, step, s), call, TaskTool);
    } else if call.name == "Agent" {
      var sub := SubAgent(cfg, env, call.arguments, Charged(s));
      SubAgentIsSeparate(cfg, env, call.arguments, Charged(s));
      AnswerServes(sub.state, call, SubAgentCall, sub.content, sub.isError);
      ServedFrom(s, sub.state, Serve(cfg, env, call, v, step, s), call, SubAgentCall);
    } else {
      ServeToolServes(s, call, v, step);
    }
  }

  /** The records a turn should leave: every call once, in order, by its path. */
  function Expected(cfg: Config, t: TurnInput, calls: seq<ToolCall>, i: nat, depth: nat): seq<ServiceRecord>
    requires i <= |calls|
    decreases |calls| - i
  {
    if i == |calls| then []
    else
      [ServiceRecord(depth, calls[i].id, Path(cfg, calls[i], ServiceOf(t, calls, i)))]
      + Expected(cfg, t, calls, i + 1, depth)
  }

  lemma {:induction false} AnswersStep(calls: seq<ToolCall>, before: seq<Message>, middle: seq<Message>,
                                       after: seq<Message>)
    requires calls != [] && before <= middle && middle <= after
    requires |before| < |middle| <= |before| + 2
    requires middle[|before|].ToolResult? && middle[|before|].toolUseId == calls[0].id
    requires |middle| == |before| + 2 ==> middle[|before| + 1].UserMessage?
    requires AnswersOf(calls[1..], after[|middle|..])
    ensures AnswersOf(calls, after[|before|..])
  {
    var added := after[|before|..];
    assert added[0] == middle[|before|];
    if |middle| == |before| + 1 {
      assert added[1..] == after[|middle|..];
    } else {
      assert added[1] == middle[|before| + 1];
      assert added[2..] == after[|middle|..];
    }
  }

  lemma {:induction false} ServeAllServes(cfg: Config, env: Adversary, t: TurnInput, calls: seq<ToolCall>, i: nat,
                                          step: nat, s: State)
    requires i <= |calls|
    ensures var r := ServeAll(cfg, env, t, calls, i, step, s);
            && s.messages <= r.messages && AnswersOf(calls[i..], r.messages[|s.messages|..])
            && At(r.services, s.depth) == At(s.services, s.depth) + Expected(cfg, t, calls, i, s.depth)
    decreases |calls| - i
  {
    hide Serve, At, Path;
    if i < |calls| {
      var served := Serve(cfg, env, calls[i], ServiceOf(t, calls, i), step, s);
      var r := ServeAll(cfg, env, t, calls, i, step, s);
      ServeServes(cfg, env, calls[i], ServiceOf(t, calls, i), step, s);
      ServeAllServes(cfg, env, t, calls, i + 1, step, served);
      assert calls[i..][1..] == calls[i + 1..];
      AnswersStep(calls[i..], s.messages, served.messages, r.messages);
    }
  }

  /**
   A turn that continues appends the assistant's message, then exactly one result per requested call,
   in request order and with its id, whatever paths the calls take; nothing that was there is touched
   before compaction. Each call is served once, by its path: a denied call runs no tool and no sub-agent.
   */
  lemma TurnAnswersEveryCall(cfg: Config, env: Adversary, t: TurnInput, s: State, armed: bool, text: string,
                             calls: seq<ToolCall>)
    requires calls != []
    ensures var sent, r := CallModel(cfg, t, s, armed).state.messages, AfterCalls(cfg, env, t, s, armed, text, calls);
            var base := sent + [AssistantMessage(text, calls)];
            && base <= r.messages && AnswersOf(calls, r.messages[|base|..])
            && ResultIds(r.messages[|base|..]) == Ids(calls)
            && At(r.services, s.depth) == At(s.services, s.depth) + Expected(cfg, t, calls, 0, s.depth)
  {
    hide Attempt, Prepare, ServeAll, AnswersOf, At, Expected;
    var answered := WithAssistant(AfterModel(cfg, t, s, armed), text, calls);
    ServeAllServes(cfg, env, t, calls, 0, s.stepIndex + 1, answered);
    assert calls[0..] == calls;
    AnswersById(calls, AfterCalls(cfg, env, t, s, armed, text, calls).messages[|answered.messages|..]);
  }

  /** An observation that costs recovery budget: a failure the loop may still recover from by itself. */
  predicate CostsRecovery(o: Observation) {
    !o.ok && !o.terminal && o.errorType != Some("multiple_candidates") && o.errorType != Some("needs_more_information")
  }

  /** The tool calls of a turn from the `i`-th on that run and fail recoverably. */
  function Setbacks(cfg: Config, t: TurnInput, calls: seq<ToolCall>, i: nat): nat
    requires i <= |calls|
    decreases |calls| - i
  {
    if i == |calls| then 0
    else
      var v := ServiceOf(t, calls, i);
      (if Path(cfg, calls[i], v).Executed? && CostsRecovery(v.observation) then 1 else 0)
      + Setbacks(cfg, t, calls, i + 1)
  }

  /** Some call of the turn from the `i`-th on reaches a tool. */
  predicate Executes(cfg: Config, t: TurnInput, calls: seq<ToolCall>, i: nat) {
    exists j :: i <= j < |calls| && Path(cfg, calls[j], ServiceOf(t, calls, j)).Executed?
  }

  lemma SubAgentKeepsCounters(cfg: Config, env: Adversary, arguments: Arguments, s: State)
    ensures var r := SubAgent(cfg, env, arguments, s).state;
            r.recoveryBudget == s.recoveryBudget && r.stepIndex == s.stepIndex && r.schema == s.schema
  {
    hide Run, Trim, Drop, Field;
  }

  lemma ServeCounters(cfg: Config, env: Adversary, call: ToolCall, v: Service, step: nat, s: State)
    ensures var r, executed := Serve(cfg, env, call, v, step, s), Path(cfg, call, v).Executed?;
            && r.stepIndex == (if executed then step else s.stepIndex)
            && r.recoveryBudget ==
                SaturatingSub(s.recoveryBudget, if executed && CostsRecovery(v.observation) then 1 else 0)
  {
    hide SubAgent, Search, SearchAnswer, ToolContent, Warning, Field, IsTaskTool;
    SubAgentKeepsCounters(cfg, env, call.arguments, Charged(s));
  }

  /**
   The turn's other counters, exactly: each recoverable failure of a tool costs one unit of recovery
   budget and nothing else does, not even a sub-agent that fails; the step index advances only if some
   call reached a tool.
   */
  lemma {:induction false} TurnCounters(cfg: Config, env: Adversary, t: TurnInput, calls: seq<ToolCall>, i: nat,
                                        step: nat, s: State)
    requires i <= |calls|
    ensures var r := ServeAll(cfg, env, t, calls, i, step, s);
            && r.recoveryBudget == SaturatingSub(s.recoveryBudget, Setbacks(cfg, t, calls, i))
            && r.stepIndex == if Executes(cfg, t, calls, i) then step else s.stepIndex
    decreases |calls| - i
  {
    hide Serve, Path, CostsRecovery;
    if i < |calls| {
      ServeCounters(cfg, env, calls[i], ServiceOf(t, calls, i), step, s);
      TurnCounters(cfg, env, t, calls, i + 1, step, Serve(cfg, env, calls[i], ServiceOf(t, calls, i), step, s));
      assert Executes(cfg, t, calls, i) <==>
             Path(cfg, calls[i], ServiceOf(t, calls, i)).Executed? || Executes(cfg, t, calls, i + 1);
    }
  }

  /** What each terminal pseudo-tool ends a run with. */
  function ActionOf(name: string): Action {
    if name == "final_answer" then FinalAnswer else if name == "ask_user" then AskUser else Fail
  }

  lemma {:induction false} FirstTerminalIs(calls: seq<ToolCall>, k: nat)
    requires k < |calls| && IsTerminal(calls[k].name) && forall j :: 0 <= j < k ==> !IsTerminal(calls[j].name)
    ensures FirstTerminal(calls) == Some(k)
  {
    hide IsTerminal;
    if k > 0 {
      assert !IsTerminal(calls[0].name);
      FirstTerminalIs(calls[1..], k - 1);
    }
  }

  /**
   A turn with a terminal pseudo-tool executes none of its calls: no service is recorded, no result is
   appended, and the earliest such call alone decides how the run ends.
   */
  lemma TerminalTurn(cfg: Config, env: Adversary, s: State, armed: bool, k: nat)
    requires s.stepBudget > 0
    requires var result := CallModel(cfg, env(|s.trace|), s, armed).result;
             && result.Reached? && k < |result.toolCalls| && IsTerminal(result.toolCalls[k].name)
             && forall j :: 0 <= j < k ==> !IsTerminal(result.toolCalls[j].name)
    ensures var model, end := CallModel(cfg, env(|s.trace|), s, armed), Run(cfg, env, s, armed);
            var action := ActionOf(model.result.toolCalls[k].name);
            && end.state.services == s.services && TurnsTaken(s, end.state) == 1
            && end.state.messages == model.state.messages
                + [AssistantMessage(model.result.text, model.result.toolCalls)]
            && end.outcome.Ended? && end.outcome.action == action
            && (action.FinalAnswer? ==>
                  end.outcome.message == Field(model.result.toolCalls[k].arguments, "message", ""))
            && (action.Fail? ==>
                  end.outcome.message == Field(model.result.toolCalls[k].arguments, "reason", "LLM reported failure."))
            && end.state.stepBudget == s.stepBudget - (if action.AskUser? then 0 else 1)
  {
    hide Attempt, Prepare, FirstTerminal, ServeAll;
    FirstTerminalIs(CallModel(cfg, env(|s.trace|), s, armed).result.toolCalls, k);
  }

  function StatusOf(action: Action): Status {
    match action case FinalAnswer => Succeeded case Fail => Failed case AskUser => AwaitingUser
  }

  /**
   How any run ends: it is cut off only where a timer is armed; otherwise the status it leaves is that of
   the action it reports, and a run that neither asks nor was cut off has spent a step if it had one.
   */
  lemma {:induction false} EndsAsReported(cfg: Config, env: Adversary, s: State, armed: bool)
    ensures var end := Run(cfg, env, s, armed);
            && (end.outcome.TimedOut? ==> armed)
            && (end.outcome.Ended? ==> end.state.status == StatusOf(end.outcome.action))
            && (end.outcome.Ended? && !end.outcome.action.AskUser? && s.stepBudget > 0
                ==> end.state.stepBudget < s.stepBudget)
            && end.state.stepBudget <= s.stepBudget
    decreases s.stepBudget
  {
    hide PrepareTurn, AfterModel, AfterCalls, FirstTerminal, Attempt;
    var t := env(|s.trace|);
    if s.stepBudget > 0 {
      var end := CallModel(cfg, t, s, armed).result;
      AfterModelKeeps(cfg, t, s, armed);
      TimesOutOnlyArmed(cfg, t, s, armed);
      if end.Reached? && end.toolCalls != [] && FirstTerminal(end.toolCalls).None? {
        var next := Compact(cfg, t, AfterCalls(cfg, env, t, s, armed, end.text, end.toolCalls));
        if !(armed && t.compactionTimesOut) {
          EndsAsReported(cfg, env, next, armed);
        }
      }
    }
  }

  lemma TimesOutOnlyArmed(cfg: Config, t: TurnInput, s: State, armed: bool)
    ensures CallModel(cfg, t, s, armed).result.AttemptTimedOut? ==> armed
  {
    hide AnswerOf, Escalates, OneCall, MidTier, PrepareTurn;
  }

  const NO_BUDGET: string := "Step budget exhausted after "

  /**
   What the model's last message leads to: its text if it asks for nothing, else its earliest terminal call.
   A question is the model's own only as long as no tool has been observed; from then on it is taken from the
   last observation.
   */
  predicate LastSays(s: State, action: Action, message: string) {
    && s.messages != [] && s.messages[|s.messages| - 1].AssistantMessage?
    && (var text, calls := s.messages[|s.messages| - 1].text, s.messages[|s.messages| - 1].toolCalls;
        if calls == [] then action.FinalAnswer? && message == (if text == "" then "Runtime loop completed." else text)
        else
          var k := FirstTerminal(calls);
          && k.Some? && ActionOf(calls[k.value].name) == action
          && message ==
             match action
             case FinalAnswer => Field(calls[k.value].arguments, "message", "")
             case Fail => Field(calls[k.value].arguments, "reason", "LLM reported failure.")
             case AskUser =>
               if s.lastObservation.None? then Field(calls[k.value].arguments, "question", "")
               else QuestionFrom(s.goal, s.lastObservation.value.observation))
  }

  /** Why a run ended: the model said so, or the budget ran out, or the model could not be reached. */
  predicate Justified(end: RunEnd) {
    end.outcome.Ended? ==>
      var action, message := end.outcome.action, end.outcome.message;
      || LastSays(end.state, action, message)
      || (action.Fail? && ((end.state.stepBudget == 0 && NO_BUDGET <= message) || CALL_FAILED <= message))
  }

  lemma {:induction false} Prefixes(a: string, b: string, c: string, d: string)
    ensures a <= a + b && a <= a + b + c && a <= a + b + c + d
  {
  }

  lemma PassGivesUp(cfg: Config, i: AttemptInput, goal: string, called: AttemptState, reactiveUsed: bool, armed: bool)
    ensures var result := Pass(cfg, i, goal, called, reactiveUsed, armed).1;
            result.Some? && result.value.GaveUp? ==> CALL_FAILED <= result.value.message
  {
    hide AnswerOf, Escalates, OneCall, CALL_FAILED;
    Prefixes(CALL_FAILED, " for goal: " + goal, "", "");
    if i.reply.ContextExceeded? {
      Prefixes(CALL_FAILED, ": context window still exceeded after reactive compact (" + i.reply.detail
                            + "); goal: " + goal, "", "");
    }
  }

  lemma GaveUpIsNoAnswer(cfg: Config, t: TurnInput, s: State, armed: bool)
    ensures var result := CallModel(cfg, t, s, armed).result; result.GaveUp? ==> CALL_FAILED <= result.message
  {
    hide Pass, MidTier, PrepareTurn, OneCall, CALL_FAILED;
    var start := AttemptState(if t.microcompacted.Some? then t.microcompacted.value else s.messages,
                              s.layer2Attempted, []);
    AttemptGivesUp(cfg, t, s.goal, start, false, PrepareTurn(cfg, t, s).rebuilt, armed);
  }

  lemma {:induction false} AttemptGivesUp(cfg: Config, t: TurnInput, goal: string, a: AttemptState, used: bool,
                                          rebuilt: bool, armed: bool)
    ensures var result := Attempt(cfg, t, goal, a, used, rebuilt, armed).result;
            result.GaveUp? ==> CALL_FAILED <= result.message
    decreases !used
  {
    hide Pass, MidTier, OneCall, CALL_FAILED;
    var i := if used then t.second else t.first;
    var before := if used then a else MidTier(a, i);
    var called := before.(events := before.events + OneCall(cfg, !used && rebuilt));
    PassGivesUp(cfg, i, goal, called, used, armed);
    var pass := Pass(cfg, i, goal, called, used, armed);
    if pass.1.None? {
      AttemptGivesUp(cfg, t, goal, pass.0, true, rebuilt, armed);
    }
  }

  lemma DecideSays(s: State, calls: seq<ToolCall>)
    requires FirstTerminal(calls).Some? && calls != []
    requires s.messages != [] && s.messages[|s.messages| - 1].AssistantMessage?
    requires s.messages[|s.messages| - 1].toolCalls == calls
    ensures Justified(Decide(s, calls[FirstTerminal(calls).value]))
  {
    hide FirstTerminal, Field;
  }

  /**
   However long a run, its result is accounted for by the state it ends in: a final answer or a failure is
   what the model's last message says, unless the run failed because its budget was spent or the model did
   not answer; a question is what that message asks if no tool has been observed, else what the last
   observation says.
   */
  lemma {:induction false} ResultIsJustified(cfg: Config, env: Adversary, s: State, armed: bool)
    ensures Justified(Run(cfg, env, s, armed))
    decreases s.stepBudget
  {
    hide PrepareTurn, AfterModel, AfterCalls, FirstTerminal, CallModel, Decide, NO_BUDGET, CALL_FAILED;
    var t := env(|s.trace|);
    if s.stepBudget == 0 {
      assert NO_BUDGET <= Run(cfg, env, s, armed).outcome.message by { BudgetMessage(s); }
    } else {
      var end := CallModel(cfg, t, s, armed).result;
      GaveUpIsNoAnswer(cfg, t, s, armed);
      if end.Reached? && end.toolCalls != [] {
        if FirstTerminal(end.toolCalls).None? {
          var next := Compact(cfg, t, AfterCalls(cfg, env, t, s, armed, end.text, end.toolCalls));
          AfterModelKeeps(cfg, t, s, armed);
          if !(armed && t.compactionTimesOut) {
            ResultIsJustified(cfg, env, next, armed);
          }
        } else {
          DecideSays(WithAssistant(AfterModel(cfg, t, s, armed), end.text, end.toolCalls), end.toolCalls);
        }
      }
    }
  }

  lemma BudgetMessage(s: State)
    ensures NO_BUDGET <= "Step budget exhausted after " + Json.Decimal(s.stepIndex) + " steps; goal: " + s.goal
  {
    hide Json.Decimal;
    Prefixes(NO_BUDGET, Json.Decimal(s.stepIndex), " steps; goal: ", s.goal);
  }

  // ---------- what the model is sent ----------

  /** Results answer the latest assistant message, in request order; nothing is asked while one is open. */
  predicate Settles(ms: seq<Message>, open: seq<string>)
    decreases |ms|
  {
    if ms == [] then open == []
    else if ms[0].AssistantMessage? then open == [] && Settles(ms[1..], Ids(ms[0].toolCalls))
    else if ms[0].ToolResult? then open != [] && open[0] == ms[0].toolUseId && Settles(ms[1..], open[1..])
    else Settles(ms[1..], open)
  }

  /** Every requested call has its result, and every result was requested. */
  predicate Settled(ms: seq<Message>) {
    Settles(ms, [])
  }

  lemma {:induction false} SettlesConcat(a: seq<Message>, b: seq<Message>, open: seq<string>)
    requires Settles(a, open) && Settles(b, [])
    ensures Settles(a + b, open)
    decreases |a|
  {
    if a == [] {
      assert a + b == b;
    } else {
      assert (a + b)[1..] == a[1..] + b;
      var rest :=
        if a[0].AssistantMessage? then Ids(a[0].toolCalls) else if a[0].ToolResult? then open[1..] else open;
      SettlesConcat(a[1..], b, rest);
    }
  }

  lemma {:induction false} AnswersSettle(calls: seq<ToolCall>, added: seq<Message>)
    requires AnswersOf(calls, added)
    ensures Settles(added, Ids(calls))
    decreases |calls|
  {
    if calls != [] {
      assert Ids(calls)[1..] == Ids(calls[1..]);
      if AnswersOf(calls[1..], added[1..]) {
        AnswersSettle(calls[1..], added[1..]);
      } else {
        AnswersSettle(calls[1..], added[2..]);
        assert added[1..][0] == added[1] && added[1..][1..] == added[2..];
      }
    }
  }

  /** A history of plain turns asks for nothing, so the buffer a run starts from is settled. */
  lemma {:induction false} PlainIsSettled(ms: seq<Message>)
    requires forall m :: m in ms ==> m.UserMessage? || (m.AssistantMessage? && m.toolCalls == [])
    ensures Settled(ms)
  {
    if ms != [] {
      PlainIsSettled(ms[1..]);
    }
  }

  predicate SettledOption(ms: Option<seq<Message>>) {
    ms.Some? ==> Settled(ms.value)
  }

  /** An adversary whose compactions and microcompactions hand back settled buffers. */
  ghost predicate RewritesSettled(env: Adversary) {
    forall n: nat ::
      var t := env(n);
      && SettledOption(t.microcompacted) && SettledOption(t.compacted)
      && SettledOption(t.first.midCompacted) && Settled(t.first.reactiveCompacted)
  }

  ghost predicate SettledSince(before: seq<TurnRecord>, after: seq<TurnRecord>) {
    before <= after && forall i :: |before| <= i < |after| ==> Settled(after[i].messages)
  }

  lemma SettledSinceTransitive(a: seq<TurnRecord>, b: seq<TurnRecord>, c: seq<TurnRecord>)
    requires SettledSince(a, b) && SettledSince(b, c)
    ensures SettledSince(a, c)
  {
    hide Settled;
    forall i | |a| <= i < |c|
      ensures Settled(c[i].messages)
    {
      if i < |b| {
        assert c[i] == b[i];
      }
    }
  }

  lemma AttemptSettled(cfg: Config, t: TurnInput, goal: string, a: AttemptState, rebuilt: bool, armed: bool)
    requires SettledOption(t.first.midCompacted) && Settled(t.first.reactiveCompacted) && Settled(a.messages)
    ensures Settled(Attempt(cfg, t, goal, a, false, rebuilt, armed).state.messages)
  {
    hide Settled, AnswerOf, Escalates, OneCall;
    var called := MidTier(a, t.first).(events := MidTier(a, t.first).events + OneCall(cfg, rebuilt));
    SecondAttemptSettled(cfg, t, goal,
                         called.(messages := t.first.reactiveCompacted, events := called.events + [ReactiveCompact]),
                         rebuilt, armed);
  }

  /** A second pass sends the buffer it was given. */
  lemma SecondAttemptSettled(cfg: Config, t: TurnInput, goal: string, a: AttemptState, rebuilt: bool, armed: bool)
    ensures Attempt(cfg, t, goal, a, true, rebuilt, armed).state.messages == a.messages
  {
    hide AnswerOf, Escalates, OneCall;
  }

  lemma ModelIsSentSettled(cfg: Config, env: Adversary, s: State, armed: bool)
    requires RewritesSettled(env) && Settled(s.messages)
    ensures var r := AfterModel(cfg, env(|s.trace|), s, armed);
            Settled(r.messages) && SettledSince(s.trace, r.trace) && r.depth == s.depth && r.stepBudget == s.stepBudget
  {
    hide Settled, Prepare, Attempt;
    var t := env(|s.trace|);
    assert SettledOption(t.microcompacted) && SettledOption(t.first.midCompacted);
    var start := AttemptState(if t.microcompacted.Some? then t.microcompacted.value else s.messages,
                              s.layer2Attempted, []);
    AttemptSettled(cfg, t, s.goal, start, PrepareTurn(cfg, t, s).rebuilt, armed);
  }

  lemma {:induction false} SubAgentSettled(cfg: Config, env: Adversary, arguments: Arguments, s: State)
    requires RewritesSettled(env)
    ensures SettledSince(s.trace, SubAgent(cfg, env, arguments, s).state.trace)
    decreases Nesting(s.depth), s.stepBudget, 0, 0
  {
    hide Run, Trim, Drop, RewritesSettled, Settled;
    var task := Trim(Field(arguments, "task", ""));
    if s.depth == 0 && task != "" {
      PlainIsSettled([UserMessage(task)]);
      RunSettled(cfg, env, SubState(cfg, s, task), cfg.timeoutSecs > 0);
    }
  }

  lemma {:induction false} ServeSettled(cfg: Config, env: Adversary, call: ToolCall, v: Service, step: nat, s: State)
    requires RewritesSettled(env)
    ensures SettledSince(s.trace, Serve(cfg, env, call, v, step, s).trace)
    decreases Nesting(s.depth), s.stepBudget, 1, 0
  {
    hide SubAgent, RewritesSettled, Settled, Search, SearchAnswer, ToolContent;
    if call.name == "Agent" {
      SubAgentSettled(cfg, env, call.arguments, Charged(s));
    }
  }

  lemma {:induction false} ServeAllSettled(cfg: Config, env: Adversary, t: TurnInput, calls: seq<ToolCall>, i: nat,
                                           step: nat, s: State)
    requires RewritesSettled(env) && i <= |calls|
    ensures SettledSince(s.trace, ServeAll(cfg, env, t, calls, i, step, s).trace)
    decreases Nesting(s.depth), s.stepBudget, 2, |calls| - i
  {
    hide Serve, RewritesSettled, Settled;
    if i < |calls| {
      var served := Serve(cfg, env, calls[i], ServiceOf(t, calls, i), step, s);
      ServeSettled(cfg, env, calls[i], ServiceOf(t, calls, i), step, s);
      ServeAllSettled(cfg, env, t, calls, i + 1, step, served);
      SettledSinceTransitive(s.trace, served.trace, ServeAll(cfg, env, t, calls, i, step, s).trace);
    }
  }

  /** A turn that continues leaves a settled buffer, and so did every turn of its sub-agents. */
  lemma {:induction false} TurnSettles(cfg: Config, env: Adversary, s: State, armed: bool, text: string,
                                       calls: seq<ToolCall>)
    requires RewritesSettled(env) && Settled(s.messages) && calls != []
    ensures var t := env(|s.trace|);
            var next := Compact(cfg, t, AfterCalls(cfg, env, t, s, armed, text, calls));
            Settled(next.messages) && SettledSince(s.trace, next.trace)
    decreases Nesting(s.depth), s.stepBudget, 3, 0
  {
    hide AfterModel, ServeAll, CallModel, Expected, At, Settled, Ids;
    var t := env(|s.trace|);
    ModelIsSentSettled(cfg, env, s, armed);
    var reached := AfterModel(cfg, t, s, armed);
    var answered, served := WithAssistant(reached, text, calls), AfterCalls(cfg, env, t, s, armed, text, calls);
    ServeAllSettled(cfg, env, t, calls, 0, s.stepIndex + 1, answered);
    SettledSinceTransitive(s.trace, answered.trace, served.trace);
    ServeAllServes(cfg, env, t, calls, 0, s.stepIndex + 1, answered);
    assert calls[0..] == calls;
    AnswersKeepSettled(reached.messages, text, calls, served.messages);
    assert SettledOption(t.compacted);
  }

  lemma {:induction false} AnswersKeepSettled(before: seq<Message>, text: string, calls: seq<ToolCall>,
                                              after: seq<Message>)
    requires Settled(before) && before + [AssistantMessage(text, calls)] <= after
    requires AnswersOf(calls, after[|before| + 1..])
    ensures Settled(after)
  {
    hide AnswersOf, Ids;
    var added := after[|before| + 1..];
    var turn := [AssistantMessage(text, calls)] + added;
    AnswersSettle(calls, added);
    assert turn[1..] == added;
    SettlesConcat(before, turn, []);
    assert after == before + turn;
  }

  /** The buffer a run builds from a session's history and the user's input is settled. */
  lemma InitialIsSettled(history: seq<Turn>, input: string)
    ensures Settled(InitialMessages(history, input))
  {
    HistoryIsPlain(history);
    PlainIsSettled(InitialMessages(history, input));
  }

  lemma {:induction false} HistoryIsPlain(history: seq<Turn>)
    ensures forall m :: m in HistoryMessages(history) ==> m.UserMessage? || (m.AssistantMessage? && m.toolCalls == [])
  {
    if history != [] {
      HistoryIsPlain(history[1..]);
    }
  }

  /** Settled, but for the assistant message with which a run may end. */
  predicate SettledBut(ms: seq<Message>) {
    Settled(ms) || (ms != [] && ms[|ms| - 1].AssistantMessage? && Settled(ms[..|ms| - 1]))
  }

  /**
   The tool-use discipline of a whole run: if it starts from a settled buffer and every rewrite hands
   back a settled one, then on every turn, of the run and of its sub-agents, the buffer sent last answers
   every call that was ever requested in it, by id and in order, and contains no stray result.
   */
  lemma {:induction false} RunSettled(cfg: Config, env: Adversary, s: State, armed: bool)
    requires RewritesSettled(env) && Settled(s.messages)
    ensures var end := Run(cfg, env, s, armed);
            SettledSince(s.trace, end.state.trace) && SettledBut(end.state.messages)
    decreases Nesting(s.depth), s.stepBudget, 4, 0
  {
    hide AfterModel, AfterCalls, CallModel, PrepareTurn, Settled, RewritesSettled, FirstTerminal;
    var t := env(|s.trace|);
    if s.stepBudget > 0 {
      var reached, end := AfterModel(cfg, t, s, armed), CallModel(cfg, t, s, armed).result;
      ModelIsSentSettled(cfg, env, s, armed);
      if end.Reached? {
        var answered := WithAssistant(reached, end.text, end.toolCalls);
        assert answered.messages[..|answered.messages| - 1] == reached.messages;
        if end.toolCalls != [] && FirstTerminal(end.toolCalls).None? {
          TurnSettles(cfg, env, s, armed, end.text, end.toolCalls);
          var next := Compact(cfg, t, AfterCalls(cfg, env, t, s, armed, end.text, end.toolCalls));
          if !(armed && t.compactionTimesOut) {
            RunSettled(cfg, env, next, armed);
            SettledSinceTransitive(s.trace, next.trace, Run(cfg, env, s, armed).state.trace);
          }
        }
      }
    }
  }
}
