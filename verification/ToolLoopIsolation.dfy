/** What does not flow in the tool loop between a parent and its sub-agents. */
module ToolLoopIsolation {
  import opened Prelude
  import Json
  import opened SessionLog
  import opened Messages
  import opened ToolSchema
  import opened ToolLoop
  import opened ToolLoopProofs
  import opened WorkingMemory

  // ---------- from a parent to its sub-agents ----------

  /** States that differ only in what was recorded before, which is equally many LLM turns. */
  predicate Alike(a: State, b: State) {
    && |a.trace| == |b.trace|
    && a.(trace := [], services := [], told := []) == b.(trace := [], services := [], told := [])
  }

  /** Two lists have grown from two others by the same elements. */
  predicate SameTail<T(==)>(a: seq<T>, b: seq<T>, c: seq<T>, d: seq<T>) {
    a <= c && b <= d && c[|a|..] == d[|b|..]
  }

  /** The same turns, services and questions were added on both sides. */
  predicate SameRecords(a: State, b: State, c: State, d: State) {
    && SameTail(a.trace, b.trace, c.trace, d.trace)
    && SameTail(a.services, b.services, c.services, d.services)
    && SameTail(a.told, b.told, c.told, d.told)
  }

  /** Two states have grown from two others by the same turns, services and questions. */
  predicate Grown(a: State, b: State, c: State, d: State) {
    Alike(c, d) && SameRecords(a, b, c, d)
  }

  lemma {:induction false} SameTailTransitive<T>(a: seq<T>, b: seq<T>, c: seq<T>, d: seq<T>, e: seq<T>, f: seq<T>)
    requires SameTail(a, b, c, d) && SameTail(c, d, e, f)
    ensures SameTail(a, b, e, f)
  {
    assert e[|a|..] == c[|a|..] + e[|c|..];
    assert f[|b|..] == d[|b|..] + f[|d|..];
  }

  lemma {:induction false} SameTailSnoc<T>(a: seq<T>, b: seq<T>, x: T)
    ensures SameTail(a, b, a + [x], b + [x]) && SameTail(a, b, a, b)
  {
  }

  lemma GrownTransitive(a: State, b: State, c: State, d: State, e: State, f: State)
    requires Grown(a, b, c, d) && Grown(c, d, e, f)
    ensures Grown(a, b, e, f)
  {
    hide Alike, SameTail;
    SameTailTransitive(a.trace, b.trace, c.trace, d.trace, e.trace, f.trace);
    SameTailTransitive(a.services, b.services, c.services, d.services, e.services, f.services);
    SameTailTransitive(a.told, b.told, c.told, d.told, e.told, f.told);
  }

  lemma ModelAlike(cfg: Config, t: TurnInput, a: State, b: State, armed: bool)
    requires Alike(a, b)
    ensures CallModel(cfg, t, a, armed).result == CallModel(cfg, t, b, armed).result
    ensures Grown(a, b, AfterModel(cfg, t, a, armed), AfterModel(cfg, t, b, armed))
  {
    hide Attempt, Prepare;
  }

  lemma AnswerAlike(a: State, b: State, c: State, d: State, call: ToolCall, kind: ServiceKind, content: string,
                    isError: bool)
    requires Alike(c, d) && c.trace == a.trace && d.trace == b.trace && c.services == a.services
             && d.services == b.services && c.told == a.told && d.told == b.told
    ensures Grown(a, b, Answer(c, call, kind, content, isError), Answer(d, call, kind, content, isError))
  {
  }

  lemma ServeToolAlike(call: ToolCall, v: Service, step: nat, a: State, b: State)
    requires Alike(a, b)
    ensures Grown(a, b, ServeTool(a, call, v, step), ServeTool(b, call, v, step))
  {
    hide ToolContent, Warning;
  }

  /** Below the top level a call is served alike in states that are alike. */
  lemma ServeAlike(cfg: Config, env: Adversary, call: ToolCall, v: Service, step: nat, a: State, b: State)
    requires Alike(a, b) && a.depth >= 1
    ensures Grown(a, b, Serve(cfg, env, call, v, step, a), Serve(cfg, env, call, v, step, b))
  {
    hide SubAgent, Run, SubReport, SubState, Trim, Grown, Answer, ServeTool, Search, SearchAnswer, Field, IsTaskTool;
    if cfg.hasGate && v.denial.Some? {
      AnswerAlike(a, b, Charged(a), Charged(b), call, Denied, "[Tool denied] " + v.denial.value, true);
    } else if call.name == TOOL_SEARCH {
      var name := Field(call.arguments, "tool_name", "");
      AnswerAlike(a, b, Charged(a).(schema := Search(a.schema, name)), Charged(b).(schema := Search(b.schema, name)),
                  call, Searched, SearchAnswer(a.schema, name), false);
    } else if IsTaskTool(call.name) {
      AnswerAlike(a, b, Charged(a), Charged(b), call, TaskTool, v.taskAnswer, "Error:" <= v.taskAnswer);
    } else if call.name == "Agent" {
      var refusal := "[Sub-agent error] Sub-agents cannot spawn further sub-agents.";
      SubAgentReports(cfg, env, call.arguments, Charged(a));
      SubAgentReports(cfg, env, call.arguments, Charged(b));
      AnswerAlike(a, b, Charged(a), Charged(b), call, SubAgentCall, refusal, true);
    } else {
      ServeToolAlike(call, v, step, a, b);
    }
  }

  lemma {:induction false} ServeAllAlike(cfg: Config, env: Adversary, t: TurnInput, calls: seq<ToolCall>, i: nat,
                                         step: nat, a: State, b: State)
    requires Alike(a, b) && a.depth >= 1 && i <= |calls|
    ensures Grown(a, b, ServeAll(cfg, env, t, calls, i, step, a), ServeAll(cfg, env, t, calls, i, step, b))
    decreases |calls| - i
  {
    hide Serve;
    if i < |calls| {
      var v := ServiceOf(t, calls, i);
      var c, d := Serve(cfg, env, calls[i], v, step, a), Serve(cfg, env, calls[i], v, step, b);
      ServeAlike(cfg, env, calls[i], v, step, a, b);
      ServeAllAlike(cfg, env, t, calls, i + 1, step, c, d);
      GrownTransitive(a, b, c, d, ServeAll(cfg, env, t, calls, i, step, a), ServeAll(cfg, env, t, calls, i, step, b));
    }
  }

  /** The same change to everything but the records keeps what has grown. */
  lemma SameGrowth(a: State, b: State, c: State, d: State, e: State, f: State)
    requires Grown(a, b, c, d) && Alike(e, f)
    requires e.trace == c.trace && e.services == c.services && e.told == c.told
    requires f.trace == d.trace && f.services == d.services && f.told == d.told
    ensures Grown(a, b, e, f)
  {
  }

  /** Compaction tells both sides the same and folds the same history. */
  lemma {:induction false} CompactAlike(cfg: Config, t: TurnInput, a: State, b: State, c: State, d: State)
    requires Grown(a, b, c, d)
    ensures Grown(a, b, Compact(cfg, t, c), Compact(cfg, t, d))
  {
    hide SameTail, Folded, ToldBy;
    if t.fold.Some? {
      SameTailPlus(a.told, b.told, c.told, d.told, ToldBy(c.journal, t.fold.value, cfg.retainTailSteps));
    }
  }

  lemma {:induction false} SameTailPlus<T>(a: seq<T>, b: seq<T>, c: seq<T>, d: seq<T>, more: seq<T>)
    requires SameTail(a, b, c, d)
    ensures SameTail(a, b, c + more, d + more)
  {
    assert (c + more)[|a|..] == c[|a|..] + more && (d + more)[|b|..] == d[|b|..] + more;
  }

  lemma {:induction false} TurnAlike(cfg: Config, env: Adversary, a: State, b: State, armed: bool, text: string,
                                     calls: seq<ToolCall>)
    requires Alike(a, b) && a.depth >= 1 && calls != []
    ensures var t := env(|a.trace|);
            Grown(a, b, Compact(cfg, t, AfterCalls(cfg, env, t, a, armed, text, calls)),
                  Compact(cfg, t, AfterCalls(cfg, env, t, b, armed, text, calls)))
  {
    hide AfterModel, ServeAll, CallModel, Compact, SameTail;
    var t := env(|a.trace|);
    ModelAlike(cfg, t, a, b, armed);
    AfterModelKeeps(cfg, t, a, armed);
    var c, d := WithAssistant(AfterModel(cfg, t, a, armed), text, calls),
        WithAssistant(AfterModel(cfg, t, b, armed), text, calls);
    SameGrowth(a, b, AfterModel(cfg, t, a, armed), AfterModel(cfg, t, b, armed), c, d);
    ServeAllAlike(cfg, env, t, calls, 0, a.stepIndex + 1, c, d);
    var e, f := AfterCalls(cfg, env, t, a, armed, text, calls), AfterCalls(cfg, env, t, b, armed, text, calls);
    GrownTransitive(a, b, c, d, e, f);
    CompactAlike(cfg, t, a, b, e, f);
  }

  /** The turn goes on after its calls. */
  predicate GoesOn(end: AttemptResult) {
    end.Reached? && end.toolCalls != [] && FirstTerminal(end.toolCalls).None?
  }

  lemma RecordedAlike(a: State, b: State, c: State, d: State, action: Action)
    requires Grown(a, b, c, d)
    ensures forall reason, outcome ::
              Grown(a, b, RecordTerminal(c, action, reason, outcome), RecordTerminal(d, action, reason, outcome))
  {
    hide SameTail;
  }

  lemma {:induction false} AskedAlike(a: State, b: State, c: State, d: State, proposed: string)
    requires Grown(a, b, c, d)
    ensures var x, y := Ask(c, proposed), Ask(d, proposed); x.outcome == y.outcome && Grown(a, b, x.state, y.state)
  {
    hide Question, SameTail, RepeatsLargeFile;
    var large := RepeatsLargeFile(c.lastObservation);
    var asked := Asked(c.depth, Text(Question(c.goal, c.lastObservation, proposed), if large then Some(0) else None));
    SameTailSnoc(c.told, d.told, asked);
    SameTailTransitive(a.told, b.told, c.told, d.told, c.told + [asked], d.told + [asked]);
  }

  lemma DecidedAlike(a: State, b: State, c: State, d: State, call: ToolCall)
    requires Grown(a, b, c, d) && IsTerminal(call.name)
    ensures var x, y := Decide(c, call), Decide(d, call); x.outcome == y.outcome && Grown(a, b, x.state, y.state)
  {
    hide RecordTerminal, Grown, Field, Ask;
    RecordedAlike(a, b, c, d, FinalAnswer);
    RecordedAlike(a, b, c, d, Fail);
    AskedAlike(a, b, c, d, Field(call.arguments, "question", ""));
  }

  lemma EndsAlike(cfg: Config, env: Adversary, a: State, b: State, armed: bool)
    requires Alike(a, b) && (a.stepBudget == 0 || !GoesOn(CallModel(cfg, env(|a.trace|), a, armed).result))
    ensures var x, y := Run(cfg, env, a, armed), Run(cfg, env, b, armed);
            x.outcome == y.outcome && Grown(a, b, x.state, y.state)
  {
    hide AfterModel, CallModel, FirstTerminal, PrepareTurn, Grown, RecordTerminal, Decide;
    var t := env(|a.trace|);
    if a.stepBudget == 0 {
      ToolsAlike(cfg, t, a, b);
      NothingGrown(a, b);
      var c, d := a.(schema := PrepareTurn(cfg, t, a).schema), b.(schema := PrepareTurn(cfg, t, b).schema);
      SameGrowth(a, b, a, b, c, d);
      RecordedAlike(a, b, c, d, Fail);
    } else {
      ModelAlike(cfg, t, a, b, armed);
      var c, d, end := AfterModel(cfg, t, a, armed), AfterModel(cfg, t, b, armed), CallModel(cfg, t, a, armed).result;
      GrownIsAlike(a, b, c, d);
      if end.GaveUp? {
        RecordedAlike(a, b, c, d, Fail);
      } else if end.Reached? {
        var e, f := WithAssistant(c, end.text, end.toolCalls), WithAssistant(d, end.text, end.toolCalls);
        SameGrowth(a, b, c, d, e, f);
        if end.toolCalls == [] {
          RecordedAlike(a, b, e, f, FinalAnswer);
        } else {
          DecidedAlike(a, b, e, f, end.toolCalls[FirstTerminal(end.toolCalls).value]);
        }
      }
    }
  }

  /** Below the top level, runs from states that are alike take the same turns to the same end. */
  lemma {:induction false} RunAlike(cfg: Config, env: Adversary, a: State, b: State, armed: bool)
    requires Alike(a, b) && a.depth >= 1
    ensures var x, y := Run(cfg, env, a, armed), Run(cfg, env, b, armed);
            x.outcome == y.outcome && Grown(a, b, x.state, y.state)
    decreases a.stepBudget
  {
    hide AfterModel, AfterCalls, CallModel, FirstTerminal, PrepareTurn, Grown;
    var t := env(|a.trace|);
    var end := CallModel(cfg, t, a, armed).result;
    if a.stepBudget == 0 || !GoesOn(end) {
      EndsAlike(cfg, env, a, b, armed);
    } else {
      ModelAlike(cfg, t, a, b, armed);
      TurnAlike(cfg, env, a, b, armed, end.text, end.toolCalls);
      var e := Compact(cfg, t, AfterCalls(cfg, env, t, a, armed, end.text, end.toolCalls));
      var f := Compact(cfg, t, AfterCalls(cfg, env, t, b, armed, end.text, end.toolCalls));
      GrownIsAlike(a, b, e, f);
      if !(armed && t.compactionTimesOut) {
        RunAlike(cfg, env, e, f, armed);
        GrownTransitive(a, b, e, f, Run(cfg, env, a, armed).state, Run(cfg, env, b, armed).state);
      }
    }
  }

  lemma GrownIsAlike(a: State, b: State, c: State, d: State)
    requires Grown(a, b, c, d)
    ensures Alike(c, d)
  {
  }

  lemma NothingGrown(a: State, b: State)
    requires Alike(a, b)
    ensures Grown(a, b, a, b)
  {
  }

  lemma ToolsAlike(cfg: Config, t: TurnInput, a: State, b: State)
    requires Alike(a, b)
    ensures PrepareTurn(cfg, t, a) == PrepareTurn(cfg, t, b)
  {
  }

  /**
   A sub-agent knows nothing of its parent but the tools it sees, its budget, its context (directory, route,
   resources and the memory of its request), and what it is asked: from parents that agree on those, at the same
   point of a life, it sends the same requests and makes the same report, services and questions as long as it is
   answered alike, whatever the parents' message buffers, goals, recovery budgets, observations and step histories,
   wherever their own instructions were read, and whatever went on before.
   */
  lemma SubAgentIsIndependent(cfg: Config, env: Adversary, arguments: Arguments, a: State, b: State)
    requires a.depth == b.depth && a.stepBudget == b.stepBudget && a.schema.visible == b.schema.visible
    requires Entered(a.context) == Entered(b.context) && |a.trace| == |b.trace|
    ensures var x, y := SubAgent(cfg, env, arguments, a), SubAgent(cfg, env, arguments, b);
            && x.content == y.content && x.isError == y.isError && x.state.stepBudget == y.state.stepBudget
            && SameRecords(a, b, x.state, y.state)
  {
    hide Run, Trim, Field, SubReport, SubState, Alike, SubAgent, Entered, SameTail;
    SubAgentReports(cfg, env, arguments, a);
    SubAgentReports(cfg, env, arguments, b);
    var task := Trim(Field(arguments, "task", ""));
    if a.depth == 0 && task != "" {
      SubStatesAlike(cfg, a, b, task);
      RunAlike(cfg, env, SubState(cfg, a, task), SubState(cfg, b, task), cfg.timeoutSecs > 0);
    } else {
      NothingRecorded(a, b);
    }
  }

  lemma NothingRecorded(a: State, b: State)
    ensures SameRecords(a, b, a, b)
  {
  }

  lemma SubStatesAlike(cfg: Config, a: State, b: State, task: string)
    requires a.depth == b.depth && a.stepBudget == b.stepBudget && a.schema.visible == b.schema.visible
    requires Entered(a.context) == Entered(b.context) && |a.trace| == |b.trace|
    ensures Alike(SubState(cfg, a, task), SubState(cfg, b, task)) && SubState(cfg, a, task).depth >= 1
    ensures var x := SubState(cfg, a, task);
            x.trace == a.trace && x.services == a.services && x.told == a.told
    ensures var y := SubState(cfg, b, task);
            y.trace == b.trace && y.services == b.services && y.told == b.told
  {
    hide Drop, Entered;
  }

  // ---------- what a sub-agent inherits of its parent's conversation ----------

  /** Below the top level, the first request of a run is built from the context the run starts with. */
  lemma FirstRequest(cfg: Config, env: Adversary, s: State, armed: bool)
    requires s.depth >= 1 && s.stepBudget > 0
    ensures var r := Run(cfg, env, s, armed).state.trace;
            |s.trace| < |r| && s.trace <= r && r[|s.trace|].context == s.context && r[|s.trace|].depth == s.depth
  {
    hide CallModel, PrepareTurn, AfterCalls, FirstTerminal, Compact, Folded, ToldBy, SameTail;
    var t := env(|s.trace|);
    var reached, end := AfterModel(cfg, t, s, armed), CallModel(cfg, t, s, armed).result;
    assert reached.trace[|s.trace|].context == s.context;
    if GoesOn(end) {
      var answered := WithAssistant(reached, end.text, end.toolCalls);
      var next := Compact(cfg, t, AfterCalls(cfg, env, t, s, armed, end.text, end.toolCalls));
      LaterCalls(cfg, env, t, s, armed, end.text, end.toolCalls);
      RunAlike(cfg, env, next, next, armed);
      LaterTurns(next, Run(cfg, env, next, armed).state);
    }
  }

  lemma LaterCalls(cfg: Config, env: Adversary, t: TurnInput, s: State, armed: bool, text: string, calls: seq<ToolCall>)
    requires s.depth >= 1 && calls != []
    ensures AfterModel(cfg, t, s, armed).trace <= AfterCalls(cfg, env, t, s, armed, text, calls).trace
  {
    hide AfterModel, ServeAll, SameTail;
    var answered := WithAssistant(AfterModel(cfg, t, s, armed), text, calls);
    ServeAllAlike(cfg, env, t, calls, 0, s.stepIndex + 1, answered, answered);
    LaterTurns(answered, AfterCalls(cfg, env, t, s, armed, text, calls));
  }

  lemma LaterTurns(s: State, r: State)
    requires Grown(s, s, r, r)
    ensures s.trace <= r.trace
  {
  }

  /** A sub-agent's first request is built from the memory of its parent's request. */
  lemma SubAgentIsToldTheMemory(cfg: Config, env: Adversary, arguments: Arguments, s: State)
    requires s.depth == 0 && Trim(Field(arguments, "task", "")) != "" && SubBudget(cfg, s) > 0
    ensures var r := SubAgent(cfg, env, arguments, s).state.trace;
            |s.trace| < |r| && r[|s.trace|].depth == 1 && r[|s.trace|].context.memory == s.context.memory
  {
    hide Run, Trim, Field, SubReport, SubAgent, Drop;
    SubAgentReports(cfg, env, arguments, s);
    FirstRequest(cfg, env, SubState(cfg, s, Trim(Field(arguments, "task", ""))), cfg.timeoutSecs > 0);
  }

  lemma {:induction false} JoinSnoc(parts: seq<string>, last: string, separator: string)
    ensures Join(parts + [last], separator) == if parts == [] then last else Join(parts, separator) + separator + last
  {
    if |parts| > 1 {
      JoinSnoc(parts[1..], last, separator);
      assert (parts + [last])[1..] == parts[1..] + [last];
    }
  }

  lemma {:induction false} SamePrefix(a: string, x: string, y: string)
    requires x != y
    ensures a + x != a + y
  {
    assert (a + x)[|a|..] == x && (a + y)[|a|..] == y;
  }

  /** Histories that part in their last turn give different memory sections. */
  lemma ContinuityTellsTurnsApart(history: seq<Turn>, t: Turn, u: Turn, recall: string, summary: string)
    requires t.role == u.role && t.content != u.content
    ensures Sections(history + [t], recall, summary) != Sections(history + [u], recall, summary)
  {
    hide Join, Trim;
    assert (history + [t])[..|history|] == history && (history + [u])[..|history|] == history;
    JoinSnoc(ContinuityLines(history), ContinuityLine(t), "\n");
    JoinSnoc(ContinuityLines(history), ContinuityLine(u), "\n");
    SamePrefix("- " + RoleLabel(t.role) + ": ", t.content, u.content);
    SamePrefix(if history == [] then "" else Join(ContinuityLines(history), "\n") + "\n", ContinuityLine(t),
               ContinuityLine(u));
  }

  lemma {:induction false} TrimKeeps(text: string)
    requires text != "" && !IsWhitespace(text[0]) && !IsWhitespace(text[|text| - 1])
    ensures Trim(text) == text
  {
  }

  /** The block of the system prompt for a session of one turn. */
  lemma OneTurnPrompt(t: Turn)
    requires t.content != "" && !IsWhitespace(t.content[|t.content| - 1]) && |t.content| < 30_000
    ensures MemoryBlock(Sections([t], "", "")) ==
            "# Memory\n\n" + ("Short-term continuity:\n" + ContinuityLine(t))
  {
    hide Trim;
    var line := ContinuityLine(t);
    assert [t][..0] == [];
    assert ContinuityLines([t]) == [line] && Join([line], "\n") == line;
    TrimKeeps(line);
    assert Trim("") == "" by { EmptyIsTrimmed(); }
    assert NamedSection("Short-term continuity", line) == ["Short-term continuity" + ":\n" + line];
    assert MemoryText(Sections([t], "", "")) == "Short-term continuity" + ":\n" + line;
    Assoc("Short-term continuity", ":\n", line);
    assert "Short-term continuity" + ":\n" == "Short-term continuity:\n";
  }

  lemma EmptyIsTrimmed()
    ensures Trim("") == ""
  {
  }

  /** And the difference shows in the system prompt itself. */
  lemma PromptTellsTurnsApart(t: Turn, u: Turn)
    requires t.role == u.role && t.content != u.content
    requires t.content != "" && !IsWhitespace(t.content[|t.content| - 1]) && |t.content| < 30_000
    requires u.content != "" && !IsWhitespace(u.content[|u.content| - 1]) && |u.content| < 30_000
    ensures MemoryBlock(Sections([t], "", "")) != MemoryBlock(Sections([u], "", ""))
  {
    hide MemoryBlock, Sections;
    OneTurnPrompt(t);
    OneTurnPrompt(u);
    SamePrefix("- " + RoleLabel(t.role) + ": ", t.content, u.content);
    SamePrefix("Short-term continuity:\n", ContinuityLine(t), ContinuityLine(u));
    SamePrefix("# Memory\n\n", "Short-term continuity:\n" + ContinuityLine(t),
               "Short-term continuity:\n" + ContinuityLine(u));
  }

  /**
   So the history of a session reaches every sub-agent that its requests spawn: two sessions that differ in a
   turn send different requests on the first turn of a sub-agent, for the same task.
   */
  lemma HistoryReachesSubAgents(cfg: Config, env: Adversary, arguments: Arguments, history: seq<Turn>, t: Turn, u: Turn,
                                i: Intake, directory: string, candidates: seq<string>, resources: seq<string>,
                                budget: nat)
    requires t.role == u.role && t.content != u.content
    requires Trim(Field(arguments, "task", "")) != "" && cfg.maxSubSteps > 0 && budget > 0
    ensures var a := Begin(cfg, i.(history := history + [t]), directory, candidates, resources, budget);
            var b := Begin(cfg, i.(history := history + [u]), directory, candidates, resources, budget);
            var x, y := SubAgent(cfg, env, arguments, a).state, SubAgent(cfg, env, arguments, b).state;
            x.trace != [] && y.trace != [] && x.trace[0].context.memory != y.trace[0].context.memory
  {
    hide Trim, Field, SubAgent, Sections, InitialMessages, Fresh;
    ContinuityTellsTurnsApart(history, t, u, i.recall, "");
    SubAgentIsToldTheMemory(cfg, env, arguments,
                            Begin(cfg, i.(history := history + [t]), directory, candidates, resources, budget));
    SubAgentIsToldTheMemory(cfg, env, arguments,
                            Begin(cfg, i.(history := history + [u]), directory, candidates, resources, budget));
  }

  // ---------- from a sub-agent to its parent ----------

  const CUT_NOTICE: string := "...\n[Sub-agent response truncated to 4000 chars]"

  lemma FourThousand()
    ensures Json.Decimal(MAX_SUB_AGENT_RESULT_CHARS) == "4000"
  {
    assert Json.Decimal(4) == "4" && Json.Decimal(40) == "40" && Json.Decimal(400) == "400";
  }

  /**
   A report of at most 4000 characters is passed on whole; of a longer one the first 4000 and a notice, so
   that nothing a sub-agent writes costs its parent more than 4048 characters.
   */
  lemma ReportIsBounded(message: string)
    ensures |TruncateSubAgentResult(message)| <= MAX_SUB_AGENT_RESULT_CHARS + |CUT_NOTICE| == 4048
    ensures |message| <= MAX_SUB_AGENT_RESULT_CHARS ==> TruncateSubAgentResult(message) == message
    ensures |message| > MAX_SUB_AGENT_RESULT_CHARS ==>
              TruncateSubAgentResult(message) == message[..MAX_SUB_AGENT_RESULT_CHARS] + CUT_NOTICE
  {
    FourThousand();
    if |message| > MAX_SUB_AGENT_RESULT_CHARS {
      var notice := "...\n[Sub-agent response truncated to " + "4000" + " chars]";
      assert notice == CUT_NOTICE;
      ConcatsOnce(message[..MAX_SUB_AGENT_RESULT_CHARS], "...\n[Sub-agent response truncated to ", "4000", " chars]");
    }
  }

  lemma {:induction false} ConcatsOnce(a: string, b: string, c: string, d: string)
    ensures a + b + c + d == a + (b + c + d)
  {
  }
}
