/** Runs in which what is in a file over the read limit gets out, one for each way. */
module LargeFileWitnesses {
  import opened Prelude
  import Json
  import opened SessionLog
  import opened Messages
  import opened ToolSchema
  import opened WorkingMemory
  import opened LargeFileTexts
  import opened ToolLoop
  import opened ToolLoopProofs
  import opened ToolLoopRuns
  import opened ToolLoopLargeFiles

  /** An answer without text that makes some calls. */
  function CallsAnswer(calls: seq<ToolCall>): Reply {
    Answered(Completion("", calls, [], None, false, None, None))
  }

  const ASK: ToolCall := ToolCall("1", "ask_user", map[])
  const READ: ToolCall := ToolCall("1", "Read", map[])

  lemma AnswerIsReached(cfg: Config, t: TurnInput, s: State, calls: seq<ToolCall>)
    requires !cfg.hasSender && t.first.reply == CallsAnswer(calls)
    ensures var a := CallModel(cfg, t, s, false);
            a.result == Reached("", calls) && ReactiveCompact !in a.state.events
  {
    hide Prepare;
  }

  lemma CallsAreReached(cfg: Config, t: TurnInput, s: State, calls: seq<ToolCall>)
    requires !cfg.hasSender && t.first.reply == CallsAnswer(calls)
    ensures CallModel(cfg, t, s, false).result == Reached("", calls)
    ensures var r := AfterModel(cfg, t, s, false);
            && r == s.(schema := r.schema, layer2Attempted := r.layer2Attempted, messages := r.messages,
                       trace := r.trace)
            && |r.trace| == |s.trace| + 1 && s.trace <= r.trace && r.trace[|s.trace|].context == s.context
  {
    hide CallModel, PrepareTurn, CallsAnswer;
    AnswerIsReached(cfg, t, s, calls);
  }

  lemma AskingDoes(s: State)
    ensures var end, question := Ask(s, ""), Question(s.goal, s.lastObservation, "");
            && end.outcome == Ended(AskUser, question) && end.state.trace == s.trace
            && s.journal.steps <= end.state.journal.steps
            && end.state.stepBudget == s.stepBudget && end.state.journal.summary == s.journal.summary
            && end.state.told == s.told + [Asked(s.depth, Text(question, if RepeatsLargeFile(s.lastObservation)
                                                                         then Some(0) else None))]
  {
    hide Question, RepeatsLargeFile;
  }

  /** A turn on which the model asks the user ends the run with the question it leads to. */
  lemma AskingEnds(cfg: Config, env: Adversary, s: State)
    requires !cfg.hasSender && env(|s.trace|).first.reply == CallsAnswer([ASK]) && s.stepBudget > 0
    ensures var end := Run(cfg, env, s, false);
            var question := Question(s.goal, s.lastObservation, "");
            && end.outcome == Ended(AskUser, question) && |end.state.trace| == |s.trace| + 1
            && s.trace <= end.state.trace && end.state.trace[|s.trace|].context == s.context
            && s.journal.steps <= end.state.journal.steps
            && end.state.stepBudget == s.stepBudget && end.state.journal.summary == s.journal.summary
            && end.state.told == s.told + [Asked(s.depth, Text(question, if RepeatsLargeFile(s.lastObservation)
                                                                         then Some(0) else None))]
  {
    hide CallModel, PrepareTurn, AfterModel, CallsAnswer, Question, RepeatsLargeFile, Ask;
    var t := env(|s.trace|);
    CallsAreReached(cfg, t, s, [ASK]);
    assert FirstTerminal([ASK]) == Some(0);
    var answered := WithAssistant(AfterModel(cfg, t, s, false), "", [ASK]);
    assert Run(cfg, env, s, false) == Ask(answered, Field(ASK.arguments, "question", ""));
    AskingDoes(answered);
  }

  /** A turn whose calls are none of them terminal goes on. */
  lemma CallingTurn(cfg: Config, env: Adversary, s: State, calls: seq<ToolCall>)
    requires !cfg.hasSender && env(|s.trace|).first.reply == CallsAnswer(calls) && s.stepBudget > 0
    requires calls != [] && FirstTerminal(calls).None?
    ensures var t := env(|s.trace|);
            var answered := WithAssistant(AfterModel(cfg, t, s, false), "", calls);
            Run(cfg, env, s, false) ==
            Run(cfg, env, Compact(cfg, t, ServeAll(cfg, env, t, calls, 0, s.stepIndex + 1, answered)), false)
  {
    hide CallModel, PrepareTurn, AfterModel, CallsAnswer, ServeAll, Compact, FirstTerminal, Decide;
    CallsAreReached(cfg, env(|s.trace|), s, calls);
  }

  /** A model that reads a file over the limit on one turn and asks the user on the next. */
  predicate ReadsThenAsks(env: Adversary, n: nat, v: Service) {
    && env(n).first.reply == CallsAnswer([READ]) && env(n + 1).first.reply == CallsAnswer([ASK])
    && env(n).services(0, "Read") == v && v.contentBytes > READ_LIMIT_BYTES
    && v.denial.None? && v.observation.errorType.None?
  }

  /** A `Read` that is not denied: it is paid for, recorded and remembered. */
  lemma ReadIsServed(cfg: Config, env: Adversary, call: ToolCall, v: Service, step: nat, s: State)
    requires v.denial.None? && s.stepBudget > 0 && (call.name == "Read" || call.name == "Inspect")
    ensures var r := Serve(cfg, env, call, v, step, s);
            && r.trace == s.trace && r.told == s.told && r.goal == s.goal && r.depth == s.depth
            && r.context.memory == s.context.memory && r.stepBudget == s.stepBudget - 1
            && r.lastObservation == Some(Seen(call.name, v.contentBytes, v.observation))
            && r.journal == Recorded(s.journal, ToolStep(call, v, step))
  {
    hide ToolContent, Warning, RecoveryAfter, NextDirectory, Recorded, ToolStep;
  }

  /**
   The model is told that the file is too large; the user is shown it as a question, whatever the model meant
   to ask. So two files of one size make two different runs.
   */
  lemma LargeFileReachesTheUser(cfg: Config, env: Adversary, s: State, v: Service)
    requires !cfg.hasSender && s.stepBudget >= 2 && ReadsThenAsks(env, |s.trace|, v)
    ensures Run(cfg, env, s, false).outcome == Ended(AskUser, v.observation.message)
  {
    hide Run, CallsAnswer, AfterModel, Serve, Compact, Recorded, ToolStep;
    var t := env(|s.trace|);
    CallsAreReached(cfg, t, s, [READ]);
    CallingTurn(cfg, env, s, [READ]);
    var answered := WithAssistant(AfterModel(cfg, t, s, false), "", [READ]);
    ReadIsServed(cfg, env, READ, v, s.stepIndex + 1, answered);
    AskingEnds(cfg, env, Compact(cfg, t, ServeAll(cfg, env, t, [READ], 0, s.stepIndex + 1, answered)));
  }

  /** And where it is a sub-agent that reads and asks, its parent's model is told what was in the file. */
  lemma LargeFileReachesTheParent(cfg: Config, env: Adversary, arguments: Arguments, s: State, v: Service)
    requires !cfg.hasSender && cfg.timeoutSecs == 0 && s.depth == 0 && Trim(Field(arguments, "task", "")) != ""
    requires SubBudget(cfg, s) >= 2 && ReadsThenAsks(env, |s.trace|, v)
    ensures SubAgent(cfg, env, arguments, s).content == TruncateSubAgentResult(v.observation.message)
  {
    hide Run, Trim, Field, SubAgent, TruncateSubAgentResult, ReadsThenAsks, Drop;
    SubAgentReports(cfg, env, arguments, s);
    LargeFileReachesTheUser(cfg, env, SubState(cfg, s, Trim(Field(arguments, "task", ""))), v);
  }

  // ---------- through the working summary ----------

  const INSPECT: ToolCall := ToolCall("2", "Inspect", map[])

  function Inspects(k: nat): seq<ToolCall> {
    seq(k, _ => INSPECT)
  }

  /**
   A model that reads a file over the limit and inspects as many paths as the step history keeps, on one turn, at
   the end of which the history is compacted without a model; and that asks the user on the next, when the last
   observation is a list of candidates.
   */
  ghost predicate ReadsThenInspects(cfg: Config, env: Adversary, n: nat, v: Service) {
    && env(n).first.reply == CallsAnswer([READ] + Inspects(cfg.retainTailSteps))
    && env(n + 1).first.reply == CallsAnswer([ASK])
    && env(n).services(0, "Read") == v && v.contentBytes > READ_LIMIT_BYTES && v.denial.None?
    && (forall i: nat ::
          var w := env(n).services(i, "Inspect");
          w.denial.None? && w.observation.errorType == Some("multiple_candidates"))
    && env(n).fold == Some(Compaction(NotAsked, None))
  }

  /** Inspections are recorded one by one, and nothing is told. */
  lemma {:induction false} InspectsAreServed(cfg: Config, env: Adversary, t: TurnInput, calls: seq<ToolCall>, i: nat,
                                             step: nat, s: State)
    requires i <= |calls| && s.stepBudget >= |calls| - i
    requires forall j: nat :: i <= j < |calls| ==> calls[j] == INSPECT && t.services(j, "Inspect").denial.None?
    ensures var r := ServeAll(cfg, env, t, calls, i, step, s);
            && r.trace == s.trace && r.told == s.told && r.goal == s.goal && r.depth == s.depth
            && r.context.memory == s.context.memory && r.stepBudget == s.stepBudget - (|calls| - i)
            && r.journal.summary == s.journal.summary && s.journal.steps <= r.journal.steps
            && |r.journal.steps| == |s.journal.steps| + (|calls| - i)
            && (i < |calls| ==>
                  var w := t.services(|calls| - 1, "Inspect");
                  r.lastObservation == Some(Seen("Inspect", w.contentBytes, w.observation)))
    decreases |calls| - i
  {
    hide Serve, ToolStep;
    if i < |calls| {
      ReadIsServed(cfg, env, calls[i], t.services(i, "Inspect"), step, s);
      InspectsAreServed(cfg, env, t, calls, i + 1, step, Serve(cfg, env, calls[i], t.services(i, "Inspect"), step, s));
    }
  }

  /** The turn's calls leave the read at the head of a history that is one step too long. */
  lemma ReadAndInspectsAreServed(cfg: Config, env: Adversary, n: nat, v: Service, step: nat, s: State)
    requires ReadsThenInspects(cfg, env, n, v) && s.journal == NOTHING_DONE && cfg.retainTailSteps >= 1
    requires s.stepBudget > cfg.retainTailSteps
    ensures var r := ServeAll(cfg, env, env(n), [READ] + Inspects(cfg.retainTailSteps), 0, step, s);
            && r.trace == s.trace && r.told == s.told && r.goal == s.goal && r.depth == s.depth
            && r.context.memory == s.context.memory && r.stepBudget == s.stepBudget - 1 - cfg.retainTailSteps
            && r.journal.summary == Plain("") && |r.journal.steps| == cfg.retainTailSteps + 1
            && r.journal.steps[0] == ToolStep(READ, v, step)
            && r.lastObservation.Some? && r.lastObservation.value.toolName == "Inspect"
  {
    hide Serve, ToolStep;
    var t, calls := env(n), [READ] + Inspects(cfg.retainTailSteps);
    var w := t.services(|calls| - 1, "Inspect");
    ReadIsServed(cfg, env, READ, v, step, s);
    assert calls[0] == READ && forall j :: 1 <= j < |calls| ==> calls[j] == INSPECT;
    InspectsAreServed(cfg, env, t, calls, 1, step, Serve(cfg, env, READ, v, step, s));
  }

  /** What compaction without a model makes of a discarded read. */
  function DigestOf(v: Service, step: nat): Text {
    Digest([ToolStep(READ, v, step)])
  }

  /** It shows the beginning of the file. */
  lemma DigestShowsTheFile(v: Service, step: nat)
    requires v.observation.ok && v.observation.message != "" && v.contentBytes > READ_LIMIT_BYTES
    ensures DigestOf(v, step).chars ==
            "[Compact summary — " + Json.Decimal(1) + " steps discarded]"
            + ("" + ("\nStep " + Json.Decimal(step) + ": " + "Read" + " — " + Shorten("LLM tool_use", 80) + " — "
                     + ("ok" + ": " + Shorten(v.observation.message, 100))))
  {
    hide Shorten, Json.Decimal;
    var steps := [ToolStep(READ, v, step)];
    assert steps[..0] == [];
    assert StepLines(steps) == Joined(Plain(""), StepLine(steps[0]));
  }

  lemma {:induction false} TrimEndReaches(text: string, p: nat)
    requires p < |text| && !IsWhitespace(text[p])
    ensures p < |TrimEnd(text)|
    decreases |text|
  {
    if IsWhitespace(text[|text| - 1]) {
      TrimEndReaches(text[..|text| - 1], p);
    }
  }

  /** Texts that part at a visible character of the second are trimmed to different ones. */
  lemma {:induction false} TrimmedApart(a: string, x: string, y: string)
    requires a != "" && !IsWhitespace(a[0]) && OpensOtherwise(x, y) && !IsWhitespace(y[0])
    ensures Trim(a + x) != Trim(a + y)
  {
    TrimEndReaches(a + y, |a|);
    TrimEndIsPrefix(a + x);
    TrimEndIsPrefix(a + y);
    assert Trim(a + x) <= a + x && Trim(a + y) <= a + y;
    assert (a + x)[|a|] == x[0] && (a + y)[|a|] == y[0];
  }

  /** Two files that begin with different visible characters give two different memories. */
  lemma TwoFilesTwoMemories(v: Service, w: Service, step: nat, reply: Intake)
    requires v.observation.ok && v.contentBytes > READ_LIMIT_BYTES && w.observation.ok
             && w.contentBytes > READ_LIMIT_BYTES
    requires OpensOtherwise(v.observation.message, w.observation.message) && !IsWhitespace(w.observation.message[0])
    ensures Sections(reply.history, reply.recall, DigestOf(v, step).chars) !=
            Sections(reply.history, reply.recall, DigestOf(w, step).chars)
  {
    hide DigestOf, Shorten, Trim, Json.Decimal, Join;
    DigestShowsTheFile(v, step);
    DigestShowsTheFile(w, step);
    ShortenOpens(v.observation.message, w.observation.message, 100);
    assert Shorten(w.observation.message, 100)[0] == w.observation.message[0] by {
      ShortenKeepsFirst(w.observation.message, 100);
    }
    var head := "[Compact summary — " + Json.Decimal(1) + " steps discarded]";
    var line := "\nStep " + Json.Decimal(step) + ": " + "Read" + " — " + Shorten("LLM tool_use", 80) + " — ";
    var x, y := Shorten(v.observation.message, 100), Shorten(w.observation.message, 100);
    var before := head + ("" + (line + ("ok" + ": ")));
    Regroup(head, line, "ok" + ": ", x);
    Regroup(head, line, "ok" + ": ", y);
    assert before[0] == '[';
    TrimmedApart(before, x, y);
  }

  lemma DigestIsSomething(v: Service, step: nat)
    ensures DigestOf(v, step).chars != ""
  {
  }

  lemma ShortenKeepsFirst(text: string, max: nat)
    requires text != "" && max >= 4
    ensures Shorten(text, max) != "" && Shorten(text, max)[0] == text[0]
  {
  }

  lemma {:induction false} Regroup(a: string, b: string, c: string, d: string)
    ensures a + ("" + (b + (c + d))) == a + ("" + (b + c)) + d
  {
  }

  lemma WholeFits(text: string, max: nat)
    requires ByteLength(text) <= max
    ensures Prefix(text, max) == text
  {
    PrefixOfJoined(text, "", max);
    assert text + "" == text && text + Prefix("", max - ByteLength(text)) == text;
  }

  /** Compaction at the end of that turn: the read alone is discarded, and its digest is the working summary. */
  lemma ReadIsDigested(cfg: Config, t: TurnInput, s: State, v: Service, step: nat)
    requires t.fold == Some(Compaction(NotAsked, None)) && |s.journal.steps| == cfg.retainTailSteps + 1
    requires s.journal.summary == Plain("") && s.journal.steps[0] == ToolStep(READ, v, step)
    requires ByteLength(DigestOf(v, step).chars) <= cfg.workingSummaryMaxBytes
    ensures Compact(cfg, t, s).journal.summary.chars == DigestOf(v, step).chars && Compact(cfg, t, s).told == s.told
    ensures var steps := Compact(cfg, t, s).journal.steps; steps != [] && steps[0].outcome.Unobserved?
  {
    hide Digest, ToolStep;
    assert Discarded(s.journal, cfg.retainTailSteps) == [s.journal.steps[0]];
    WholeFits(DigestOf(v, step).chars, cfg.workingSummaryMaxBytes);
  }

  /** The first turn of such a life. */
  lemma DigestingTurn(cfg: Config, env: Adversary, s: State, v: Service) returns (next: State)
    requires !cfg.hasSender && cfg.retainTailSteps >= 1 && s.journal == NOTHING_DONE
    requires s.stepBudget >= cfg.retainTailSteps + 2 && ReadsThenInspects(cfg, env, |s.trace|, v)
    requires ByteLength(DigestOf(v, s.stepIndex + 1).chars) <= cfg.workingSummaryMaxBytes
    ensures Run(cfg, env, s, false) == Run(cfg, env, next, false)
    ensures |next.trace| == |s.trace| + 1 && next.stepBudget > 0 && next.told == s.told
    ensures next.journal.summary.chars == DigestOf(v, s.stepIndex + 1).chars
    ensures next.journal.steps != [] && next.journal.steps[0].outcome.Unobserved?
    ensures next.lastObservation.Some? && next.lastObservation.value.toolName == "Inspect"
  {
    hide Run, CallsAnswer, AfterModel, ServeAll, Compact, ToolStep, DigestOf, FirstTerminal, Plain;
    var t, calls := env(|s.trace|), [READ] + Inspects(cfg.retainTailSteps);
    CallsAreReached(cfg, t, s, calls);
    NoneTerminates(cfg.retainTailSteps);
    CallingTurn(cfg, env, s, calls);
    var answered := WithAssistant(AfterModel(cfg, t, s, false), "", calls);
    ReadAndInspectsAreServed(cfg, env, |s.trace|, v, s.stepIndex + 1, answered);
    var served := ServeAll(cfg, env, t, calls, 0, s.stepIndex + 1, answered);
    ReadIsDigested(cfg, t, served, v, s.stepIndex + 1);
    next := Compact(cfg, t, served);
  }

  lemma NoneTerminates(k: nat)
    ensures FirstTerminal([READ] + Inspects(k)).None?
  {
    var calls := [READ] + Inspects(k);
    assert forall i :: 0 <= i < |calls| ==> calls[i] == READ || calls[i] == INSPECT;
  }

  /** The first run of such a life: it asks nothing that repeats the file, and leaves the digest behind. */
  lemma DigestingRun(cfg: Config, env: Adversary, s: State, v: Service)
    requires !cfg.hasSender && cfg.retainTailSteps >= 1 && s.journal == NOTHING_DONE && Clean(s.told)
    requires s.stepBudget >= cfg.retainTailSteps + 2 && ReadsThenInspects(cfg, env, |s.trace|, v)
    requires ByteLength(DigestOf(v, s.stepIndex + 1).chars) <= cfg.workingSummaryMaxBytes
    ensures var end := Run(cfg, env, s, false);
            && Asks(end.outcome) && |end.state.trace| == |s.trace| + 2 && end.state.stepBudget > 0
            && end.state.journal.summary.chars == DigestOf(v, s.stepIndex + 1).chars && Clean(end.state.told)
            && WrittenBack(end.state.journal) == Some(DigestOf(v, s.stepIndex + 1).chars)
  {
    hide Run, CallsAnswer, DigestOf, Question;
    var next := DigestingTurn(cfg, env, s, v);
    AskingEnds(cfg, env, next);
    DigestIsSomething(v, s.stepIndex + 1);
    assert Run(cfg, env, s, false).state.journal.steps[0] == next.journal.steps[0];
    assert !RepeatsLargeFile(next.lastObservation);
  }

  /**
   No question repeats the file, and still the memory store is given its beginning, and the first request after
   the user's reply is built with it. So for two files of one size a resumed loop sends two different requests.
   */
  lemma LargeFileReachesTheNextRequest(cfg: Config, env: Adversary, s: State, v: Service, reply: Intake)
    requires !cfg.hasSender && cfg.retainTailSteps >= 1 && s.journal == NOTHING_DONE && Clean(s.told)
    requires s.stepBudget >= cfg.retainTailSteps + 2 && ReadsThenInspects(cfg, env, |s.trace|, v)
    requires env(|s.trace| + 2).first.reply == CallsAnswer([ASK])
    requires ByteLength(DigestOf(v, s.stepIndex + 1).chars) <= cfg.workingSummaryMaxBytes
    ensures var end := Life(cfg, env, s, [reply]).state;
            && |end.trace| == |s.trace| + 3
            && end.trace[|s.trace| + 2].context.memory ==
               Sections(reply.history, reply.recall, DigestOf(v, s.stepIndex + 1).chars)
            && Clean(Run(cfg, env, s, false).state.told)
            && HandedOn(cfg, env, s, [reply])[0].stored == Some(DigestOf(v, s.stepIndex + 1).chars)
  {
    hide Run, CallsAnswer, Sections, InitialMessages, DigestOf, ReadsThenInspects, Clean, WrittenBack;
    DigestingRun(cfg, env, s, v);
    var paused := Run(cfg, env, s, false).state;
    AskingEnds(cfg, env, Resume(paused, reply));
  }

  // ---------- through the summarizer ----------

  /** A summarizer that is asked is shown the beginning of every large file among the discarded steps. */
  lemma SummarizerIsShownTheFile(j: Journal, c: Compaction, tail: nat, i: nat)
    requires !c.summarizer.NotAsked? && i < |Discarded(j, tail)| && Discarded(j, tail)[i].outcome.ToolRan?
    ensures var o := Discarded(j, tail)[i].outcome;
            && i < |ToldBy(j, c, tail)| && ToldBy(j, c, tail)[i].text == OutcomeText(o, 150)
            && (o.message != "" && o.ok ==> OutcomeText(o, 150).chars == "ok" + ": " + Shorten(o.message, 150))
  {
    hide OutcomeText, Shorten, ReasonText;
    ShownAt(Discarded(j, tail), i);
    OutcomeOf(Discarded(j, tail)[i].outcome);
  }

  lemma OutcomeOf(o: StepOutcome)
    requires o.ToolRan?
    ensures o.message != "" && o.ok ==> OutcomeText(o, 150).chars == "ok" + ": " + Shorten(o.message, 150)
  {
    hide Shorten;
  }

  lemma {:induction false} ShownAt(steps: seq<Step>, i: nat)
    requires i < |steps|
    ensures |ShownSteps(steps)| == |steps| && ShownSteps(steps)[i].text == OutcomeText(steps[i].outcome, 150)
    decreases |steps|
  {
    hide OutcomeText, Shorten, ReasonText;
    ShownLength(steps);
    if i < |steps| - 1 {
      ShownAt(steps[..|steps| - 1], i);
    } else {
      ShownLength(steps[..i]);
    }
  }

  lemma {:induction false} ShownLength(steps: seq<Step>)
    ensures |ShownSteps(steps)| == |steps|
    decreases |steps|
  {
    hide OutcomeText, Shorten, ReasonText;
    if steps != [] {
      ShownLength(steps[..|steps| - 1]);
    }
  }
}
