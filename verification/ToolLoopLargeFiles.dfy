/**
 How far the content of a file over the read limit reaches: never to the model that read it, but into the question
 that is put next, and through the step history to the summarizer and into the working summary, which a resumed
 loop and its sub-agents work from.
 */
module ToolLoopLargeFiles {
  import opened Prelude
  import opened SessionLog
  import opened Messages
  import opened ToolSchema
  import opened WorkingMemory
  import opened LargeFileTexts
  import opened ToolLoop
  import opened ToolLoopProofs
  import opened ToolLoopIsolation
  import opened ToolLoopRuns

  // ---------- adversaries that differ in large files ----------

  /** Two ways to serve a `Read` that differ at most in what is in a file over the limit, which is not empty. */
  predicate AgreeOnSmall(v: Service, w: Service) {
    && w == v.(content := w.content, observation := v.observation.(message := w.observation.message))
    && (v.contentBytes <= READ_LIMIT_BYTES ==> w == v)
    && (v.observation.message == "" <==> w.observation.message == "")
  }

  predicate ServeAlikeButLarge(name: string, v: Service, w: Service) {
    if name == "Read" then AgreeOnSmall(v, w) else w == v
  }

  /**
   Two adversaries that differ at most in what is in the large files that are read. All else they answer alike, the
   models and the memory store included: until something is told or handed on that differs, they are asked the same.
   */
  ghost predicate DifferInLargeFiles(env: Adversary, other: Adversary) {
    forall n: nat ::
      other(n) == env(n).(services := other(n).services)
      && forall i: nat, name: string :: ServeAlikeButLarge(name, env(n).services(i, name), other(n).services(i, name))
  }

  predicate Distinct(v: Service, w: Service) {
    v.contentBytes > READ_LIMIT_BYTES && v.observation.message != "" ==>
      OpensOtherwise(v.observation.message, w.observation.message)
  }

  ghost predicate AllDistinct(env: Adversary, other: Adversary) {
    forall n: nat, i: nat :: Distinct(env(n).services(i, "Read"), other(n).services(i, "Read"))
  }

  /** The adversaries differ at most in large files; `apart` says that they do differ, in every one of them. */
  ghost predicate Variants(env: Adversary, other: Adversary, apart: bool) {
    DifferInLargeFiles(env, other) && (apart ==> AllDistinct(env, other))
  }

  // ---------- states that differ in what is remembered of large files ----------

  predicate IsLarge(last: Option<Seen>) {
    last.Some? && IsLargeFile(last.value.toolName, last.value.bytes, last.value.observation.message)
  }

  predicate LastLike(a: Option<Seen>, b: Option<Seen>, apart: bool) {
    if IsLarge(a) then
      && b.Some? && MessagesLike(a.value.observation.message, b.value.observation.message, true, apart)
      && b.value == a.value.(observation := a.value.observation.(message := b.value.observation.message))
    else a == b
  }

  predicate Related(s: State, r: State, apart: bool) {
    && s.(lastObservation := None, journal := NOTHING_DONE) == r.(lastObservation := None, journal := NOTHING_DONE)
    && LastLike(s.lastObservation, r.lastObservation, apart)
    && JournalsLike(s.journal, r.journal, apart)
  }

  /** Nothing that was told, to the user or to the summarizer, holds the message of a large file. */
  predicate Clean(told: seq<Told>) {
    forall k :: 0 <= k < |told| ==> told[k].text.opensAt.None?
  }

  predicate Diverged(a: seq<Told>, b: seq<Told>) {
    exists k :: 0 <= k < |a| && k < |b| && a[k].text.chars != b[k].text.chars
  }

  /** What two runs look like until something is told that holds the message of a large file, and from then on. */
  predicate Parallel(s: State, r: State, apart: bool) {
    if Clean(s.told) then Related(s, r, apart) else apart ==> Diverged(s.told, r.told)
  }

  predicate ParallelEnds(x: RunEnd, y: RunEnd, apart: bool) {
    Parallel(x.state, y.state, apart) && (Clean(x.state.told) ==> x.outcome == y.outcome)
  }

  /** What has diverged stays so. */
  lemma {:induction false} StaysDiverged(s: State, r: State, x: State, y: State, apart: bool)
    requires Parallel(s, r, apart) && !Clean(s.told)
    requires s.told <= x.told && r.told <= y.told
    ensures !Clean(x.told) && Parallel(x, y, apart)
  {
    var i :| 0 <= i < |s.told| && s.told[i].text.opensAt.Some?;
    assert x.told[i] == s.told[i];
    if apart {
      var k :| 0 <= k < |s.told| && k < |r.told| && s.told[k].text.chars != r.told[k].text.chars;
      assert x.told[k] == s.told[k] && y.told[k] == r.told[k];
    }
  }

  // ---------- one call ----------

  /** An oversized `Read` is answered by an error, whatever was in the file. */
  lemma LargeReadIsWithheld(s: State, call: ToolCall, v: Service, w: Service, step: nat)
    requires call.name == "Read" && v.contentBytes > READ_LIMIT_BYTES && AgreeOnSmall(v, w)
    ensures ServeTool(s, call, v, step).messages == ServeTool(s, call, w, step).messages
    ensures ServeTool(s, call, v, step).messages[|s.messages|].isError
  {
    hide Warning, Recorded, ToolStep;
  }

  /** The message of an observation is but text, in what it decides about a turn. */
  lemma MessageIsOnlyText(call: ToolCall, v: Service, w: Service, directory: string, budget: nat)
    requires ServeAlikeButLarge(call.name, v, w)
    ensures ToolContent(call, v) == ToolContent(call, w)
    ensures NextDirectory(call.name, v.observation, directory) == NextDirectory(call.name, w.observation, directory)
    ensures RecoveryAfter(budget, v.observation) == RecoveryAfter(budget, w.observation)
  {
  }

  lemma ToolStepLike(call: ToolCall, v: Service, w: Service, step: nat, apart: bool)
    requires ServeAlikeButLarge(call.name, v, w) && (apart && call.name == "Read" ==> Distinct(v, w))
    ensures StepLike(ToolStep(call, v, step), ToolStep(call, w, step), apart)
    ensures LastLike(Some(Seen(call.name, v.contentBytes, v.observation)),
                     Some(Seen(call.name, w.contentBytes, w.observation)), apart)
  {
  }

  lemma RecordedLike(j: Journal, k: Journal, a: Step, b: Step, apart: bool)
    requires JournalsLike(j, k, apart) && StepLike(a, b, apart)
    ensures JournalsLike(Recorded(j, a), Recorded(k, b), apart)
  {
    hide StepLike, LikeCut;
  }

  lemma ObservedParallel(call: ToolCall, v: Service, w: Service, step: nat, s: State, r: State, apart: bool)
    requires ServeAlikeButLarge(call.name, v, w) && (apart && call.name == "Read" ==> Distinct(v, w))
    requires Related(s, r, apart)
    ensures Related(Observed(s, call, v, step), Observed(r, call, w, step), apart)
    ensures Observed(s, call, v, step).told == s.told
  {
    hide NextDirectory, RecoveryAfter, ToolContent, ToolStep, StepLike, Recorded, JournalsLike, LastLike, Distinct,
         ServeAlikeButLarge;
    MessageIsOnlyText(call, v, w, s.context.directory, s.recoveryBudget);
    ToolStepLike(call, v, w, step, apart);
    RecordedLike(s.journal, r.journal, ToolStep(call, v, step), ToolStep(call, w, step), apart);
  }

  lemma ToolParallel(call: ToolCall, v: Service, w: Service, step: nat, s: State, r: State, apart: bool)
    requires ServeAlikeButLarge(call.name, v, w) && (apart && call.name == "Read" ==> Distinct(v, w))
    requires Related(s, r, apart)
    ensures Related(ServeTool(s, call, v, step), ServeTool(r, call, w, step), apart)
    ensures ServeTool(s, call, v, step).told == s.told
  {
    hide Warning, Observed, ToolContent, NextDirectory, RecoveryAfter, Distinct, LastLike, JournalsLike;
    ObservedParallel(call, v, w, step, s, r, apart);
    MessageIsOnlyText(call, v, w, s.context.directory, s.recoveryBudget);
  }

  /** Two questions are the same unless they repeat a large file. */
  lemma AskParallel(s: State, r: State, proposed: string, apart: bool)
    requires Related(s, r, apart) && Clean(s.told)
    ensures ParallelEnds(Ask(s, proposed), Ask(r, proposed), apart)
  {
    hide JournalsLike, Recorded;
    var x, y, k := Ask(s, proposed).state, Ask(r, proposed).state, |s.told|;
    var large := RepeatsLargeFile(s.lastObservation);
    if large {
      assert x.told[k].text.opensAt.Some?;
      assert apart ==> x.told[k].text.chars != y.told[k].text.chars;
    } else {
      assert x.told == y.told && Clean(x.told);
      var step := Step(s.stepIndex + 1, None, AskUserCalled,
                       AskedUser(Question(s.goal, s.lastObservation, proposed), large));
      RecordedLike(s.journal, r.journal, step, step, apart);
    }
  }

  lemma RelatedSubStates(cfg: Config, s: State, r: State, task: string, apart: bool)
    requires Related(s, r, apart)
    ensures SubState(cfg, s, task) == SubState(cfg, r, task)
    ensures Related(SubState(cfg, s, task), SubState(cfg, r, task), apart)
    ensures SubState(cfg, s, task).told == s.told
    ensures SubState(cfg, s, task).stepBudget <= s.stepBudget && SubState(cfg, s, task).depth == s.depth + 1
    ensures SubBudget(cfg, s) == SubBudget(cfg, r)
  {
    hide Drop, Entered;
  }

  lemma AnswerParallel(s: State, r: State, call: ToolCall, kind: ServiceKind, a: string, b: string, e: bool,
                       f: bool, apart: bool)
    requires Parallel(s, r, apart) && (Clean(s.told) ==> a == b && e == f)
    ensures Parallel(Answer(s, call, kind, a, e), Answer(r, call, kind, b, f), apart)
  {
    hide LastLike, JournalsLike;
  }

  // ---------- compaction ----------

  /** A compaction tells and folds alike, or what it tells the summarizer differs. */
  lemma {:induction false} FoldParallel(cfg: Config, s: State, r: State, c: Option<Compaction>, apart: bool)
    requires Related(s, r, apart) && Clean(s.told)
    ensures Parallel(Fold(cfg, s, c), Fold(cfg, r, c), apart)
  {
    hide LastLike, Folded, StepLike, Like, LikeCut;
    if c.Some? {
      FoldedLike(s.journal, r.journal, c.value, s.stepIndex, cfg.retainTailSteps, cfg.workingSummaryMaxBytes, apart);
      DiscardedLike(s.journal, r.journal, cfg.retainTailSteps, apart);
      ShownLike(Discarded(s.journal, cfg.retainTailSteps), Discarded(r.journal, cfg.retainTailSteps), apart);
      ToldParallel(s.told, ToldBy(s.journal, c.value, cfg.retainTailSteps),
                   ToldBy(r.journal, c.value, cfg.retainTailSteps), apart);
    }
  }

  lemma DiscardedLike(j: Journal, k: Journal, tail: nat, apart: bool)
    requires JournalsLike(j, k, apart)
    ensures StepsLike(Discarded(j, tail), Discarded(k, tail), apart)
  {
    hide StepLike, LikeCut;
  }

  lemma {:induction false} ToldParallel(told: seq<Told>, a: seq<Told>, b: seq<Told>, apart: bool)
    requires Clean(told) && |a| == |b| && forall i :: 0 <= i < |a| ==> ToldLike(a[i], b[i], apart)
    ensures if Clean(told + a) then a == b else apart ==> Diverged(told + a, told + b)
  {
    if !Clean(told + a) {
      var k :| 0 <= k < |told + a| && (told + a)[k].text.opensAt.Some?;
      assert k >= |told| by {
        assert forall i :: 0 <= i < |told| ==> (told + a)[i] == told[i];
      }
      var i := k - |told|;
      assert ToldLike(a[i], b[i], apart) && (told + a)[k] == a[i] && (told + b)[k] == b[i];
    } else {
      forall i | 0 <= i < |a|
        ensures a[i] == b[i]
      {
        assert (told + a)[|told| + i] == a[i] && ToldLike(a[i], b[i], apart);
      }
    }
  }

  // ---------- whole runs ----------

  lemma {:induction false} SubAgentParallel(cfg: Config, env: Adversary, other: Adversary, arguments: Arguments,
                                            s: State, r: State, apart: bool)
    requires Variants(env, other, apart) && Related(s, r, apart) && Clean(s.told)
    ensures var x, y := SubAgent(cfg, env, arguments, s), SubAgent(cfg, other, arguments, r);
            && Parallel(x.state, y.state, apart)
            && (Clean(x.state.told) ==> x.content == y.content && x.isError == y.isError)
    decreases Nesting(s.depth), s.stepBudget, 0, 0
  {
    hide Run, Trim, Field, SubReport, SubAgent, SubState, Variants, SubBudget, LastLike, JournalsLike, Clean, Diverged;
    SubAgentReports(cfg, env, arguments, s);
    SubAgentReports(cfg, other, arguments, r);
    var task := Trim(Field(arguments, "task", ""));
    if s.depth == 0 && task != "" {
      RelatedSubStates(cfg, s, r, task, apart);
      RunParallel(cfg, env, other, SubState(cfg, s, task), SubState(cfg, r, task), cfg.timeoutSecs > 0, apart);
    }
  }

  lemma {:induction false} ServeParallel(cfg: Config, env: Adversary, other: Adversary, call: ToolCall, v: Service,
                                         w: Service, step: nat, s: State, r: State, apart: bool)
    requires Variants(env, other, apart) && ServeAlikeButLarge(call.name, v, w)
    requires apart && call.name == "Read" ==> Distinct(v, w)
    requires Related(s, r, apart) && Clean(s.told)
    ensures Parallel(Serve(cfg, env, call, v, step, s), Serve(cfg, other, call, w, step, r), apart)
    decreases Nesting(s.depth), s.stepBudget, 1, 0
  {
    hide SubAgent, Variants, ServeTool, Search, SearchAnswer, Field, IsTaskTool, Answer, Clean, Diverged, LastLike,
         JournalsLike, ServeAlikeButLarge, Distinct;
    AnsweredAlike(call.name, v, w);
    if cfg.hasGate && v.denial.Some? {
      AnswerParallel(Charged(s), Charged(r), call, Denied, "[Tool denied] " + v.denial.value,
                     "[Tool denied] " + w.denial.value, true, true, apart);
    } else if call.name == TOOL_SEARCH {
      var name := Field(call.arguments, "tool_name", "");
      AnswerParallel(Charged(s).(schema := Search(s.schema, name)), Charged(r).(schema := Search(r.schema, name)),
                     call, Searched, SearchAnswer(s.schema, name), SearchAnswer(r.schema, name), false, false, apart);
    } else if IsTaskTool(call.name) {
      AnswerParallel(Charged(s), Charged(r), call, TaskTool, v.taskAnswer, w.taskAnswer,
                     "Error:" <= v.taskAnswer, "Error:" <= w.taskAnswer, apart);
    } else if call.name == "Agent" {
      SubAgentParallel(cfg, env, other, call.arguments, Charged(s), Charged(r), apart);
      var x, y := SubAgent(cfg, env, call.arguments, Charged(s)), SubAgent(cfg, other, call.arguments, Charged(r));
      AnswerParallel(x.state, y.state, call, SubAgentCall, x.content, y.content, x.isError, y.isError, apart);
    } else {
      ToolParallel(call, v, w, step, s, r, apart);
    }
  }

  lemma AnsweredAlike(name: string, v: Service, w: Service)
    requires ServeAlikeButLarge(name, v, w)
    ensures v.denial == w.denial && v.taskAnswer == w.taskAnswer
  {
  }

  lemma {:induction false} ServeAllParallel(cfg: Config, env: Adversary, other: Adversary, n: nat,
                                            calls: seq<ToolCall>, i: nat, step: nat, s: State, r: State, apart: bool)
    requires Variants(env, other, apart) && i <= |calls| && Parallel(s, r, apart)
    ensures Parallel(ServeAll(cfg, env, env(n), calls, i, step, s), ServeAll(cfg, other, other(n), calls, i, step, r),
                     apart)
    decreases Nesting(s.depth), s.stepBudget, 2, |calls| - i
  {
    hide Serve, ServeAlikeButLarge, Distinct, Clean, Diverged, Related;
    if !Clean(s.told) {
      StaysDiverged(s, r, ServeAll(cfg, env, env(n), calls, i, step, s),
                    ServeAll(cfg, other, other(n), calls, i, step, r), apart);
    } else if i < |calls| {
      var name := calls[i].name;
      var v, w := env(n).services(i, name), other(n).services(i, name);
      assert ServeAlikeButLarge(name, v, w) && (apart && name == "Read" ==> Distinct(v, w));
      ServeParallel(cfg, env, other, calls[i], v, w, step, s, r, apart);
      ServeAllParallel(cfg, env, other, n, calls, i + 1, step, Serve(cfg, env, calls[i], v, step, s),
                       Serve(cfg, other, calls[i], w, step, r), apart);
    }
  }

  /** The model is called alike, and a compaction between its calls folds alike. */
  lemma ModelParallel(cfg: Config, t: TurnInput, u: TurnInput, s: State, r: State, armed: bool, apart: bool)
    requires u == t.(services := u.services) && Related(s, r, apart) && Clean(s.told)
    ensures |r.trace| == |s.trace| && r.stepBudget == s.stepBudget && r.depth == s.depth && r.stepIndex == s.stepIndex
    ensures PrepareTurn(cfg, t, s) == PrepareTurn(cfg, u, r)
    ensures CallModel(cfg, t, s, armed) == CallModel(cfg, u, r, armed)
    ensures Parallel(AfterModel(cfg, t, s, armed), AfterModel(cfg, u, r, armed), apart)
  {
    hide Prepare, Attempt, LastLike, JournalsLike, Clean, Diverged, Fold;
    var a := AttemptState(if t.microcompacted.Some? then t.microcompacted.value else s.messages,
                          s.layer2Attempted, []);
    AttemptIgnoresServices(cfg, t, u, s.goal, a, PrepareTurn(cfg, t, s).rebuilt, armed);
    FoldParallel(cfg, s, r, ReactiveFold(t, CallModel(cfg, t, s, armed).state.events), apart);
  }

  lemma AttemptIgnoresServices(cfg: Config, t: TurnInput, u: TurnInput, goal: string, a: AttemptState, rebuilt: bool,
                               armed: bool)
    requires u == t.(services := u.services)
    ensures Attempt(cfg, t, goal, a, false, rebuilt, armed) == Attempt(cfg, u, goal, a, false, rebuilt, armed)
  {
    hide Pass, MidTier, OneCall;
  }

  lemma RecordedParallel(s: State, r: State, action: Action, apart: bool)
    requires Related(s, r, apart)
    ensures forall reason, message ::
              Related(RecordTerminal(s, action, reason, Concluded(message)),
                      RecordTerminal(r, action, reason, Concluded(message)), apart)
  {
    hide LastLike, JournalsLike, Recorded;
    forall reason, message
      ensures Related(RecordTerminal(s, action, reason, Concluded(message)),
                      RecordTerminal(r, action, reason, Concluded(message)), apart)
    {
      var step := Step(s.stepIndex + 1, None, reason, Concluded(message));
      RecordedLike(s.journal, r.journal, step, step, apart);
    }
  }

  lemma DecideParallel(s: State, r: State, call: ToolCall, apart: bool)
    requires IsTerminal(call.name) && Related(s, r, apart) && Clean(s.told)
    ensures ParallelEnds(Decide(s, call), Decide(r, call), apart)
  {
    hide RecordTerminal, Field, Ask, Related, Clean, Diverged;
    ToldAtTheEnd(s);
    RecordedParallel(s, r, FinalAnswer, apart);
    RecordedParallel(s, r, Fail, apart);
    AskParallel(s, r, Field(call.arguments, "question", ""), apart);
  }

  lemma ToldAtTheEnd(s: State)
    ensures forall action, reason, outcome :: RecordTerminal(s, action, reason, outcome).told == s.told
  {
  }

  /** A turn that continues. */
  lemma {:induction false} TurnParallel(cfg: Config, env: Adversary, other: Adversary, s: State, r: State, armed: bool,
                                        text: string, calls: seq<ToolCall>, apart: bool)
    requires Variants(env, other, apart) && Related(s, r, apart) && Clean(s.told) && calls != []
    ensures var n := |s.trace|;
            Parallel(Compact(cfg, env(n), AfterCalls(cfg, env, env(n), s, armed, text, calls)),
                     Compact(cfg, other(n), AfterCalls(cfg, other, other(n), r, armed, text, calls)), apart)
    decreases Nesting(s.depth), s.stepBudget, 3, 0
  {
    hide AfterModel, ServeAll, CallModel, ServeAlikeButLarge, Compact, Clean, Diverged, PrepareTurn, Related;
    var n := |s.trace|;
    var t, u := env(n), other(n);
    assert u == t.(services := u.services);
    ModelParallel(cfg, t, u, s, r, armed, apart);
    AfterModelKeeps(cfg, t, s, armed);
    var x, y := AfterModel(cfg, t, s, armed), AfterModel(cfg, u, r, armed);
    AssistantParallel(x, y, text, calls, apart);
    ServeAllParallel(cfg, env, other, n, calls, 0, s.stepIndex + 1, WithAssistant(x, text, calls),
                     WithAssistant(y, text, calls), apart);
    CompactParallel(cfg, t, u, AfterCalls(cfg, env, t, s, armed, text, calls),
                    AfterCalls(cfg, other, u, r, armed, text, calls), apart);
  }

  lemma AssistantParallel(s: State, r: State, text: string, calls: seq<ToolCall>, apart: bool)
    requires Parallel(s, r, apart)
    ensures Parallel(WithAssistant(s, text, calls), WithAssistant(r, text, calls), apart)
  {
    hide LastLike, JournalsLike, Clean, Diverged;
  }

  lemma CompactParallel(cfg: Config, t: TurnInput, u: TurnInput, s: State, r: State, apart: bool)
    requires u == t.(services := u.services) && Parallel(s, r, apart)
    ensures Parallel(Compact(cfg, t, s), Compact(cfg, u, r), apart)
  {
    hide LastLike, JournalsLike, Clean, Diverged, Fold;
    if Clean(s.told) {
      FoldParallel(cfg, s, r, t.fold, apart);
    } else {
      StaysDiverged(s, r, Compact(cfg, t, s), Compact(cfg, u, r), apart);
    }
  }

  /** What is told in the LLM phase of a run's first turn stays told. */
  lemma ToldInTheFirstTurn(cfg: Config, env: Adversary, s: State, armed: bool)
    requires s.stepBudget > 0
    ensures AfterModel(cfg, env(|s.trace|), s, armed).told <= Run(cfg, env, s, armed).state.told
  {
    hide AfterModel, CallModel, AfterCalls, FirstTerminal, PrepareTurn, RecordTerminal, Decide, Compact;
    var t := env(|s.trace|);
    var reached := AfterModel(cfg, t, s, armed);
    ToldAtTheEnd(reached);
    var end := CallModel(cfg, t, s, armed).result;
    if end.Reached? {
      var answered := WithAssistant(reached, end.text, end.toolCalls);
      ToldAtTheEnd(answered);
      if end.toolCalls != [] {
        ToldByCalls(cfg, env, t, s, armed, end.text, end.toolCalls);
      }
    }
  }

  lemma ToldByCalls(cfg: Config, env: Adversary, t: TurnInput, s: State, armed: bool, text: string,
                    calls: seq<ToolCall>)
    requires calls != []
    ensures AfterModel(cfg, t, s, armed).told <= AfterCalls(cfg, env, t, s, armed, text, calls).told
  {
    hide AfterModel, ServeAll;
  }

  lemma {:induction false} EndsParallel(cfg: Config, env: Adversary, other: Adversary, s: State, r: State, armed: bool,
                                        apart: bool)
    requires Variants(env, other, apart) && Related(s, r, apart) && Clean(s.told)
    requires s.stepBudget == 0 || !GoesOn(CallModel(cfg, env(|s.trace|), s, armed).result)
    requires s.stepBudget > 0 ==> Clean(AfterModel(cfg, env(|s.trace|), s, armed).told)
    ensures ParallelEnds(Run(cfg, env, s, armed), Run(cfg, other, r, armed), apart)
  {
    hide AfterModel, CallModel, FirstTerminal, PrepareTurn, RecordTerminal, Decide, ServeAlikeButLarge, LastLike,
         JournalsLike, Clean, Diverged;
    var n := |s.trace|;
    var t, u := env(n), other(n);
    assert u == t.(services := u.services);
    ModelParallel(cfg, t, u, s, r, armed, apart);
    if s.stepBudget == 0 {
      var x, y := s.(schema := PrepareTurn(cfg, t, s).schema), r.(schema := PrepareTurn(cfg, u, r).schema);
      ToldAtTheEnd(x);
      RecordedParallel(x, y, Fail, apart);
    } else {
      var x, y, end := AfterModel(cfg, t, s, armed), AfterModel(cfg, u, r, armed), CallModel(cfg, t, s, armed).result;
      if end.GaveUp? {
        ToldAtTheEnd(x);
        RecordedParallel(x, y, Fail, apart);
      } else if end.Reached? {
        var a, b := WithAssistant(x, end.text, end.toolCalls), WithAssistant(y, end.text, end.toolCalls);
        if end.toolCalls == [] {
          ToldAtTheEnd(a);
          RecordedParallel(a, b, FinalAnswer, apart);
        } else {
          DecideParallel(a, b, end.toolCalls[FirstTerminal(end.toolCalls).value], apart);
        }
      }
    }
  }

  /** Two runs against variants stay related until something is told that holds the message of a large file. */
  lemma {:induction false} RunParallel(cfg: Config, env: Adversary, other: Adversary, s: State, r: State, armed: bool,
                                       apart: bool)
    requires Variants(env, other, apart) && Related(s, r, apart) && Clean(s.told)
    ensures ParallelEnds(Run(cfg, env, s, armed), Run(cfg, other, r, armed), apart)
    decreases Nesting(s.depth), s.stepBudget, 4, 0
  {
    hide AfterModel, AfterCalls, CallModel, Compact, FirstTerminal, PrepareTurn, ServeAlikeButLarge, Related, Clean,
         Diverged;
    var n := |s.trace|;
    var t, u, end := env(n), other(n), CallModel(cfg, env(n), s, armed).result;
    assert u == t.(services := u.services);
    ModelParallel(cfg, t, u, s, r, armed, apart);
    if s.stepBudget > 0 && !Clean(AfterModel(cfg, t, s, armed).told) {
      ToldInTheFirstTurn(cfg, env, s, armed);
      ToldInTheFirstTurn(cfg, other, r, armed);
      StaysDiverged(AfterModel(cfg, t, s, armed), AfterModel(cfg, u, r, armed), Run(cfg, env, s, armed).state,
                    Run(cfg, other, r, armed).state, apart);
    } else if s.stepBudget == 0 || !GoesOn(end) {
      EndsParallel(cfg, env, other, s, r, armed, apart);
    } else {
      TurnParallel(cfg, env, other, s, r, armed, end.text, end.toolCalls, apart);
      var x := Compact(cfg, t, AfterCalls(cfg, env, t, s, armed, end.text, end.toolCalls));
      var y := Compact(cfg, u, AfterCalls(cfg, other, u, r, armed, end.text, end.toolCalls));
      if !(armed && t.compactionTimesOut) {
        if Clean(x.told) {
          RunParallel(cfg, env, other, x, y, armed, apart);
        } else {
          StaysDiverged(x, y, Run(cfg, env, x, armed).state, Run(cfg, other, y, armed).state, apart);
        }
      }
    }
  }

  // ---------- whole lives ----------

  /** What the end of a run hands on: its working summary in the checkpoint, and what goes to the memory store. */
  datatype Handover = Handover(checkpoint: Text, stored: Option<string>)

  /** What the runs of a life hand on, in order. */
  function HandedOn(cfg: Config, env: Adversary, s: State, replies: seq<Intake>): (h: seq<Handover>)
    ensures |h| > 0
    decreases |replies|
  {
    var end := Run(cfg, env, s, false);
    var later := if replies != [] && Asks(end.outcome)
                 then HandedOn(cfg, env, Resume(end.state, replies[0]), replies[1..]) else [];
    [Handover(end.state.journal.summary, WrittenBack(end.state.journal))] + later
  }

  /** No working summary that is handed on holds the message of a large file. */
  predicate AllPlain(h: seq<Handover>) {
    forall k :: 0 <= k < |h| ==> h[k].checkpoint.opensAt.None?
  }

  predicate HandedAlike(a: seq<Handover>, b: seq<Handover>) {
    && |a| == |b|
    && forall k :: 0 <= k < |a| ==>
         a[k].checkpoint.chars == b[k].checkpoint.chars && a[k].stored == b[k].stored
  }

  predicate HandedApart(a: seq<Handover>, b: seq<Handover>) {
    exists k :: 0 <= k < |a| && k < |b| && a[k].checkpoint.chars != b[k].checkpoint.chars
  }

  lemma StoredAlike(j: Journal, k: Journal, apart: bool)
    requires JournalsLike(j, k, apart) && j.summary.opensAt.None?
    ensures WrittenBack(j) == WrittenBack(k) && j.summary == k.summary
  {
    assert HasBoundary(j.steps) ==> HasBoundary(k.steps) by {
      if HasBoundary(j.steps) {
        var i :| 0 <= i < |j.steps| && j.steps[i].outcome.Unobserved?;
        assert StepLike(j.steps[i], k.steps[i], apart);
      }
    }
    assert HasBoundary(k.steps) ==> HasBoundary(j.steps) by {
      if HasBoundary(k.steps) {
        var i :| 0 <= i < |k.steps| && k.steps[i].outcome.Unobserved?;
        assert StepLike(j.steps[i], k.steps[i], apart);
      }
    }
  }

  lemma ResumedParallel(s: State, r: State, i: Intake, apart: bool)
    requires Related(s, r, apart) && s.journal.summary == r.journal.summary
    ensures Related(Resume(s, i), Resume(r, i), apart) && Resume(s, i).told == s.told
  {
    hide LastLike, JournalsLike, Sections, InitialMessages, Entered;
  }

  lemma {:induction false} LifeParallel(cfg: Config, env: Adversary, other: Adversary, s: State, r: State,
                                        replies: seq<Intake>, apart: bool)
    requires Variants(env, other, apart) && Related(s, r, apart) && Clean(s.told)
    ensures var x, y := Life(cfg, env, s, replies), Life(cfg, other, r, replies);
            var h, g := HandedOn(cfg, env, s, replies), HandedOn(cfg, other, r, replies);
            if Clean(x.state.told) && AllPlain(h) then
              x.outcome == y.outcome && Related(x.state, y.state, apart) && HandedAlike(h, g)
            else apart ==> Diverged(x.state.told, y.state.told) || HandedApart(h, g)
    decreases |replies|
  {
    hide Run, Variants, Clean, Diverged, LastLike, JournalsLike, WrittenBack, Resume;
    RunParallel(cfg, env, other, s, r, false, apart);
    var x, y := Run(cfg, env, s, false), Run(cfg, other, r, false);
    var h, g := HandedOn(cfg, env, s, replies), HandedOn(cfg, other, r, replies);
    if !Clean(x.state.told) {
      StaysDiverged(x.state, y.state, Life(cfg, env, s, replies).state, Life(cfg, other, r, replies).state, apart);
    } else if x.state.journal.summary.opensAt.Some? {
      assert h[0].checkpoint == x.state.journal.summary && g[0].checkpoint == y.state.journal.summary;
      if apart {
        SummariesApart(x.state.journal, y.state.journal);
      }
    } else {
      StoredAlike(x.state.journal, y.state.journal, apart);
      if replies != [] && Asks(x.outcome) {
        ResumedParallel(x.state, y.state, replies[0], apart);
        LifeParallel(cfg, env, other, Resume(x.state, replies[0]), Resume(y.state, replies[0]), replies[1..], apart);
        HandedAfter(h[0], g[0], h[1..], g[1..]);
        assert h == [h[0]] + h[1..] && g == [g[0]] + g[1..];
      }
    }
  }

  lemma SummariesApart(j: Journal, k: Journal)
    requires JournalsLike(j, k, true) && j.summary.opensAt.Some?
    ensures j.summary.chars != k.summary.chars
  {
  }

  lemma {:induction false} HandedAfter(a: Handover, b: Handover, h: seq<Handover>, g: seq<Handover>)
    requires a.checkpoint.chars == b.checkpoint.chars && a.stored == b.stored && a.checkpoint.opensAt.None?
    ensures AllPlain([a] + h) <==> AllPlain(h)
    ensures HandedAlike(h, g) ==> HandedAlike([a] + h, [b] + g)
    ensures HandedApart(h, g) ==> HandedApart([a] + h, [b] + g)
  {
    Shifted(a, h);
    Shifted(b, g);
    if AllPlain([a] + h) {
      assert forall k :: 0 <= k < |h| ==> h[k] == ([a] + h)[k + 1] && h[k].checkpoint.opensAt.None?;
    }
    if HandedApart(h, g) {
      var k :| 0 <= k < |h| && k < |g| && h[k].checkpoint.chars != g[k].checkpoint.chars;
      assert ([a] + h)[k + 1].checkpoint.chars != ([b] + g)[k + 1].checkpoint.chars;
    }
  }

  lemma Shifted(a: Handover, h: seq<Handover>)
    ensures |[a] + h| == |h| + 1 && forall k :: 0 <= k < |[a] + h| ==> ([a] + h)[k] == if k == 0 then a else h[k - 1]
  {
  }

  /**
   Two lives are alike in every request, answer and question, in what the summarizer is shown, in their results,
   and in what they hand on; what they still remember of large files that were read may differ.
   */
  ghost predicate Agree(cfg: Config, env: Adversary, other: Adversary, s: State, replies: seq<Intake>) {
    var x, y := Life(cfg, env, s, replies), Life(cfg, other, s, replies);
    && x.outcome == y.outcome && Related(x.state, y.state, false)
    && HandedAlike(HandedOn(cfg, env, s, replies), HandedOn(cfg, other, s, replies))
  }

  function OtherMessage(m: string): (r: string)
    ensures m != "" ==> OpensOtherwise(m, r)
    ensures m == "" <==> r == ""
  {
    if m == "" then "" else if m[0] == 'x' then "y" else "x"
  }

  function Rewritten(v: Service): Service {
    if v.contentBytes <= READ_LIMIT_BYTES then v
    else v.(observation := v.observation.(message := OtherMessage(v.observation.message)))
  }

  /** An adversary whose every large file reads otherwise. */
  function AllRewritten(env: Adversary): Adversary {
    (n: nat) =>
      env(n).(services := (i: nat, name: string) =>
        if name == "Read" then Rewritten(env(n).services(i, name)) else env(n).services(i, name))
  }

  lemma RewrittenIsVariant(env: Adversary)
    ensures Variants(env, AllRewritten(env), true)
  {
  }

  /** A state that remembers nothing of a large file, as every loop has that begins. */
  predicate Unmarked(s: State) {
    && Clean(s.told) && !IsLarge(s.lastObservation) && s.journal.summary.opensAt.None?
    && forall i :: 0 <= i < |s.journal.steps| ==>
         var o := s.journal.steps[i].outcome; o.ToolRan? || o.AskedUser? ==> !o.isLargeFile
  }

  lemma UnmarkedIsRelated(s: State, apart: bool)
    requires Unmarked(s)
    ensures Related(s, s, apart)
  {
  }

  lemma BeginningIsUnmarked(cfg: Config, i: Intake, directory: string, candidates: seq<string>,
                            resources: seq<string>, budget: nat)
    ensures Unmarked(Begin(cfg, i, directory, candidates, resources, budget))
  {
  }

  /**
   What is in a file over the limit makes no difference to a loop, its resumptions and its sub-agents, to no
   request, answer, question, summary or result, exactly if the file's message is told to nobody, neither to the
   user by a question nor to the summarizer with the steps it is shown, and no run hands on a working summary
   into which it was digested.
   */
  lemma LargeFilesStayHiddenExactly(cfg: Config, env: Adversary, s: State, replies: seq<Intake>)
    requires Unmarked(s)
    ensures (forall other :: DifferInLargeFiles(env, other) ==> Agree(cfg, env, other, s, replies))
            <==> Clean(Life(cfg, env, s, replies).state.told) && AllPlain(HandedOn(cfg, env, s, replies))
  {
    hide Life, HandedOn, DifferInLargeFiles, AllDistinct, AllRewritten, Clean, LastLike, JournalsLike, Unmarked;
    UnmarkedIsRelated(s, false);
    UnmarkedIsRelated(s, true);
    UnmarkedIsClean(s);
    var clean := Clean(Life(cfg, env, s, replies).state.told) && AllPlain(HandedOn(cfg, env, s, replies));
    if clean {
      forall other | DifferInLargeFiles(env, other)
        ensures Agree(cfg, env, other, s, replies)
      {
        LifeParallel(cfg, env, other, s, s, replies, false);
      }
    } else {
      var other := AllRewritten(env);
      RewrittenIsVariant(env);
      LifeParallel(cfg, env, other, s, s, replies, true);
      assert !Agree(cfg, env, other, s, replies);
    }
  }

  lemma UnmarkedIsClean(s: State)
    requires Unmarked(s)
    ensures Clean(s.told)
  {
  }
}
