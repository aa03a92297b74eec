/** What every run of the tool loop keeps, whatever the adversary does. */
module ToolLoopProofs {
  import opened Prelude
  import opened Messages
  import opened ToolSchema
  import opened ToolLoop
  import opened WorkingMemory

  // ---------- the LLM phase of one turn ----------

  /**
   The calls of one turn, in order: an optional Layer 2 lookup, the first call, then either nothing
   more, or an output-slot retry, or one reactive compaction and a second call with its own retry.
   */
  function CallPattern(cfg: Config, rebuilt: bool, lookup: bool, reactive: bool, second: bool, retried: bool)
    : seq<LlmEvent> {
    (if lookup then [Layer2Lookup] else [])
    + (OneCall(cfg, rebuilt)
       + ((if reactive then [ReactiveCompact] else [])
          + ((if second then OneCall(cfg, false) else []) + (if retried then OneCall(cfg, false) else []))))
  }

  ghost predicate FollowsPattern(cfg: Config, rebuilt: bool, lookup: bool, events: seq<LlmEvent>) {
    exists reactive, second, retried ::
      (second ==> reactive) && (reactive && !second ==> !retried)
      && events == CallPattern(cfg, rebuilt, lookup, reactive, second, retried)
  }

  function CountOf(events: seq<LlmEvent>, e: LlmEvent): nat {
    multiset(events)[e]
  }

  /** A second pass adds one call and at most one retry. */
  lemma SecondAttempt(cfg: Config, t: TurnInput, goal: string, a: AttemptState, rebuilt: bool, armed: bool)
    ensures var end := Attempt(cfg, t, goal, a, true, rebuilt, armed).state;
            && end.layer2Attempted == a.layer2Attempted
            && (end.events == a.events + OneCall(cfg, false)
                || end.events == a.events + OneCall(cfg, false) + OneCall(cfg, false))
  {
    hide AnswerOf, OneCall;
  }

  lemma PatternShapes(cfg: Config, rebuilt: bool, lookup: bool)
    ensures var called := (if lookup then [Layer2Lookup] else []) + OneCall(cfg, rebuilt);
            && CallPattern(cfg, rebuilt, lookup, false, false, false) == called
            && CallPattern(cfg, rebuilt, lookup, false, false, true) == called + OneCall(cfg, false)
            && CallPattern(cfg, rebuilt, lookup, true, false, false) == called + [ReactiveCompact]
            && CallPattern(cfg, rebuilt, lookup, true, true, false) == called + [ReactiveCompact] + OneCall(cfg, false)
            && CallPattern(cfg, rebuilt, lookup, true, true, true) ==
               called + [ReactiveCompact] + OneCall(cfg, false) + OneCall(cfg, false)
  {
    hide OneCall;
  }

  lemma Follows(cfg: Config, rebuilt: bool, lookup: bool, reactive: bool, second: bool, retried: bool)
    requires (second ==> reactive) && (reactive && !second ==> !retried)
    ensures FollowsPattern(cfg, rebuilt, lookup, CallPattern(cfg, rebuilt, lookup, reactive, second, retried))
  {
    hide CallPattern;
  }

  lemma AllFollow(cfg: Config, rebuilt: bool, lookup: bool)
    ensures var called := (if lookup then [Layer2Lookup] else []) + OneCall(cfg, rebuilt);
            && FollowsPattern(cfg, rebuilt, lookup, called)
            && FollowsPattern(cfg, rebuilt, lookup, called + OneCall(cfg, false))
            && FollowsPattern(cfg, rebuilt, lookup, called + [ReactiveCompact])
            && FollowsPattern(cfg, rebuilt, lookup, called + [ReactiveCompact] + OneCall(cfg, false))
            && FollowsPattern(cfg, rebuilt, lookup, called + [ReactiveCompact] + OneCall(cfg, false)
                              + OneCall(cfg, false))
  {
    hide *;
    PatternShapes(cfg, rebuilt, lookup);
    Follows(cfg, rebuilt, lookup, false, false, false);
    Follows(cfg, rebuilt, lookup, false, false, true);
    Follows(cfg, rebuilt, lookup, true, false, false);
    Follows(cfg, rebuilt, lookup, true, true, false);
    Follows(cfg, rebuilt, lookup, true, true, true);
  }

  /** Every LLM phase follows the pattern, and looks Layer 2 up only in a run that has not done so. */
  lemma AttemptFollowsPattern(cfg: Config, t: TurnInput, goal: string, a: AttemptState, rebuilt: bool, armed: bool)
    requires a.events == []
    ensures var end := Attempt(cfg, t, goal, a, false, rebuilt, armed).state;
            && FollowsPattern(cfg, rebuilt, !a.layer2Attempted && end.layer2Attempted, end.events)
            && (a.layer2Attempted ==> end.layer2Attempted)
  {
    hide AnswerOf, OneCall, FollowsPattern, Escalates;
    var i := t.first;
    var before := MidTier(a, i);
    var lookup := !a.layer2Attempted && before.layer2Attempted;
    assert before.events == if lookup then [Layer2Lookup] else [];
    var called := before.(events := before.events + OneCall(cfg, rebuilt));
    AllFollow(cfg, rebuilt, lookup);
    if !(armed && i.callTimesOut) && i.reply.ContextExceeded? && !(armed && i.compactionTimesOut) {
      var compacted := called.(messages := i.reactiveCompacted, events := called.events + [ReactiveCompact]);
      SecondAttempt(cfg, t, goal, compacted, rebuilt, armed);
    }
  }

  /**
   What the pattern bounds: between one and three calls, at most one reactive compaction and at most
   one lookup; with a sender exactly one announcement per call, of which only the first may report a
   rebuild and does so exactly when the schema was rebuilt; without one, none.
   */
  lemma PatternBounds(cfg: Config, rebuilt: bool, lookup: bool, events: seq<LlmEvent>)
    requires FollowsPattern(cfg, rebuilt, lookup, events)
    ensures 1 <= CountOf(events, Generate) <= 3 && CountOf(events, ReactiveCompact) <= 1
    ensures CountOf(events, Layer2Lookup) == if lookup then 1 else 0
    ensures CountOf(events, SchemaFrozen(true)) == if cfg.hasSender && rebuilt then 1 else 0
    ensures CountOf(events, SchemaFrozen(true)) + CountOf(events, SchemaFrozen(false)) ==
            if cfg.hasSender then CountOf(events, Generate) else 0
    ensures cfg.hasSender ==> Announced(events, rebuilt)
  {
    hide CallPattern, CountOf, Announced, OneCall;
    var reactive, second, retried :|
      (second ==> reactive) && (reactive && !second ==> !retried)
      && events == CallPattern(cfg, rebuilt, lookup, reactive, second, retried);
    PatternCounts(cfg, rebuilt, lookup, reactive, second, retried);
    if cfg.hasSender {
      PatternIsAnnounced(cfg, rebuilt, lookup, reactive, second, retried);
    }
  }

  lemma CountConcat(a: seq<LlmEvent>, b: seq<LlmEvent>, e: LlmEvent)
    ensures CountOf(a + b, e) == CountOf(a, e) + CountOf(b, e)
  {
  }

  lemma NoCount(e: LlmEvent)
    ensures CountOf([], e) == 0
    ensures CountOf([Layer2Lookup], e) == if e.Layer2Lookup? then 1 else 0
    ensures CountOf([ReactiveCompact], e) == if e.ReactiveCompact? then 1 else 0
  {
  }

  /** One kind of event in the pattern, part by part. */
  lemma PatternCount(cfg: Config, rebuilt: bool, lookup: bool, reactive: bool, second: bool, retried: bool, e: LlmEvent)
    ensures CountOf(CallPattern(cfg, rebuilt, lookup, reactive, second, retried), e) ==
            (if lookup && e.Layer2Lookup? then 1 else 0) + CountOf(OneCall(cfg, rebuilt), e)
            + (if reactive && e.ReactiveCompact? then 1 else 0)
            + (if second then CountOf(OneCall(cfg, false), e) else 0)
            + (if retried then CountOf(OneCall(cfg, false), e) else 0)
  {
    hide OneCall, CountOf;
    NoCount(e);
    var l, c := if lookup then [Layer2Lookup] else [], OneCall(cfg, rebuilt);
    var r := if reactive then [ReactiveCompact] else [];
    var s, t := if second then OneCall(cfg, false) else [], if retried then OneCall(cfg, false) else [];
    CountConcat(l, c + (r + (s + t)), e);
    CountConcat(c, r + (s + t), e);
    CountConcat(r, s + t, e);
    CountConcat(s, t, e);
  }

  lemma OneCallCounts(cfg: Config, rebuilt: bool)
    ensures CountOf(OneCall(cfg, rebuilt), Generate) == 1
    ensures CountOf(OneCall(cfg, rebuilt), ReactiveCompact) == CountOf(OneCall(cfg, rebuilt), Layer2Lookup) == 0
    ensures CountOf(OneCall(cfg, rebuilt), SchemaFrozen(true)) == if cfg.hasSender && rebuilt then 1 else 0
    ensures CountOf(OneCall(cfg, rebuilt), SchemaFrozen(false)) == if cfg.hasSender && !rebuilt then 1 else 0
  {
    CountConcat(if cfg.hasSender then [SchemaFrozen(rebuilt)] else [], [Generate], Generate);
  }

  lemma PatternCounts(cfg: Config, rebuilt: bool, lookup: bool, reactive: bool, second: bool, retried: bool)
    ensures var events := CallPattern(cfg, rebuilt, lookup, reactive, second, retried);
            && CountOf(events, Generate) == 1 + (if second then 1 else 0) + (if retried then 1 else 0)
            && CountOf(events, ReactiveCompact) == (if reactive then 1 else 0)
            && CountOf(events, Layer2Lookup) == (if lookup then 1 else 0)
            && CountOf(events, SchemaFrozen(true)) == (if cfg.hasSender && rebuilt then 1 else 0)
            && CountOf(events, SchemaFrozen(false)) ==
               if cfg.hasSender then (if rebuilt then 0 else 1) + (if second then 1 else 0)
                   + (if retried then 1 else 0) else 0
  {
    hide CallPattern, CountOf, OneCall;
    OneCallCounts(cfg, rebuilt);
    OneCallCounts(cfg, false);
    PatternCount(cfg, rebuilt, lookup, reactive, second, retried, Generate);
    PatternCount(cfg, rebuilt, lookup, reactive, second, retried, ReactiveCompact);
    PatternCount(cfg, rebuilt, lookup, reactive, second, retried, Layer2Lookup);
    PatternCount(cfg, rebuilt, lookup, reactive, second, retried, SchemaFrozen(true));
    PatternCount(cfg, rebuilt, lookup, reactive, second, retried, SchemaFrozen(false));
  }

  /**
   Every call comes right after its own announcement and no announcement stands alone; the first one
   reports whether the schema was rebuilt, every later one reports that it was not.
   */
  predicate Announced(events: seq<LlmEvent>, rebuilt: bool)
    decreases |events|
  {
    if events == [] then true
    else if events[0].Generate? then false
    else if events[0].SchemaFrozen? then
      |events| > 1 && events[1].Generate? && events[0].rebuilt == rebuilt && Announced(events[2..], false)
    else Announced(events[1..], rebuilt)
  }

  lemma AnnouncedCall(cfg: Config, first: bool, rest: seq<LlmEvent>)
    requires cfg.hasSender
    ensures Announced(OneCall(cfg, first) + rest, first) <==> Announced(rest, false)
  {
    assert OneCall(cfg, first) == [SchemaFrozen(first), Generate];
    assert (OneCall(cfg, first) + rest)[2..] == rest;
  }

  lemma AnnouncedQuiet(e: LlmEvent, rest: seq<LlmEvent>, rebuilt: bool)
    requires e.ReactiveCompact? || e.Layer2Lookup?
    ensures Announced([e] + rest, rebuilt) <==> Announced(rest, rebuilt)
  {
    assert ([e] + rest)[1..] == rest;
  }

  lemma PatternIsAnnounced(cfg: Config, rebuilt: bool, lookup: bool, reactive: bool, second: bool, retried: bool)
    requires cfg.hasSender
    ensures Announced(CallPattern(cfg, rebuilt, lookup, reactive, second, retried), rebuilt)
  {
    hide OneCall;
    var s, t := if second then OneCall(cfg, false) else [], if retried then OneCall(cfg, false) else [];
    var r := if reactive then [ReactiveCompact] else [];
    assert [] + t == t && t + [] == t && [] + (s + t) == s + t;
    if retried { AnnouncedCall(cfg, false, []); }
    if second { AnnouncedCall(cfg, false, t); }
    if reactive { AnnouncedQuiet(ReactiveCompact, s + t, false); }
    AnnouncedCall(cfg, rebuilt, r + (s + t));
    if lookup {
      AnnouncedQuiet(Layer2Lookup, OneCall(cfg, rebuilt) + (r + (s + t)), rebuilt);
    } else {
      assert [] + (OneCall(cfg, rebuilt) + (r + (s + t))) == OneCall(cfg, rebuilt) + (r + (s + t));
    }
  }

  // ---------- what every record of a trace satisfies ----------

  /**
   A turn's record: its definitions are a fresh build from what was visible and disallowed on that
   turn, nothing disallowed is sent but `tool_search`, a sub-agent's configured tools are disallowed,
   nesting stops at one, and its calls follow the pattern.
   */
  ghost predicate GoodRecord(cfg: Config, r: TurnRecord) {
    && r.definitions == Build(cfg.inventory, r.visible, r.disallowed)
    && (forall d :: d in r.sent && d.name in r.disallowed ==> d.name == TOOL_SEARCH)
    && r.depth <= 1
    && (r.depth == 1 ==> forall name :: name in cfg.subDisallowed ==> name in r.disallowed)
    && (FollowsPattern(cfg, r.rebuilt, false, r.events) || FollowsPattern(cfg, r.rebuilt, true, r.events))
  }

  /** Layer 2 lookups made at one depth. */
  function Lookups(trace: seq<TurnRecord>, depth: nat): nat {
    if trace == [] then 0
    else
      var last := trace[|trace| - 1];
      Lookups(trace[..|trace| - 1], depth) + (if last.depth == depth then CountOf(last.events, Layer2Lookup) else 0)
  }

  function SubAgentCalls(services: seq<ServiceRecord>, depth: nat): nat {
    if services == [] then 0
    else
      var last := services[|services| - 1];
      SubAgentCalls(services[..|services| - 1], depth)
          + (if last.depth == depth && last.kind.SubAgentCall? then 1 else 0)
  }

  /** A state in which a run may begin or continue. */
  ghost predicate Sound(cfg: Config, s: State) {
    && s.depth <= 1
    && Coherent(cfg.inventory, s.schema)
    && (s.depth == 1 ==> forall name :: name in cfg.subDisallowed ==> name in s.schema.disallowed)
  }

  /** How a part of a run, starting in `s` and ending in `r`, extends the records. */
  ghost predicate Extends(cfg: Config, s: State, r: State) {
    && s.trace <= r.trace && s.services <= r.services
    && (forall i :: |s.trace| <= i < |r.trace| ==> GoodRecord(cfg, r.trace[i]) && r.trace[i].depth >= s.depth)
    && Lookups(r.trace, s.depth) - Lookups(s.trace, s.depth) ==
       (if r.layer2Attempted then 1 else 0) - (if s.layer2Attempted then 1 else 0)
    && (s.depth == 0 ==>
          Lookups(r.trace, 1) - Lookups(s.trace, 1) <= SubAgentCalls(r.services, 0) - SubAgentCalls(s.services, 0))
    && r.depth == s.depth
  }

  /** LLM turns between two states, sub-agents' included. */
  function TurnsTaken(s: State, r: State): int {
    |r.trace| - |s.trace|
  }

  /** The step budget a part of a run spends covers its LLM turns, with some to spare. */
  predicate Pays(s: State, r: State, spare: int) {
    TurnsTaken(s, r) + r.stepBudget + spare <= s.stepBudget
  }

  lemma ExtendsTransitive(cfg: Config, a: State, b: State, c: State)
    requires Extends(cfg, a, b) && Extends(cfg, b, c)
    ensures Extends(cfg, a, c)
  {
    hide GoodRecord, Lookups, SubAgentCalls;
    forall i | |a.trace| <= i < |c.trace|
      ensures GoodRecord(cfg, c.trace[i]) && c.trace[i].depth >= a.depth
    {
      if i < |b.trace| {
        assert c.trace[i] == b.trace[i];
      }
    }
  }

  lemma ExtendsItself(cfg: Config, s: State, r: State)
    requires r.trace == s.trace && r.services == s.services && r.depth == s.depth
    requires r.layer2Attempted == s.layer2Attempted
    ensures Extends(cfg, s, r)
  {
  }

  lemma LookupsSnoc(trace: seq<TurnRecord>, r: TurnRecord, depth: nat)
    ensures Lookups(trace + [r], depth) ==
            Lookups(trace, depth) + (if r.depth == depth then CountOf(r.events, Layer2Lookup) else 0)
  {
    assert (trace + [r])[..|trace|] == trace;
  }

  lemma SubAgentCallsSnoc(services: seq<ServiceRecord>, r: ServiceRecord, depth: nat)
    ensures SubAgentCalls(services + [r], depth) ==
            SubAgentCalls(services, depth) + (if r.depth == depth && r.kind.SubAgentCall? then 1 else 0)
  {
    assert (services + [r])[..|services|] == services;
  }

  // ---------- one turn ----------

  /** The LLM phase adds one good record, keeps the state sound and spends nothing. */
  lemma ModelPhase(cfg: Config, t: TurnInput, s: State, armed: bool)
    requires Sound(cfg, s)
    ensures var r := AfterModel(cfg, t, s, armed);
            Sound(cfg, r) && Extends(cfg, s, r) && TurnsTaken(s, r) == 1 && r.stepBudget == s.stepBudget
  {
    hide Attempt, Prepare, Folded, ToldBy, GoodRecord, FollowsPattern, CountOf, Coherent, Announced, SubAgentCalls;
    var p, a, r := PrepareTurn(cfg, t, s), CallModel(cfg, t, s, armed).state, AfterModel(cfg, t, s, armed);
    var record := r.trace[|s.trace|];
    var start := AttemptState(if t.microcompacted.Some? then t.microcompacted.value else s.messages,
                              s.layer2Attempted, []);
    AttemptFollowsPattern(cfg, t, s.goal, start, p.rebuilt, armed);
    RecordIsGood(cfg, t, s, record, !s.layer2Attempted && a.layer2Attempted);
    PatternBounds(cfg, p.rebuilt, !s.layer2Attempted && a.layer2Attempted, a.events);
    LookupsSnoc(s.trace, record, s.depth);
    LookupsSnoc(s.trace, record, 1);
  }

  lemma RecordIsGood(cfg: Config, t: TurnInput, s: State, r: TurnRecord, lookup: bool)
    requires Sound(cfg, s) && FollowsPattern(cfg, r.rebuilt, lookup, r.events)
    requires var p := PrepareTurn(cfg, t, s);
             && r.depth == s.depth && r.visible == p.schema.visible && r.disallowed == p.schema.disallowed
             && r.definitions == p.definitions && r.sent == p.sent
    ensures GoodRecord(cfg, r) && Coherent(cfg.inventory, PrepareTurn(cfg, t, s).schema)
    ensures s.schema.disallowed <= r.disallowed
  {
    hide Prepare, FollowsPattern, Build;
    PrepareIsFresh(cfg.inventory, s.schema, t.planMode, cfg.available(s.context.candidateTools));
    OfferedTools(cfg.inventory, s.schema, t.planMode, cfg.available(s.context.candidateTools));
    PrepareKeepsDisallowed(cfg.inventory, s.schema, t.planMode, cfg.available(s.context.candidateTools));
  }

  lemma PrepareKeepsDisallowed(inv: Inventory, s: Schema, planMode: bool, candidates: seq<string>)
    ensures s.disallowed <= Prepare(inv, s, planMode, candidates).schema.disallowed
  {
    var events := [TurnBegins(planMode, candidates)];
    hide Prepare;
    DisallowedOnlyGrows(inv, s, events);
    assert events[..0] == [] && ReactAll(inv, s, []) == s;
    assert ReactAll(inv, s, events) == React(inv, s, events[0]);
  }

  /** Answering a call touches the messages and adds one service record. */
  lemma AnswerExtends(cfg: Config, s: State, call: ToolCall, kind: ServiceKind, content: string, isError: bool)
    requires !kind.SubAgentCall?
    ensures Extends(cfg, s, Answer(s, call, kind, content, isError))
    ensures Sound(cfg, s) ==> Sound(cfg, Answer(s, call, kind, content, isError))
  {
    SubAgentCallsSnoc(s.services, ServiceRecord(s.depth, call.id, kind), 0);
  }

  // ---------- whole runs ----------

  /** A sub-agent that is not refused reports the end of its own run. */
  lemma SubAgentReports(cfg: Config, env: Adversary, arguments: Arguments, s: State)
    ensures var r, task := SubAgent(cfg, env, arguments, s), Trim(Field(arguments, "task", ""));
            var end := Run(cfg, env, SubState(cfg, s, task), cfg.timeoutSecs > 0);
            if s.depth >= 1 then
              r == SubResult(s, "[Sub-agent error] Sub-agents cannot spawn further sub-agents.", true)
            else if task == "" then r == SubResult(s, "[Sub-agent error] No task provided.", true)
            else
              && (r.content, r.isError) == SubReport(cfg, end.outcome)
              && r.state == s.(stepBudget := s.stepBudget - SubBudget(cfg, s), trace := end.state.trace,
                               services := end.state.services, told := end.state.told)
  {
    hide Run, Trim, Field, SubReport, SubState;
  }

  /** A sub-agent's run is paid from what leaves the parent's budget, exactly once. */
  lemma {:induction false} SubAgentRun(cfg: Config, env: Adversary, arguments: Arguments, s: State)
    requires Sound(cfg, s)
    ensures var r := SubAgent(cfg, env, arguments, s).state;
            && Sound(cfg, r) && Pays(s, r, 0)
            && s.trace <= r.trace && s.services <= r.services && r.depth == s.depth
                && r.layer2Attempted == s.layer2Attempted
            && (forall i :: |s.trace| <= i < |r.trace| ==> GoodRecord(cfg, r.trace[i]) && r.trace[i].depth >= s.depth)
            && Lookups(r.trace, s.depth) == Lookups(s.trace, s.depth)
            && (s.depth == 0 ==> Lookups(r.trace, 1) - Lookups(s.trace, 1) <= 1)
            && (s.depth == 0 ==> SubAgentCalls(r.services, 0) == SubAgentCalls(s.services, 0))
    decreases Nesting(s.depth), s.stepBudget, 0, 0
  {
    hide Run, GoodRecord, Lookups, SubAgentCalls, Trim, Drop;
    var task := Trim(Field(arguments, "task", ""));
    if s.depth == 0 && task != "" {
      var sub := SubState(cfg, s, task);
      RunKeeps(cfg, env, sub, cfg.timeoutSecs > 0);
      var end := Run(cfg, env, sub, cfg.timeoutSecs > 0).state;
      NoDeepLookups(s.trace, end.trace, 0);
      SubServicesAreDeep(cfg, env, sub, cfg.timeoutSecs > 0);
      NoShallowSubAgentCalls(s.services, end.services);
    }
  }

  /** Records of deeper turns add no lookups at a depth. */
  lemma {:induction false} NoDeepLookups(before: seq<TurnRecord>, after: seq<TurnRecord>, depth: nat)
    requires before <= after && forall i :: |before| <= i < |after| ==> after[i].depth > depth
    ensures Lookups(after, depth) == Lookups(before, depth)
    decreases |after|
  {
    if |after| == |before| {
      assert after == before;
    } else {
      NoDeepLookups(before, after[..|after| - 1], depth);
    }
  }

  lemma {:induction false} NoShallowSubAgentCalls(before: seq<ServiceRecord>, after: seq<ServiceRecord>)
    requires before <= after && forall i :: |before| <= i < |after| ==> after[i].depth > 0
    ensures SubAgentCalls(after, 0) == SubAgentCalls(before, 0)
    decreases |after|
  {
    if |after| == |before| {
      assert after == before;
    } else {
      NoShallowSubAgentCalls(before, after[..|after| - 1]);
    }
  }

  /** The services of a sub-agent are recorded below the top level. */
  lemma {:induction false} SubServicesAreDeep(cfg: Config, env: Adversary, s: State, armed: bool)
    requires s.depth >= 1
    ensures var r := Run(cfg, env, s, armed).state;
            s.services <= r.services && forall i :: |s.services| <= i < |r.services| ==> r.services[i].depth > 0
    decreases s.stepBudget
  {
    hide CallModel, AfterModel, PrepareTurn, ServeAll, Compact, FirstTerminal;
    var t := env(|s.trace|);
    var end := CallModel(cfg, t, s, armed).result;
    AfterModelKeeps(cfg, t, s, armed);
    if s.stepBudget > 0 && end.Reached? && end.toolCalls != [] && FirstTerminal(end.toolCalls).None? {
      var answered := WithAssistant(AfterModel(cfg, t, s, armed), end.text, end.toolCalls);
      ServicesAreDeep(cfg, env, t, end.toolCalls, 0, s.stepIndex + 1, answered);
      var next := Compact(cfg, t, AfterCalls(cfg, env, t, s, armed, end.text, end.toolCalls));
      if !(armed && t.compactionTimesOut) {
        SubServicesAreDeep(cfg, env, next, armed);
      }
    }
  }

  /** A call leaves one service record of its own; at depth one it is the only one it leaves. */
  lemma ServeAddsOneRecord(cfg: Config, env: Adversary, call: ToolCall, v: Service, step: nat, s: State)
    requires s.depth >= 1
    ensures var r := Serve(cfg, env, call, v, step, s).services;
            |r| == |s.services| + 1 && s.services <= r && r[|s.services|].depth == s.depth
                && r[|s.services|].id == call.id
  {
    hide SubAgent, Run, SubReport, SubState, Trim, Search, SearchAnswer, Field, ToolContent, Warning;
    SubAgentReports(cfg, env, call.arguments, Charged(s));
  }

  lemma {:induction false} ServicesAreDeep(cfg: Config, env: Adversary, t: TurnInput, calls: seq<ToolCall>, i: nat,
                                           step: nat, s: State)
    requires s.depth >= 1 && i <= |calls|
    ensures var r := ServeAll(cfg, env, t, calls, i, step, s);
            s.services <= r.services && forall k :: |s.services| <= k < |r.services| ==> r.services[k].depth > 0
    decreases |calls| - i
  {
    hide Serve;
    if i < |calls| {
      ServeAddsOneRecord(cfg, env, calls[i], ServiceOf(t, calls, i), step, s);
      ServicesAreDeep(cfg, env, t, calls, i + 1, step, Serve(cfg, env, calls[i], ServiceOf(t, calls, i), step, s));
    }
  }

  lemma ServeToolKeeps(cfg: Config, s: State, call: ToolCall, v: Service, step: nat)
    requires Sound(cfg, s)
    ensures var r := ServeTool(s, call, v, step);
            Sound(cfg, r) && Extends(cfg, s, r) && Pays(s, r, if s.stepBudget > 0 then 1 else 0)
  {
    hide GoodRecord, Lookups, SubAgentCalls, ToolContent, Warning;
    var content := ToolContent(call, v);
    var recorded := Observed(s, call, v, step);
    AnswerExtends(cfg, recorded, call, Executed, content.0, content.1);
  }

  lemma {:induction false} ServeAgentKeeps(cfg: Config, env: Adversary, call: ToolCall, s: State)
    requires Sound(cfg, s)
    ensures var sub := SubAgent(cfg, env, call.arguments, Charged(s));
            var r := Answer(sub.state, call, SubAgentCall, sub.content, sub.isError);
            Sound(cfg, r) && Extends(cfg, s, r) && Pays(s, r, if s.stepBudget > 0 then 1 else 0)
    decreases Nesting(s.depth), s.stepBudget, 0, 1
  {
    hide SubAgent, GoodRecord, Lookups, SubAgentCalls;
    SubAgentRun(cfg, env, call.arguments, Charged(s));
    var sub := SubAgent(cfg, env, call.arguments, Charged(s)).state;
    SubAgentCallsSnoc(sub.services, ServiceRecord(s.depth, call.id, SubAgentCall), 0);
  }

  lemma AnswerKeeps(cfg: Config, s: State, charged: State, call: ToolCall, kind: ServiceKind, content: string,
                    isError: bool)
    requires Sound(cfg, s) && !kind.SubAgentCall?
    requires charged.schema == s.schema || (exists name :: charged.schema == Search(s.schema, name))
    requires charged == Charged(s).(schema := charged.schema)
    ensures var r := Answer(charged, call, kind, content, isError);
            Sound(cfg, r) && Extends(cfg, s, r) && Pays(s, r, if s.stepBudget > 0 then 1 else 0)
  {
    hide GoodRecord, Lookups, SubAgentCalls, Build;
    AnswerExtends(cfg, charged, call, kind, content, isError);
  }

  /** Serving a call spends at least one step, and more than its sub-agent's turns. */
  lemma {:induction false} ServeKeeps(cfg: Config, env: Adversary, call: ToolCall, v: Service, step: nat, s: State)
    requires Sound(cfg, s)
    ensures var r := Serve(cfg, env, call, v, step, s);
            Sound(cfg, r) && Extends(cfg, s, r) && Pays(s, r, if s.stepBudget > 0 then 1 else 0)
    decreases Nesting(s.depth), s.stepBudget, 1, 0
  {
    hide SubAgent, Sound, Extends, Search, SearchAnswer, ServeTool, Answer, Pays;
    if cfg.hasGate && v.denial.Some? {
      AnswerKeeps(cfg, s, Charged(s), call, Denied, "[Tool denied] " + v.denial.value, true);
    } else if call.name == TOOL_SEARCH {
      var name := Field(call.arguments, "tool_name", "");
      AnswerKeeps(cfg, s, Charged(s).(schema := Search(s.schema, name)), call, Searched, SearchAnswer(s.schema, name),
                  false);
    } else if IsTaskTool(call.name) {
      AnswerKeeps(cfg, s, Charged(s), call, TaskTool, v.taskAnswer, "Error:" <= v.taskAnswer);
    } else if call.name == "Agent" {
      ServeAgentKeeps(cfg, env, call, s);
    } else {
      ServeToolKeeps(cfg, s, call, v, step);
    }
  }

  lemma {:induction false} ServeAllKeeps(cfg: Config, env: Adversary, t: TurnInput, calls: seq<ToolCall>, i: nat,
                                         step: nat, s: State)
    requires Sound(cfg, s) && i <= |calls|
    ensures var r := ServeAll(cfg, env, t, calls, i, step, s);
            Sound(cfg, r) && Extends(cfg, s, r) && Pays(s, r, if i < |calls| && s.stepBudget > 0 then 1 else 0)
    decreases Nesting(s.depth), s.stepBudget, 2, |calls| - i
  {
    hide Serve, Extends, Sound;
    if i == |calls| {
      ExtendsItself(cfg, s, s);
    } else {
      var served := Serve(cfg, env, calls[i], ServiceOf(t, calls, i), step, s);
      ServeKeeps(cfg, env, calls[i], ServiceOf(t, calls, i), step, s);
      ServeAllKeeps(cfg, env, t, calls, i + 1, step, served);
      ExtendsTransitive(cfg, s, served, ServeAll(cfg, env, t, calls, i, step, s));
    }
  }

  /** A run that ends by asking the user, or is cut off by a timer, is not charged for its last turn. */
  function Unpaid(o: Outcome): int {
    if o.TimedOut? || o.action.AskUser? then 1 else 0
  }

  /**
   The main invariant, for every run against every adversary: all records it adds are good, lookups
   are at most one for the run and one per sub-agent call, the LLM turns it takes with all its
   sub-agents never exceed the budget it started with, and turns plus what is left never exceed it
   either, except for the one unpaid turn of a run that asks the user or times out.
   */
  lemma {:induction false} RunKeeps(cfg: Config, env: Adversary, s: State, armed: bool)
    requires Sound(cfg, s)
    ensures var end := Run(cfg, env, s, armed);
            && Sound(cfg, end.state) && Extends(cfg, s, end.state)
            && Pays(s, end.state, -Unpaid(end.outcome))
            && TurnsTaken(s, end.state) <= s.stepBudget
    decreases Nesting(s.depth), s.stepBudget, 4, 0
  {
    hide Extends, Sound, CallModel, AfterModel, PrepareTurn, AfterCalls, Compact, FirstTerminal, RecordTerminal, Decide;
    var t := env(|s.trace|);
    if s.stepBudget == 0 {
      PreparedIsSound(cfg, t, s);
      EndKeeps(cfg, s, s.(schema := PrepareTurn(cfg, t, s).schema), Fail);
    } else {
      var reached, end := AfterModel(cfg, t, s, armed), CallModel(cfg, t, s, armed).result;
      ModelPhase(cfg, t, s, armed);
      if end.GaveUp? {
        EndKeeps(cfg, s, reached, Fail);
      } else if end.Reached? {
        var answered := WithAssistant(reached, end.text, end.toolCalls);
        SameRecords(cfg, s, reached, answered);
        if end.toolCalls == [] {
          EndKeeps(cfg, s, answered, FinalAnswer);
        } else if FirstTerminal(end.toolCalls).Some? {
          var call := end.toolCalls[FirstTerminal(end.toolCalls).value];
          DecideKeeps(cfg, s, answered, call);
        } else {
          TurnContinues(cfg, env, t, s, armed, end.text, end.toolCalls);
          var next := Compact(cfg, t, AfterCalls(cfg, env, t, s, armed, end.text, end.toolCalls));
          if !(armed && t.compactionTimesOut) {
            RunKeeps(cfg, env, next, armed);
            ExtendsTransitive(cfg, s, next, Run(cfg, env, s, armed).state);
          }
        }
      }
    }
  }

  /** A turn that continues pays for itself and for all the turns of its sub-agents. */
  lemma {:induction false} TurnContinues(cfg: Config, env: Adversary, t: TurnInput, s: State, armed: bool,
                                         text: string, calls: seq<ToolCall>)
    requires Sound(cfg, s) && s.stepBudget > 0 && calls != []
    ensures var next := Compact(cfg, t, AfterCalls(cfg, env, t, s, armed, text, calls));
            && Sound(cfg, next) && Extends(cfg, s, next) && Pays(s, next, 0)
            && next.stepBudget < s.stepBudget && next.depth == s.depth
    decreases Nesting(s.depth), s.stepBudget, 3, 0
  {
    hide Extends, Sound, AfterModel, ServeAll, Compact;
    ModelPhase(cfg, t, s, armed);
    var reached := AfterModel(cfg, t, s, armed);
    var answered := WithAssistant(reached, text, calls);
    SameRecords(cfg, s, reached, answered);
    AfterModelKeeps(cfg, t, s, armed);
    ServeAllKeeps(cfg, env, t, calls, 0, s.stepIndex + 1, answered);
    var served := AfterCalls(cfg, env, t, s, armed, text, calls);
    ExtendsTransitive(cfg, s, answered, served);
    SameRecords(cfg, s, served, Compact(cfg, t, served));
  }

  lemma AfterModelKeeps(cfg: Config, t: TurnInput, s: State, armed: bool)
    ensures var r := AfterModel(cfg, t, s, armed);
            r.depth == s.depth && r.stepBudget == s.stepBudget && r.services == s.services
  {
    hide Attempt, Prepare, Folded, ToldBy;
  }

  lemma PreparedIsSound(cfg: Config, t: TurnInput, s: State)
    requires Sound(cfg, s)
    ensures var r := s.(schema := PrepareTurn(cfg, t, s).schema); Sound(cfg, r) && Extends(cfg, s, r)
  {
    hide Prepare;
    PrepareIsFresh(cfg.inventory, s.schema, t.planMode, cfg.available(s.context.candidateTools));
    PrepareKeepsDisallowed(cfg.inventory, s.schema, t.planMode, cfg.available(s.context.candidateTools));
    ExtendsItself(cfg, s, s.(schema := PrepareTurn(cfg, t, s).schema));
  }

  lemma SameRecords(cfg: Config, s: State, a: State, b: State)
    requires Extends(cfg, s, a) && Sound(cfg, a)
    requires b.trace == a.trace && b.services == a.services && b.depth == a.depth && b.schema == a.schema
    requires b.layer2Attempted == a.layer2Attempted
    ensures Extends(cfg, s, b) && Sound(cfg, b)
  {
  }

  lemma DecideKeeps(cfg: Config, s: State, a: State, call: ToolCall)
    requires Extends(cfg, s, a) && Sound(cfg, a) && IsTerminal(call.name)
    ensures var end := Decide(a, call);
            && Extends(cfg, s, end.state) && Sound(cfg, end.state) && end.outcome.Ended?
            && end.state.trace == a.trace
            && end.state.stepBudget ==
               if end.outcome.action.AskUser? then a.stepBudget else SaturatingSub(a.stepBudget, 1)
  {
    hide Question, Field;
    var end := Decide(a, call);
    SameRecords(cfg, s, a, end.state);
  }

  lemma EndKeeps(cfg: Config, s: State, a: State, action: Action)
    requires Extends(cfg, s, a) && Sound(cfg, a)
    ensures forall reason, outcome ::
              var r := RecordTerminal(a, action, reason, outcome);
              && Extends(cfg, s, r) && Sound(cfg, r) && r.trace == a.trace
              && r.stepBudget == if action.AskUser? then a.stepBudget else SaturatingSub(a.stepBudget, 1)
  {
    hide Extends, Sound;
    forall reason, outcome
      ensures var r := RecordTerminal(a, action, reason, outcome);
              && Extends(cfg, s, r) && Sound(cfg, r) && r.trace == a.trace
              && r.stepBudget == if action.AskUser? then a.stepBudget else SaturatingSub(a.stepBudget, 1)
    {
      SameRecords(cfg, s, a, RecordTerminal(a, action, reason, outcome));
    }
  }
}
