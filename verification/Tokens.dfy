/** Saturating token totals, per turn, per trace and per session, and a turn's costs. */
module Tokens {
  import opened Prelude
  import opened Json

  const U64_MAX: u64 := U64_LIMIT - 1

  function SaturatingAdd(a: u64, b: u64): u64 {
    if a + b > U64_MAX then U64_MAX else a + b
  }

  /** Estimated dollars, in all and by what they were spent on. */
  datatype Costs = Costs(estimated: real, uncachedInput: real, cacheWrite: real, cacheRead: real, output: real)

  const NO_COSTS := Costs(0.0, 0.0, 0.0, 0.0, 0.0)

  function AddCosts(a: Costs, b: Costs): Costs {
    Costs(a.estimated + b.estimated, a.uncachedInput + b.uncachedInput, a.cacheWrite + b.cacheWrite,
          a.cacheRead + b.cacheRead, a.output + b.output)
  }

  /** The events of one turn that the accumulators look at. */
  datatype LoopEvent =
    | TokenUsage(promptTokens: u64, outputTokens: u64, costs: Costs, modelId: Option<string>)
    | StepComplete(step: nat)
    | ToolStart(toolName: string)
    | OtherEvent

  /** A stored event, with the time at which it was recorded. */
  datatype TimestampedEvent = TimestampedEvent(timestampMs: u64, event: LoopEvent)

  function Events(stored: seq<TimestampedEvent>): (events: seq<LoopEvent>)
    ensures |events| == |stored| && forall i :: 0 <= i < |stored| ==> events[i] == stored[i].event
  {
    if stored == [] then [] else Events(stored[..|stored| - 1]) + [stored[|stored| - 1].event]
  }

  datatype TurnTokens = TurnTokens(prompt: u64, output: u64, costs: Costs, modelId: Option<string>)

  const NO_TOKENS := TurnTokens(0, 0, NO_COSTS, None)

  datatype TraceSummary = TraceSummary(
    runId: string,
    stepCount: nat,
    toolCalls: seq<string>,
    startTime: u64,
    endTime: u64,
    totalPrompt: u64,
    totalOutput: u64)

  /** The exact sum of the prompt or output tokens of all calls. */
  function Sum(events: seq<LoopEvent>, prompt: bool): nat {
    if events == [] then 0
    else
      var last := events[|events| - 1];
      Sum(events[..|events| - 1], prompt)
      + (if last.TokenUsage? then (if prompt then last.promptTokens else last.outputTokens) else 0)
  }

  function Capped(n: nat): u64 {
    if n > U64_MAX then U64_MAX else n
  }

  lemma CappedAdd(n: nat, m: nat)
    ensures SaturatingAdd(Capped(n), Capped(m)) == Capped(n + m)
  {
  }

  function ToolNames(events: seq<LoopEvent>): seq<string> {
    if events == [] then []
    else
      var last := events[|events| - 1];
      ToolNames(events[..|events| - 1]) + (if last.ToolStart? then [last.toolName] else [])
  }

  function LastModel(events: seq<LoopEvent>): Option<string> {
    if events == [] then None
    else
      var last := events[|events| - 1];
      if last.TokenUsage? && last.modelId.Some? then last.modelId else LastModel(events[..|events| - 1])
  }

  function TotalCosts(events: seq<LoopEvent>): Costs {
    if events == [] then NO_COSTS
    else
      var last := events[|events| - 1];
      var earlier := TotalCosts(events[..|events| - 1]);
      if last.TokenUsage? then AddCosts(earlier, last.costs) else earlier
  }

  /** The accumulator of a completed JSON or pipe turn: the exact sums of tokens, cut off at 64 bits, and of costs. */
  method AccumulateTurn(events: seq<LoopEvent>) returns (tokens: TurnTokens)
    ensures tokens == TurnTokens(Capped(Sum(events, true)), Capped(Sum(events, false)), TotalCosts(events),
                                 LastModel(events))
  {
    tokens := NO_TOKENS;
    for i := 0 to |events|
      invariant tokens == TurnTokens(Capped(Sum(events[..i], true)), Capped(Sum(events[..i], false)),
                                     TotalCosts(events[..i]), LastModel(events[..i]))
    {
      assert events[..i + 1][..i] == events[..i];
      if events[i].TokenUsage? {
        tokens := TurnTokens(
          SaturatingAdd(tokens.prompt, events[i].promptTokens),
          SaturatingAdd(tokens.output, events[i].outputTokens),
          AddCosts(tokens.costs, events[i].costs),
          if events[i].modelId.Some? then events[i].modelId else tokens.modelId);
      }
    }
    assert events[..|events|] == events;
  }

  /**
   The summary of a stored trace: its first and last times, the largest completed step, the started tools
   and the capped sums. An unsafe name, a trace that is not there and an empty one have no summary.
   */
  method Summarize(runId: string, traces: map<string, seq<TimestampedEvent>>) returns (r: Option<TraceSummary>)
    ensures r.Some? <==> IsSafeName(runId) && runId in traces && traces[runId] != []
    ensures r.Some? ==>
              var stored, events := traces[runId], Events(traces[runId]);
              && r.value.runId == runId && r.value.toolCalls == ToolNames(events)
              && r.value.startTime == stored[0].timestampMs && r.value.endTime == stored[|stored| - 1].timestampMs
              && r.value.totalPrompt == Capped(Sum(events, true)) && r.value.totalOutput == Capped(Sum(events, false))
              && (forall i :: 0 <= i < |events| && events[i].StepComplete? ==> events[i].step <= r.value.stepCount)
              && (r.value.stepCount > 0 ==>
                    exists i :: 0 <= i < |events| && events[i] == StepComplete(r.value.stepCount))
  {
    if !IsSafeName(runId) || runId !in traces || traces[runId] == [] {
      return None;
    }
    var stored := traces[runId];
    ghost var events := Events(stored);
    var stepCount, toolCalls, totalPrompt: u64, totalOutput: u64 := 0, [], 0, 0;
    for i := 0 to |stored|
      invariant totalPrompt == Capped(Sum(events[..i], true)) && totalOutput == Capped(Sum(events[..i], false))
      invariant toolCalls == ToolNames(events[..i])
      invariant forall k :: 0 <= k < i && events[k].StepComplete? ==> events[k].step <= stepCount
      invariant stepCount > 0 ==> exists k :: 0 <= k < i && events[k] == StepComplete(stepCount)
    {
      hide Events, IsSafeName;
      assert events[..i + 1][..i] == events[..i];
      match stored[i].event
      case StepComplete(step) => stepCount := if step > stepCount then step else stepCount;
      case ToolStart(name) => toolCalls := toolCalls + [name];
      case TokenUsage(prompt, output, _, _) =>
        totalPrompt := SaturatingAdd(totalPrompt, prompt);
        totalOutput := SaturatingAdd(totalOutput, output);
      case OtherEvent =>
    }
    assert events[..|events|] == events;
    r := Some(TraceSummary(runId, stepCount, toolCalls, stored[0].timestampMs, stored[|stored| - 1].timestampMs,
                           totalPrompt, totalOutput));
  }

  /** A session total: saturated turn totals added with saturation. */
  function SessionTotal(turns: seq<seq<LoopEvent>>, prompt: bool): u64 {
    if turns == [] then 0
    else SaturatingAdd(SessionTotal(turns[..|turns| - 1], prompt), Capped(Sum(turns[|turns| - 1], prompt)))
  }

  function Flatten(turns: seq<seq<LoopEvent>>): seq<LoopEvent> {
    if turns == [] then [] else Flatten(turns[..|turns| - 1]) + turns[|turns| - 1]
  }

  lemma {:induction false} SumConcat(a: seq<LoopEvent>, b: seq<LoopEvent>, prompt: bool)
    ensures Sum(a + b, prompt) == Sum(a, prompt) + Sum(b, prompt)
    decreases |b|
  {
    if b == [] {
      assert a + b == a;
    } else {
      assert (a + b)[..|a + b| - 1] == a + b[..|b| - 1];
      SumConcat(a, b[..|b| - 1], prompt);
    }
  }

  /** Saturating twice loses nothing: the session total is the saturated sum over all calls of all turns. */
  lemma {:induction false} SessionTotalIsGrandSum(turns: seq<seq<LoopEvent>>, prompt: bool)
    ensures SessionTotal(turns, prompt) == Capped(Sum(Flatten(turns), prompt))
  {
    if turns != [] {
      var before, last := turns[..|turns| - 1], turns[|turns| - 1];
      SessionTotalIsGrandSum(before, prompt);
      SumConcat(Flatten(before), last, prompt);
      CappedAdd(Sum(Flatten(before), prompt), Sum(last, prompt));
    }
  }
}
