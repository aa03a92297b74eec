/**
 What a loop remembers of its steps: the step history, its folding into a working summary when the context is
 compacted, and the memory sections a request is built with.
 */
module WorkingMemory {
  import opened Prelude
  import Json
  import opened SessionLog

  // ---------- texts that may hold the message of a large file ----------

  /** A text, and where in it the message of a `Read` over the limit opens first, if one does. */
  datatype Text = Text(chars: string, opensAt: Option<nat>)

  function Plain(s: string): Text {
    Text(s, None)
  }

  function Joined(a: Text, b: Text): Text {
    Text(a.chars + b.chars,
         if a.opensAt.Some? then a.opensAt
         else if b.opensAt.Some? then Some(|a.chars| + b.opensAt.value) else None)
  }

  /** The longest prefix of at most `max` bytes, as cut at `str::floor_char_boundary`. */
  function Prefix(text: string, max: nat): string {
    if text == "" || Bytes(text[0]) > max then "" else [text[0]] + Prefix(text[1..], max - Bytes(text[0]))
  }

  /** `truncate`. */
  function Shorten(text: string, max: nat): string {
    if ByteLength(text) <= max then text else Prefix(text, max) + "…"
  }

  /** A text cut at a number of bytes; a message that opens at the cut or after it is gone. */
  function Capped(t: Text, max: nat): Text {
    Text(Prefix(t.chars, max),
         if t.opensAt.Some? && t.opensAt.value <= |t.chars| && ByteLength(t.chars[..t.opensAt.value]) < max
         then t.opensAt else None)
  }

  // ---------- steps ----------

  datatype StepOutcome =
    | ToolRan(ok: bool, message: string, isLargeFile: bool)
    | AskedUser(message: string, isLargeFile: bool)
    | Concluded(message: string)
    | Unobserved

  /** Why a step was taken, as the runtime puts it. */
  datatype Reason =
    | ToolUse
    | TextOnly
    | FinalAnswerCalled
    | AskUserCalled
    | FailCalled
    | BudgetSpent
    | CallLost
    | ContextLost
    | NoRouter
    | StepsDiscarded(count: nat)

  function ReasonText(r: Reason): string {
    match r
    case ToolUse => "LLM tool_use"
    case TextOnly => "LLM produced a text response with no tool calls."
    case FinalAnswerCalled => "LLM called final_answer."
    case AskUserCalled => "LLM called ask_user."
    case FailCalled => "LLM called fail."
    case BudgetSpent => "Step budget exhausted."
    case CallLost => "LLM call failed."
    case ContextLost => "LLM call failed: context window still exceeded after reactive compact."
    case NoRouter => "No LLM router available; echoing user input as final answer."
    case StepsDiscarded(count) => Json.Decimal(count)
  }

  /** What later digests say of a step; a compact boundary is the one kind without an observation. */
  datatype Step = Step(index: nat, toolName: Option<string>, reason: Reason, outcome: StepOutcome)

  datatype Journal = Journal(steps: seq<Step>, summary: Text)

  const NOTHING_DONE := Journal([], Text("", None))

  function Recorded(j: Journal, step: Step): Journal {
    j.(steps := j.steps + [step])
  }

  function Detail(message: string, isLargeFile: bool, max: nat): Text {
    Text(Shorten(message, max), if isLargeFile then Some(0) else None)
  }

  /** `step_outcome_text`. */
  function OutcomeText(o: StepOutcome, max: nat): Text {
    match o
    case ToolRan(ok, message, isLargeFile) =>
      var status := if ok then "ok" else "error";
      if message == "" then Plain(status) else Joined(Plain(status + ": "), Detail(message, isLargeFile, max))
    case AskedUser(message, isLargeFile) => Joined(Plain("ask_user: "), Detail(message, isLargeFile, max))
    case Concluded(message) => Plain("final: " + Shorten(message, max))
    case Unobserved => Plain("no observation")
  }

  function ToolNameOf(step: Step): string {
    if step.toolName.Some? then step.toolName.value else "unknown"
  }

  function StepLine(step: Step): Text {
    Joined(Plain("\nStep " + Json.Decimal(step.index) + ": " + ToolNameOf(step) + " — "
                 + Shorten(ReasonText(step.reason), 80) + " — "), OutcomeText(step.outcome, 100))
  }

  function StepLines(steps: seq<Step>): Text {
    if steps == [] then Plain("") else Joined(StepLines(steps[..|steps| - 1]), StepLine(steps[|steps| - 1]))
  }

  /** `summarize_discarded_steps`: the digest made without a model. */
  function Digest(steps: seq<Step>): Text {
    Joined(Plain("[Compact summary — " + Json.Decimal(|steps|) + " steps discarded]"), StepLines(steps))
  }

  // ---------- compaction of the history ----------

  /**
   How the model takes part in a compaction of the step history. It is not asked if its circuit breaker is open
   or the messages could not be summarized; a blank answer is none.
   */
  datatype Summarizer = NotAsked | NoAnswer | Summary(text: string)

  /** A compaction, but for the messages: its summarizer, and the summary of the messages with their number, if any. */
  datatype Compaction = Compaction(summarizer: Summarizer, ofMessages: Option<(nat, string)>)

  /** What is told: a question to the user, or a discarded step to the summarizer. */
  datatype Told =
    | Asked(depth: nat, text: Text)
    | Shown(index: nat, toolName: string, reason: string, text: Text)

  function ShownSteps(steps: seq<Step>): seq<Told> {
    if steps == [] then []
    else
      var last := steps[|steps| - 1];
      ShownSteps(steps[..|steps| - 1])
      + [Shown(last.index, ToolNameOf(last), Shorten(ReasonText(last.reason), 100), OutcomeText(last.outcome, 150))]
  }

  function Boundary(index: nat, discarded: nat): Step {
    Step(index, None, StepsDiscarded(discarded), Unobserved)
  }

  predicate HasBoundary(steps: seq<Step>) {
    exists i :: 0 <= i < |steps| && steps[i].outcome.Unobserved?
  }

  /** The steps that a compaction takes out of the history, all but the last `tail`. */
  function Discarded(j: Journal, tail: nat): seq<Step> {
    if |j.steps| <= tail then [] else j.steps[..|j.steps| - tail]
  }

  function FreshSummary(c: Compaction, discarded: seq<Step>): Text {
    if c.summarizer.Summary? && Trim(c.summarizer.text) != "" then Plain(c.summarizer.text) else Digest(discarded)
  }

  /** `apply_compact_state`: the new summary comes first, and the whole is cut off. */
  function WithSummary(j: Journal, newest: Text, max: nat): Text {
    Capped(if j.summary.chars == "" then newest else Joined(Joined(newest, Plain("\n\n")), j.summary), max)
  }

  /** `compact_history` and `compact_history_with_llm`. */
  function HistoryCompacted(j: Journal, c: Compaction, index: nat, tail: nat, max: nat): Journal {
    var discarded := Discarded(j, tail);
    if discarded == [] then j
    else
      Journal([Boundary(index, |discarded|)] + j.steps[|discarded|..],
              WithSummary(j, FreshSummary(c, discarded), max))
  }

  /** `seed_compact_summary_if_missing`: without a summary of steps, that of the messages takes its place. */
  function Seeded(j: Journal, c: Compaction, index: nat): Journal {
    if c.ofMessages.Some? && j.summary.chars == "" then
      Journal([Boundary(index, c.ofMessages.value.0)] + j.steps, Plain(c.ofMessages.value.1))
    else j
  }

  function Folded(j: Journal, c: Compaction, index: nat, tail: nat, max: nat): Journal {
    Seeded(HistoryCompacted(j, c, index, tail, max), c, index)
  }

  function ToldBy(j: Journal, c: Compaction, tail: nat): seq<Told> {
    if c.summarizer.NotAsked? then [] else ShownSteps(Discarded(j, tail))
  }

  /** `write_back_compact_summaries`: what the memory store is given when a request ends. */
  function WrittenBack(j: Journal): Option<string> {
    if j.summary.chars != "" && HasBoundary(j.steps) then Some(j.summary.chars) else None
  }

  // ---------- memory sections ----------

  /** What a request remembers: its session's turns, what long-term memory recalls, and a resumed loop's summary. */
  datatype Memory = Memory(continuity: string, recall: string, working: string)

  function RoleLabel(role: Role): string {
    match role
    case User => "user"
    case Assistant => "assistant"
    case System => "system"
  }

  function ContinuityLine(t: Turn): string {
    "- " + RoleLabel(t.role) + ": " + t.content
  }

  function ContinuityLines(history: seq<Turn>): seq<string> {
    if history == [] then [] else ContinuityLines(history[..|history| - 1]) + [ContinuityLine(history[|history| - 1])]
  }

  /** `structured_sections`. */
  function Sections(history: seq<Turn>, recall: string, summary: string): Memory {
    Memory(Join(ContinuityLines(history), "\n"), recall, Trim(summary))
  }

  function NamedSection(title: string, content: string): seq<string> {
    if Trim(content) == "" then [] else [title + ":\n" + Trim(content)]
  }

  /** `named_sections_text`. */
  function MemoryText(m: Memory): string {
    Join(NamedSection("Short-term continuity", m.continuity) + NamedSection("Long-term recall", m.recall)
         + NamedSection("Working memory", m.working), "\n\n")
  }

  const MAX_MEMORY_CHARS := 40_000

  /** `memory_section`: the block of the system prompt, or nothing. */
  function MemoryBlock(m: Memory): string {
    var text := MemoryText(m);
    if text == "" then ""
    else if |text| > MAX_MEMORY_CHARS then
      "# Memory\n\n" + text[..MAX_MEMORY_CHARS] + "\n\n[Note: memory content truncated at "
      + Json.Decimal(MAX_MEMORY_CHARS) + " chars]"
    else "# Memory\n\n" + text
  }
}
