# Roku: a verified model of the agent runtime's core

Roku is an agent: a loop that asks a language model what to do, runs the tools it asks for, and
keeps the conversation in files. This project models the parts of it where the state is richest
and proves what they keep on every run.

The main results:

- **The tool loop.** Against every adversary (any model answers, tool results, approval denials,
  compactions, timeouts and plan-mode switches) the loop ends, the LLM turns of the loop and all
  its sub-agents together never exceed the initial step budget, each turn makes one to three calls
  and at most one reactive compaction, the loop itself looks Layer 2 up at most once and its
  sub-agents at most once per `Agent` call, and the tools offered are exactly those a fresh build would
  give. If the rewrites that compaction makes hand back buffers in which every call is answered, then so
  is every request the model is sent. Over a life with pauses for the user the bound is the budget plus
  one turn per pause, and that is tight. The loop is written twice: as functions of the state, about
  which the theorems are proved, and as the mutable objects and loops of the runtime, proved equal to
  them.
- **What sub-agents and models learn.** A sub-agent's run depends on nothing of its parent but its
  tools, its budget, its directory, route and resources, the memory sections of the request, in which
  the session's history stands, and what it is asked. What is in a file that a `Read` withholds for its
  size makes no difference to a loop, its resumptions and its sub-agents exactly if its text is put in no
  question, is shown to no summarizer and is digested into no working summary that a run hands on; for
  each of the three ways there is a run in which the file gets out.
- **The session log.** Turns and metadata share one JSONL file and are told apart by a raw substring
  test. The printer and the reader are modelled down to JSON string escaping, and the test is proved
  right for every content. Any run of appends loads as exactly what was appended, any prefix of a
  file loads as a prefix of its turns, and a rewrite that dies at any step leaves the old or the new
  history. `load_after_boundary` is right exactly when no usage entry that looks like a boundary hides
  a turn.
- **The chat.** After every command of every chat run, what the store loads equals the history in
  memory, and histories keep the shape a request needs.
- **Smaller cores.** Command previews read back by a POSIX shell as the argument vector; streamed
  tool calls are reassembled independently of interleaving; the pending-loop migration store is one
  table under a condition that is exact for every run, whatever fails; token totals are capped exact
  sums; the cache gate is order-independent and monotone under exact conditions; workers are picked by
  priority and age; Telegram texts fit their limit, every page of the session list can be reached, and
  it is exactly known which buttons mean what is written on them.

## Files

| file | what it models |
|---|---|
| `Prelude.dfy` | options, results, substring and trimming helpers |
| `Json.dfy`, `JsonObject.dfy` | JSON strings, numbers and flat objects: printer, parser, raw substrings |
| `SessionLog.dfy` | the lines of a session file and how they are read, whole or torn |
| `SessionStore.dfy` | the store over a file system, compact boundaries, rewriting with a crash |
| `Messages.dfy`, `Conversation.dfy`, `Chat.dfy` | request messages, history compaction, the interactive chat |
| `Tokens.dfy` | saturating token totals, costs of a turn |
| `ShellQuote.dfy` | quoting of argument vectors and the shell's reading of them |
| `StreamDemux.dfy` | reassembling streamed tool calls |
| `PendingLoopMigration.dfy` | the read-through migration store |
| `ToolSchema.dfy` | building, freezing and deferring tool definitions |
| `WorkingMemory.dfy` | the step history, its folding into a working summary, and memory sections |
| `ToolLoop.dfy` | the tool loop and its sub-agents as functions |
| `ToolLoopProofs.dfy`, `ToolLoopRuns.dfy` | what turns, runs and lives of the loop keep |
| `ToolLoopIsolation.dfy` | what flows between a parent and its sub-agents, and what does not |
| `LargeFileTexts.dfy`, `ToolLoopLargeFiles.dfy` | how far the content of an oversized file reaches: in texts, in runs and lives |
| `LargeFileWitnesses.dfy` | runs in which it gets out |
| `ToolLoopRuntime.dfy` | the loop as mutable state and loops, equal to the functions |
| `WarmTurnGate.dfy` | the cache-utilization gate |
| `Workers.dfy` | worker registration and dispatch |
| `TelegramCallbacks.dfy` | the callback data of session buttons, written and read |
| `Telegram.dfy` | truncation, pagination and the pager |

The adversary of the tool loop is an arbitrary function from the number of LLM turns taken so far to
everything that happens on the next one; because it is arbitrary, results hold for whatever the
model, the tools, the gate, the clock and the compactions do. Contents of tool results and
summaries are part of it; the question put to the user is computed from the state.

## Where the code and its documentation differ

- `load_after_boundary` is described as loading the turns after the last compact boundary. A usage
  entry whose model id is `compact_boundary`, or ends with a quotation mark followed by it, is taken
  for a boundary too (`SessionStore.LoadAfterBoundaryExactly`).
- The step budget bounds a run, but asking the user is not charged, so a loop that pauses and
  resumes takes a turn per pause without spending anything (`ToolLoopRuns.AskingIsFree`).
- `ask_user` is offered to the model as a way to put a question. Once a tool has been observed, that
  question is replaced by the last observation: its candidates, or else its message
  (`ToolLoopRuns.ResultIsJustified`). The message of a `Read` is the file itself, so a file that is
  withheld from the model as too large is put to the user, or reported to the parent of a sub-agent, by
  the next question. Sub-agents are not offered `ask_user` by default, but the loop takes the call from
  one all the same.
- The withheld file also stays in the step history. A compaction shows the first 150 bytes of it to the
  summarizer, or digests the first 100 into the working summary, which is written to the memory store
  and stands in the system prompt of the resumed loop and of its sub-agents
  (`ToolLoopLargeFiles.LargeFilesStayHiddenExactly`,
  `LargeFileWitnesses.LargeFileReachesTheNextRequest`).
- A sub-agent is described as having an independent message history. It does start from its task alone,
  but its system prompt takes over the memory sections of its parent's request, and with them the whole
  history of the session, up to 40,000 characters (`ToolLoopIsolation.HistoryReachesSubAgents`).
- The interpretation of an observation says that an exhausted recovery budget forces failure; the
  tool loop only puts a notice to the model and goes on.
- Leaving plan mode does not bring the task tools back: what was disallowed stays disallowed
  (`ToolSchema.DisallowedOnlyGrows`).
- A turn whose calls are all pseudo-tools or denied does not advance the step index
  (`ToolLoopRuns.TurnCounters`).
- The chat adds the tokens of every dispatch of a turn to the session totals, but writes usage
  metadata only for the first (`Chat.Chat.HandleTurn`).
- A migration that fails to write the primary backend and then clears the prior one loses the
  snapshot (`PendingLoopMigration.MigratingBackend.Load`), and a clear before the first load is
  undone by it (`PendingLoopMigration.ClearThenLoadResurfaces`).
- The gate reports a line that is not JSON as a bad trace (exit 2), but a line that is JSON and no
  object, one nested too deep for the decoder, and a cache read too large to be divided as a double
  raise exceptions nobody catches (exit 1), so with both kinds the order of lines matters
  (`WarmTurnGate.OrderMattersOnlyForBadTraces`). Raising `cache_read_input_tokens` can turn a pass into
  a failure in three cases: a number that becomes too long for the decoder (over 4300 digits) rejects the
  trace, on whatever event it stands; a negative value that becomes non-negative brings a sample into
  being; and a quotient that becomes too large ends the script (`WarmTurnGate.RaiseIsSafeExactly`).
- The two functions that write and read callback data take any session id, but the data of a delete
  button is split at colons, so an id with one would come back cut. The ids the session store makes
  have none, and for them every button means what is written on it
  (`TelegramCallbacks.GeneratedIdsAreCarried`).
- The truncation for Telegram can exceed its limit in bytes, by at most two, though not in
  characters (`Telegram.OverlongExactly`).

## Model

| member | source | states |
|---|---|---|
| Json.ParseStringUndoesQuote | crates/roku-cmd/src/session_store.rs:201-204 | any string is read back from its quoted and escaped JSON form, whatever text follows it |
| Json.ParseNatUndoesDecimal | crates/roku-common-types/src/lib.rs:92-98 | any 64-bit number is read back from its decimal form |
| Json.NoProperPrefixIsDocument | crates/roku-cmd/src/session_store.rs:175-180 | if a text is one JSON object, no proper prefix of it is accepted as one |
| JsonObject.ObjectRoundTrip | crates/roku-cmd/src/session_store.rs:201-204 | parsing a printed object gives back its members in order |
| JsonObject.RawTextIsKeyOrValue | crates/roku-cmd/src/session_store.rs:172-174 | a quoted word occurs in the raw text of a printed object exactly when some key or string value is that word or ends with a quotation mark and it; escaping hides every other occurrence |
| SessionLog.TypeTagMarksMetadata | crates/roku-cmd/src/session_store.rs:35-46 | the raw text `"type":` occurs in a written line exactly when it is metadata, for every turn content |
| SessionLog.BoundaryTagInEntries | crates/roku-cmd/src/session_store.rs:126-132 | which metadata lines contain the quoted word `compact_boundary` |
| SessionLog.LineRoundTrip | crates/roku-cmd/src/session_store.rs:164-181 | each written line is classified and decoded as what was written |
| SessionLog.LinesConcat | crates/roku-cmd/src/session_store.rs:161-166 | appending to a file that ends with a newline leaves its lines as they were |
| SessionLog.AppendedTurnsAreRead | crates/roku-cmd/src/session_store.rs:154-230 | appending items to any cleanly ending file adds exactly their turns to what is loaded, and their number to the count |
| SessionLog.TornLineIsNoTurn | crates/roku-cmd/src/session_store.rs:175-180 | no proper prefix of a written line is read as a turn |
| SessionLog.TornFileKeepsWholeTurns | crates/roku-cmd/src/session_store.rs:154-184 | any prefix of a written file loads as exactly the turns whose text is whole in it, a prefix of all turns |
| SessionLog.TornAppendKeepsWholeTurns | crates/roku-cmd/src/session_store.rs:187-207 | an interrupted append adds exactly the turns whose text is whole |
| SessionStore.FileNamesDistinct | crates/roku-cmd/src/session_store.rs:317-318 | distinct sessions have distinct files, and no session's file is another's temporary file |
| SessionStore.SinceBoundaryLoses | crates/roku-cmd/src/session_store.rs:126-150 | the turns kept after the last line taken for a boundary never outnumber those after the last real one, and are fewer exactly when an impostor hides a turn |
| SessionStore.LoadAfterBoundaryExactly | crates/roku-cmd/src/session_store.rs:105-151 | `load_after_boundary` gives the turns after the last compact boundary if and only if no usage entry that looks like one comes after such a turn |
| SessionStore.LoadAfterBoundaryCanLoseATurn | crates/roku-cmd/src/session_store.rs:126-132 | a log without compaction from which `load_after_boundary` drops a turn |
| SessionStore.SessionStore.Load | crates/roku-cmd/src/session_store.rs:154-184 | an invalid id is refused; otherwise exactly the turns of the file, none for a missing file |
| SessionStore.SessionStore.CountLines | crates/roku-cmd/src/session_store.rs:342-355 | the number of lines that are neither blank nor metadata |
| SessionStore.SessionStore.LoadAfterBoundary | crates/roku-cmd/src/session_store.rs:105-151 | the line-numbering loop keeps exactly the turns since the last line taken for a boundary |
| SessionStore.SessionStore.Append | crates/roku-cmd/src/session_store.rs:187-207 | exactly one line per turn is added to that session's text and to no other |
| SessionStore.SessionStore.AppendEntries | crates/roku-cmd/src/session_store.rs:210-230 | exactly one line per entry is added to that session's text and to no other |
| SessionStore.SessionStore.Clear | crates/roku-cmd/src/session_store.rs:279-286 | the session reads as empty, every other session as before |
| SessionStore.SessionStore.RewriteHistory | crates/roku-cmd/src/session_store.rs:308-339 | killed after any number of steps, it leaves the whole old or the whole new history, every other session untouched, and is done exactly when the rename was reached |
| SessionStore.RunWrites | crates/roku-cmd/src/session_store.rs:154-230 | after any sequence of `append` and `append_entries` calls, `load` gives what it gave before plus exactly the appended turns in order, and the count grows by their number |
| Messages.RequestAlternates | crates/roku-agent-runtime/src/runtime.rs:1341-1360 | the messages built from a shaped history strictly alternate and end in the new user message |
| Conversation.CompactionKeepsShape | crates/roku-cmd/src/conversation.rs:34-86 | compaction keeps an optional summary followed by exchanges, and the last six turns unchanged |
| Conversation.ExchangeKeepsShape | crates/roku-cmd/src/turn.rs:278-300 | recording one exchange keeps the shape |
| Conversation.History.Compact | crates/roku-cmd/src/conversation.rs:34-86 | the in-place drain and insert give the compacted history, and nothing changes when there are six turns or fewer |
| Tokens.AccumulateTurn | crates/roku-cmd/src/turn.rs:350-411 | a turn's totals are the exact sums over its calls, cut off at the largest 64-bit number; each of its five costs is the sum over its calls; the model id is the last one reported |
| Tokens.Summarize | crates/roku-cmd/src/trace_store.rs:138-181 | a trace summary has the same cut-off sums, its first and last times, the tools in order and the largest completed step; an unsafe name, a missing or an empty trace has none |
| Tokens.SessionTotalIsGrandSum | crates/roku-cmd/src/turn.rs:95-96 | session totals saturated turn by turn equal the exact sum over all calls of all turns, cut off once |
| Chat.AddAllIsCappedSum | crates/roku-cmd/src/turn.rs:183-186 | saturating at every dispatch of a user input gives the exact sum cut off once |
| Chat.ExchangesKeepShape | crates/roku-cmd/src/turn.rs:156-229 | however often the agent asks back, the recorded exchanges keep the history's shape |
| Chat.Chat.DispatchAndRecord | crates/roku-cmd/src/turn.rs:244-300 | a completed or asking turn adds its exchange to file and memory, a cancelled or failed one adds nothing to either |
| Chat.Chat.ReplyLoop | crates/roku-cmd/src/turn.rs:156-229 | the reply prompt dispatches each non-blank line until the agent stops asking, and records exactly those exchanges |
| Chat.Chat.HandleTurn | crates/roku-cmd/src/turn.rs:68-238 | one user input: the exact text added to the file, the exact history and totals, other sessions untouched |
| Chat.Chat.Compact | crates/roku-cmd/src/chat.rs:177-206 | the file becomes the rendered compacted history and one boundary entry, and loads as the history in memory |
| Chat.Chat.Clear | crates/roku-cmd/src/chat.rs:155-166 | memory and file are empty, other sessions untouched |
| Chat.Chat.Switch | crates/roku-cmd/src/commands/session.rs:127-146 | a valid target is loaded into memory, an invalid one changes nothing |
| Chat.Chat.New | crates/roku-cmd/src/commands/session.rs:46-77 | a new session is entered only if its id is valid and it has no turns |
| Chat.Chat.Execute | crates/roku-cmd/src/chat.rs:130-206 | every command keeps file and memory in step and every history shaped |
| Chat.RunChat | crates/roku-cmd/src/chat.rs:83-206 | after any run of commands the store loads the session exactly as the history in memory, and the next request alternates and ends in User |
| ShellQuote.WordsOfPreview | crates/roku-common-types/src/execution_preview.rs:52-70 | POSIX word splitting and quote removal of a rendered command give back exactly its argument vector, for any arguments |
| ShellQuote.PreviewIsInjective | crates/roku-common-types/src/execution_preview.rs:52-70 | different argument vectors are rendered differently |
| StreamDemux.Accumulate | crates/roku-agent-runtime/src/runtime.rs:1946-1989 | the receiving loop with its table of open calls computes the fold of the chunks |
| StreamDemux.TextIsTextDeltas | crates/roku-agent-runtime/src/runtime.rs:1953-1961 | the text is the concatenation of the text deltas, whatever else is interleaved |
| StreamDemux.IdsDoNotInterfere | crates/roku-agent-runtime/src/runtime.rs:1963-1984 | what is open and what is finished for an id depends only on that id's chunks |
| StreamDemux.CallsFollowDoneOrder | crates/roku-agent-runtime/src/runtime.rs:1974-1984 | finished calls appear in the order of their Done chunks, with the name and concatenated arguments of their own stream |
| StreamDemux.Demultiplexes | crates/roku-agent-runtime/src/runtime.rs:1946-1989 | any order-preserving interleaving of well-formed streams yields each call exactly once, complete, and leaves nothing open |
| PendingLoopMigration.MigratingBackend.Load | crates/roku-cmd/src/runtime.rs:716-735 | a successful load returns the merged view; views change only when promotion fails and clearing succeeds, and then the snapshot is lost |
| PendingLoopMigration.MigratingBackend.Save | crates/roku-cmd/src/runtime.rs:736-743 | a save makes the view what was saved unless it is a clear over a prior entry |
| PendingLoopMigration.PriorOnlyShrinks | crates/roku-cmd/src/runtime.rs:716-744 | no operation adds to the prior backend |
| PendingLoopMigration.ClearThenLoadResurfaces | crates/roku-cmd/src/runtime.rs:716-744 | a clear before the first load is undone by the prior entry |
| PendingLoopMigration.OneTableIffPriorIsEmpty | crates/roku-cmd/src/runtime.rs:716-744 | every run behaves as one table for a session if and only if the prior backend holds nothing for it |
| PendingLoopMigration.FaithfulAfterFirstLoad | crates/roku-cmd/src/runtime.rs:716-744 | once loaded while the primary held nothing, every later load returns the most recent save, clears included |
| PendingLoopMigration.FaithfulWithoutClears | crates/roku-cmd/src/runtime.rs:716-744 | a run without clears of a session is faithful from any state |
| PendingLoopMigration.FaithfulExactly | crates/roku-cmd/src/runtime.rs:716-743 | a run over reliable backends is faithful if and only if its last save of the session is not a clear that came before any load moved the prior entry |
| PendingLoopMigration.FaithfulDespiteFaultsExactly | crates/roku-cmd/src/runtime.rs:716-743 | a run in which any backend call may fail is faithful if and only if no call goes wrong (a clear over a prior entry, a load that loses a snapshot) without a later save or loss |
| ToolSchema.PrepareIsFresh | crates/roku-agent-runtime/src/runtime.rs:1388-1418 | whatever happened before, the frozen or reused definitions equal a fresh build from the tools visible and disallowed on that turn |
| ToolSchema.AlwaysCoherent | crates/roku-agent-runtime/src/runtime.rs:3237-3285 | coherence of snapshot and flags over any run of turns, plan-mode switches, searches and resumptions |
| ToolSchema.BuildExactly | crates/roku-agent-runtime/src/runtime_loop/tool_loop.rs:49-184 | a definition is built exactly when it is the catalog's for a visible tool, or a pseudo-tool's, and is not disallowed |
| ToolSchema.OfferedTools | crates/roku-agent-runtime/src/runtime_loop/tool_loop.rs:219-294 | each definition is sent or can be searched for, a loaded one is always sent, nothing disallowed is sent but `tool_search` |
| ToolSchema.DeferIsIdempotent | crates/roku-agent-runtime/src/runtime_loop/tool_loop.rs:219-294 | deferring twice changes neither the state nor what is sent |
| ToolSchema.SearchedToolIsSent | crates/roku-agent-runtime/src/runtime.rs:2762-2806 | a tool announced by `tool_search` is sent on every later turn of the run exactly when the current build still has it |
| ToolSchema.PlanModeOffersNothingMutating | crates/roku-agent-runtime/src/runtime.rs:3251-3275 | in plan mode only read-only catalog tools and pseudo-tools that change no task are offered |
| ToolSchema.DisallowedOnlyGrows | crates/roku-agent-runtime/src/runtime.rs:3260-3271 | a disallowed tool stays disallowed through plan-mode switches and resumptions |
| ToolLoop.FirstTerminal | crates/roku-agent-runtime/src/runtime.rs:2653-2731 | the earliest terminal pseudo-tool of a turn, if any |
| ToolLoop.ServeAll | crates/roku-agent-runtime/src/runtime.rs:2733-3042 | serving at least one call costs at least one step |
| ToolLoopProofs.AttemptFollowsPattern | crates/roku-agent-runtime/src/runtime.rs:1621-2620 | the calls of a turn: an optional Layer 2 lookup, a call, then an output retry, or one reactive compaction and a second call with its own retry, and nothing else |
| ToolLoopProofs.PatternBounds | crates/roku-agent-runtime/src/runtime.rs:1548-1564 | one to three calls and at most one reactive compaction per turn; with a sender one announcement right before each call, of which only the first can report a rebuild and does so exactly when there was one |
| ToolLoopProofs.SubAgentRun | crates/roku-agent-runtime/src/sub_agent.rs:58-188 | a sub-agent's turns are paid from what leaves the parent's budget, exactly once |
| ToolLoopProofs.ServeKeeps | crates/roku-agent-runtime/src/runtime.rs:2739-3042 | on each of the five paths a call costs at least one step more than its sub-agent's turns |
| ToolLoopProofs.TurnContinues | crates/roku-agent-runtime/src/runtime.rs:2622-3112 | a turn that continues pays for itself and for all turns of its sub-agents, and leaves less budget |
| ToolLoopProofs.RunKeeps | crates/roku-agent-runtime/src/runtime.rs:1304-3112 | the main invariant of every run: all turn records good (fresh schema, nothing disallowed sent, nesting at most one, call pattern), one Layer 2 lookup per run and per sub-agent call, LLM turns of the loop and its sub-agents within the initial budget, and budget conserved up to the one turn of a run that asks the user or times out |
| ToolLoopRuns.TotalsBounded | crates/roku-agent-runtime/src/runtime.rs:1990-1999 | bounds on calls, compactions and announcements over any part of a trace |
| ToolLoopRuns.AllLookups | crates/roku-agent-runtime/src/runtime.rs:1744-1752 | all Layer 2 lookups between two states: one by the loop itself unless it has had it, and one per `Agent` call |
| ToolLoopRuns.RunCallBounds | crates/roku-agent-runtime/src/runtime.rs:1304-3112 | over a run with its sub-agents: at most three calls and one reactive compaction per step of budget, at most one Layer 2 lookup of its own and one more per `Agent` call, as many announcements as calls |
| ToolLoopRuns.LifeBound | crates/roku-agent-runtime/src/runtime.rs:728-758 | over a run and its resumptions: turns within budget plus pauses, at most one Layer 2 lookup of its own and one more per `Agent` call, every schema still a fresh build |
| ToolLoopRuns.AskingIsFree | crates/roku-agent-runtime/src/runtime.rs:728-758 | a model that always asks takes a turn per reply and keeps the whole budget, so the bound is tight |
| ToolLoopRuns.ServeServes | crates/roku-agent-runtime/src/runtime.rs:2739-3042 | each call adds its own result, at most one notice, and one record of the path it took |
| ToolLoopRuns.TurnAnswersEveryCall | crates/roku-agent-runtime/src/runtime.rs:2622-3042 | a continuing turn appends the assistant message and exactly one result per call, in order and by id, on all five paths; denied calls run no tool and no sub-agent |
| ToolLoopRuns.TurnCounters | crates/roku-agent-runtime/src/runtime_loop/state_update.rs:65-107 | recovery budget drops by exactly the recoverable failures of tools; the step index advances exactly when some call reached a tool |
| ToolLoopRuns.TerminalTurn | crates/roku-agent-runtime/src/runtime.rs:2653-2731 | a turn with a terminal pseudo-tool serves no call, and the earliest one decides the end, the status and the charge |
| ToolLoopRuns.EndsAsReported | crates/roku-agent-runtime/src/runtime.rs:703-724 | a run is cut off only under a timer, and otherwise leaves the status of the action it reports and has spent a step unless it asks the user |
| ToolLoopRuns.ResultIsJustified | crates/roku-agent-runtime/src/runtime.rs:2583-2731 | the result of any run is what the last message of its buffer says (text, or the earliest terminal call), unless it failed because the budget was spent or the model did not answer; the text of a question is the model's own exactly as long as no tool has been observed, and from then on the last observation's candidates or message |
| ToolLoopIsolation.SubAgentIsIndependent | crates/roku-agent-runtime/src/sub_agent.rs:52-188 | parents that agree on what is asked, the visible tools, the budget, the working directory, the route's candidate tools, the bound resources and the memory sections get the same report and add the same turns (requests included), services, questions and summarizer prompts, if answered alike, whatever their message buffers, step histories, observations, earlier turns and services were |
| ToolLoopIsolation.RunAlike | crates/roku-agent-runtime/src/runtime.rs:1304-3112 | below the top level a run does not depend on the turns, services and tellings recorded before it |
| ToolLoopIsolation.FirstRequest | crates/roku-agent-runtime/src/runtime.rs:1304-1441 | the first request of a sub-agent's run is built from the context the run starts with |
| ToolLoopIsolation.SubAgentIsToldTheMemory | crates/roku-agent-runtime/src/sub_agent.rs:58-175 | the first request of a sub-agent is built with the memory sections of its parent's request |
| ToolLoopIsolation.HistoryReachesSubAgents | crates/roku-agent-runtime/src/service/memory_context.rs:49-75 | two sessions whose histories part in their last turn send different first requests in a sub-agent with the same task |
| ToolLoopIsolation.PromptTellsTurnsApart | crates/roku-agent-runtime/src/runtime_loop/system_prompt.rs:216-230 | for sessions of one turn below the cap the memory blocks of the system prompt themselves differ |
| ToolLoopIsolation.ReportIsBounded | crates/roku-agent-runtime/src/sub_agent.rs:190-207 | a report of up to 4000 characters is passed on whole; a longer one is its first 4000 and a fixed notice, never more than 4048 in all |
| LargeFileTexts.CappedLike | crates/roku-agent-runtime/src/runtime_loop/compact.rs:229-259 | when a summary is cut at a number of bytes, the message of a large file in it is gone whatever the file, or can still show |
| LargeFileTexts.DigestLike | crates/roku-agent-runtime/src/runtime_loop/compact.rs:84-129 | digests of histories that differ in the messages of large files are the same up to the first such message, and differ right there if the messages open differently |
| LargeFileTexts.FoldedLike | crates/roku-agent-runtime/src/runtime_loop/compact.rs:137-305 | a compaction of such histories leaves such histories and such summaries, whatever the summarizer answers |
| ToolLoopLargeFiles.LargeReadIsWithheld | crates/roku-agent-runtime/src/runtime.rs:2988-3001 | the model that reads a file over 100,000 bytes is told an error, the same whatever is in the file |
| ToolLoopLargeFiles.AskParallel | crates/roku-agent-runtime/src/runtime_loop/ask_user.rs:139-210 | two questions after observations that differ at most in the text of a large file are the same unless they repeat it |
| ToolLoopLargeFiles.FoldParallel | crates/roku-agent-runtime/src/runtime.rs:1187-1302 | a compaction in two such states shows the summarizer the same, unless a large file is among the steps it is shown |
| ToolLoopLargeFiles.RunParallel | crates/roku-agent-runtime/src/runtime.rs:1304-3112 | runs against `Read`s that differ at most in the text of files over 100,000 bytes take the same turns, calls and sub-agents up to the first question or summarizer prompt that holds such a text, and part there if the texts do |
| ToolLoopLargeFiles.LargeFilesStayHiddenExactly | crates/roku-agent-runtime/src/service/runtime_loop_owner.rs:40-88 | a loop with its resumptions and sub-agents is alike in requests, results, questions, summarizer prompts, checkpointed summaries and memory write-backs, whatever files over the limit say, if and only if no question and no summarizer prompt holds the text of one and no run hands on a working summary that does |
| ToolLoopLargeFiles.BeginningIsUnmarked | crates/roku-agent-runtime/src/runtime_loop/loop_state.rs:305-345 | a loop that begins meets the start condition of that result |
| LargeFileWitnesses.LargeFileReachesTheUser | crates/roku-agent-runtime/src/runtime.rs:2685-2704 | one oversized `Read` and then `ask_user`: the run's message is the message of the read, which is the file |
| LargeFileWitnesses.LargeFileReachesTheParent | crates/roku-agent-runtime/src/sub_agent.rs:155-207 | a sub-agent that does so reports that message, cut to 4000 characters, to its parent's model |
| LargeFileWitnesses.LargeFileReachesTheNextRequest | crates/roku-agent-runtime/src/service/runtime_loop_owner.rs:48-73 | an oversized `Read`, as many further steps as the history keeps, a compaction without a model and a question that lists candidates: nothing told holds the file, and the digest of the read goes to the memory store and into the memory of the resumed loop's first request |
| LargeFileWitnesses.DigestShowsTheFile | crates/roku-agent-runtime/src/runtime_loop/compact.rs:89-129 | that digest ends with the first 100 bytes of the file |
| LargeFileWitnesses.TwoFilesTwoMemories | crates/roku-agent-runtime/src/service/memory_context.rs:47-75 | so two files that open with different visible characters give that request different memories |
| LargeFileWitnesses.SummarizerIsShownTheFile | crates/roku-agent-runtime/src/runtime_loop/compact.rs:166-197 | a summarizer that is asked is shown the first 150 bytes of each discarded step's message |
| ToolLoopRuns.InitialIsSettled | crates/roku-agent-runtime/src/runtime.rs:1341-1360 | the buffer a run starts from asks for nothing and answers nothing |
| ToolLoopRuns.TurnSettles | crates/roku-agent-runtime/src/runtime.rs:2622-3112 | a turn that continues leaves a buffer in which every call is answered |
| ToolLoopRuns.RunSettled | crates/roku-agent-runtime/src/runtime.rs:1304-3112 | if rewrites hand back buffers in which calls and results match, then so does the buffer sent on every turn of the run and of its sub-agents |
| ToolLoopRuntime.LoopState.FreezeOrReuseToolSchema | crates/roku-agent-runtime/src/runtime_loop/loop_state.rs:515-529 | a clean snapshot is reused, anything else replaced and made clean |
| ToolLoopRuntime.LoopState.RefreshVisibleTools | crates/roku-agent-runtime/src/runtime.rs:3237-3285 | the in-place refresh equals the specified one, flags included |
| ToolLoopRuntime.LoopState.ApplyDeferredMode | crates/roku-agent-runtime/src/runtime_loop/tool_loop.rs:219-294 | the splitting loop sends and withholds exactly what is specified |
| ToolLoopRuntime.LoopState.RecordTerminalStep | crates/roku-agent-runtime/src/runtime.rs:672-758 | the recorded end of a run: status, step index and charge |
| ToolLoopRuntime.SummarizeDiscardedSteps | crates/roku-agent-runtime/src/runtime_loop/compact.rs:89-104 | the line-building loop gives the specified digest |
| ToolLoopRuntime.CompactHistory | crates/roku-agent-runtime/src/runtime_loop/compact.rs:137-259 | draining, summarizing, marking the boundary and capping the summary in place equal the specified folding, with the specified prompt |
| ToolLoopRuntime.RunCompaction | crates/roku-agent-runtime/src/runtime.rs:1187-1302 | the same with the summary of the messages as a substitute |
| ToolLoopRuntime.CallWithRetries | crates/roku-agent-runtime/src/runtime.rs:1556-2620 | the retry loop with its two flags makes exactly the specified calls and announcements |
| ToolLoopRuntime.ReadReply | crates/roku-agent-runtime/src/runtime.rs:2115-2620 | what a pass makes of its reply, with the one output retry |
| ToolLoopRuntime.ExecuteSubAgent | crates/roku-agent-runtime/src/sub_agent.rs:58-188 | a fresh loop state with the parent's context and memory sections, run and discarded, has exactly the specified effect on the parent |
| ToolLoopRuntime.ServeCall | crates/roku-agent-runtime/src/runtime.rs:2739-3042 | the dispatch over five paths equals the specified one |
| ToolLoopRuntime.ServeCalls | crates/roku-agent-runtime/src/runtime.rs:2733-3042 | the loop over the calls of a turn equals the specified fold |
| ToolLoopRuntime.TakeTurn | crates/roku-agent-runtime/src/runtime.rs:1384-3112 | one iteration ends the run as specified, or continues it from a state with less budget |
| ToolLoopRuntime.ExecuteToolLoop | crates/roku-agent-runtime/src/runtime.rs:1304-3112 | the whole loop ends with the specified state and outcome, echoes its input without a router, and its LLM turns fit the budget it began with |
| WarmTurnGate.CollectWarmTurnSamples | scripts/cache-utilization-check.py:53-179 | the collecting loops give the samples and drift count of all lines, or the first failure, be it a rejected line or an uncaught exception |
| WarmTurnGate.SortSorts | scripts/cache-utilization-check.py:208 | sorting for the median keeps, for every bound, the number of samples up to it |
| WarmTurnGate.MedianMonotone | scripts/cache-utilization-check.py:208 | if no bound has more samples up to it, the median is no smaller |
| WarmTurnGate.RunCheck | scripts/cache-utilization-check.py:228-242 | the exit code from the traces: 2 or 1 for the first bad line, else the verdict on the samples; 0 without a directory |
| WarmTurnGate.CompactionIsIgnored | scripts/cache-utilization-check.py:103-108 | inserting a compaction event anywhere leaves the exit code alone |
| WarmTurnGate.OrderMattersOnlyForBadTraces | scripts/cache-utilization-check.py:88-178 | the exit code is independent of the order of events and traces if and only if the traces do not hold both a line that is rejected and one that crashes the script |
| WarmTurnGate.BadLines | scripts/cache-utilization-check.py:88-178 | which lines those are: refused by the decoder; and nested too deep, no object, or an otherwise good sample whose quotient is too large for a double |
| WarmTurnGate.RaiseIsSafe | scripts/cache-utilization-check.py:91-225 | raising one cache read never turns a pass into a failure unless the number becomes too long for the decoder, makes a sample out of an event that had none, or makes the quotient overflow |
| WarmTurnGate.RaiseIsSafeExactly | scripts/cache-utilization-check.py:91-225 | for the default gate those three cases are the exact condition, for every event |
| WarmTurnGate.RaiseIsRefused | scripts/cache-utilization-check.py:91-96 | any event by itself passes unless its line is bad, and gives exit 2 once its cache read is too long for the decoder |
| WarmTurnGate.RaiseFails | scripts/cache-utilization-check.py:176-178 | a trace on which a negative value that becomes non-negative fails the gate |
| WarmTurnGate.RaiseOverflows | scripts/cache-utilization-check.py:178 | a trace that passes, and gives exit 1 once its one quotient is too large |
| WarmTurnGate.RaiseToTenToThe400 | scripts/cache-utilization-check.py:178 | such a trace in figures: one token read of one, raised to a one and 400 zeros |
| WarmTurnGate.RaiseToTenToThe4300 | scripts/cache-utilization-check.py:91-96 | a one and 4300 zeros turns a pass into exit 2, on a first turn as on a warm one |
| Workers.RegistryIsSorted | crates/roku-agent-runtime/src/runtime.rs:3165-3175 | after any registrations the registry is sorted by descending priority, each priority in registration order |
| Workers.DispatchPicksBest | crates/roku-agent-runtime/src/runtime.rs:3177-3186 | a worker is found exactly when one that supports the request was registered; it has the highest priority and is the earliest of it |
| Workers.Runtime.RegisterWorker | crates/roku-agent-runtime/src/runtime.rs:3165-3175 | pushing and sorting keeps the registry that of all registrations |
| Workers.Runtime.ExecuteWithWorker | crates/roku-agent-runtime/src/runtime.rs:3177-3186 | the search loop gives what the first supporting worker makes of the request, or nothing |
| Telegram.TruncationFits | crates/roku-cmd/src/bot.rs:251-258 | the text itself or a prefix and an ellipsis, never over 4096 characters or UTF-16 units, at most 4098 bytes |
| Telegram.OverlongExactly | crates/roku-cmd/src/bot.rs:251-258 | the byte limit is exceeded exactly when one character straddles it |
| Telegram.TruncationReaches4098 | crates/roku-cmd/src/bot.rs:251-258 | a text that comes out at 4098 bytes |
| Telegram.TruncationIsIdempotent | crates/roku-cmd/src/bot.rs:251-258 | truncating again changes nothing |
| Telegram.PageInRange | crates/roku-cmd/src/bot.rs:1456-1480 | any requested page lands on an existing non-empty page, without overflow |
| Telegram.PagesPartition | crates/roku-cmd/src/bot.rs:1456-1480 | the pages put the list back together without gap or overlap |
| Telegram.BuildSessionsMarkup | crates/roku-cmd/src/bot.rs:1482-1523 | the keyboard: one row per session of the page with its callback data, then the pager if it has a button |
| Telegram.EveryPageIsReached | crates/roku-cmd/src/bot.rs:1506-1518 | from any page the pager's buttons, read back from their callback data, reach any other in as many presses as they are apart |
| TelegramCallbacks.ButtonMeansItsAction | crates/roku-plugins/telegram/src/inbound.rs:299-379 | for any id, callback data is read back as the action it was written from if and only if ids are not blank, pages fit 64 bits, and the id of a session to delete has no colon |
| TelegramCallbacks.GeneratedIdsAreCarried | crates/roku-memory/src/session/mod.rs:487-491 | for ids made by the session store, delete and select buttons are read back as written |
| TelegramCallbacks.DeleteReadsPrefix | crates/roku-plugins/telegram/src/inbound.rs:307-370 | given the id `a:b`, which the session store does not make, the two functions together yield `a` |

## Left out

- The router, providers, tokenizers, cost profiles, token estimation and calibration: the adversary stands for their answers.
- The bodies of message compaction, mid-tier compaction and microcompaction: arbitrary rewrites of the message buffer, as are the summaries of messages; the LLM calls a summarizer makes inside them are not counted. What it answers, and when its circuit breaker opens, is part of the adversary.
- ToolLoopLargeFiles.LargeFilesStayHiddenExactly: speaks of the memory sections handed to the prompt builder and to tools; the builder keeps their first 40,000 characters. The recalled memories of a request are given with it. Event streams, logs and the step trace stored with a task's result, which hold what tools return, are not part of it.
- The text of task-tool answers, tool outputs and their shortening: part of the adversary, and so is what each tool answers given the directory and resources it is called with; what a route's candidate tools leave available is an arbitrary function.
- How a question may be resumed automatically (candidate selection, missing input) and the model override, thinking effort and session id that a sub-agent takes over from its request, which are fixed for a run.
- Cancellation of a whole run from outside, threads, channels, Ctrl+C and Esc polling, terminal rendering, logging, Telegram and HTTP transport.
- Timers: a sub-agent's timer can fire at each LLM call, retry and compaction, which are the points at which the loop waits; time itself is not modelled.
- Fields of the loop state that only feed the estimator, the cache-break detector and the grounding of inputs; of a recorded step, all that no digest shows.
- Saving large tool results to disk: a result's content is part of the adversary.
- ToolSchema.PrepareIsFresh: tool bodies are opaque strings and the size that turns deferral on is an arbitrary weight per definition, because the original threshold is a floating-point product.
- Input and output errors of the session store, the trace store and the chat; the chat only warns about them.
- SessionStore.SessionStore.RewriteHistory: does not model two ids that name the same file through the file system, nor the session path check, which the original skips here.
- Appending after a torn last line: the code does not repair it, and no claim is made.
- SessionLog.LineRoundTrip: the JSON reader accepts the flat objects that are ever written; nested values, fractions and the recursion limit of the original reader are not modelled, and objects given as arrays are read as malformed.
- ShellQuote.WordsOfPreview: speaks of words only; a first word that is a reserved word or contains no slash may still be more than a program name to a shell.
- The totals of cancelled or failed turns, which the code reports as zero.
- WarmTurnGate.RunCheck: ratios and medians are real numbers; rounding near the threshold, the sum of two huge samples and a threshold that is no finite number are not modelled, nor are files that cannot be opened or are not UTF-8; the digit limit of the decoder is the interpreter's default. The results on order and raising use no more of division than that it is monotone, zero at zero and undefined past the largest double.
- Chat.Chat.Clear: does not model the pending loop that is cleared along with the history, because it lives in the service.
- Tokens.AccumulateTurn: costs are real numbers, so the rounding of their sums is not modelled.
- Configuration clamping, `TaskStore`, route decisions, UUID checks, status labels and lifecycle reports.
