/**
 The interactive chat: turns, `/compact`, `/clear`, `/session` and `/resume` over one in-memory
 history and the session store. What the agent answers, how often it asks back, what the user
 replies and the clock are inputs.
 */
module Chat {
  import opened Prelude
  import opened Json
  import opened SessionLog
  import opened Messages
  import opened Conversation
  import opened SessionStore
  import opened Tokens

  /** How one dispatched turn ends. A cancelled or failed turn carries no tokens. */
  datatype Dispatch =
    | Completed(response: string, askedAt: u64, answeredAt: u64, tokens: TurnTokens)
    | AwaitingUser(question: string, askedAt: u64, answeredAt: u64, tokens: TurnTokens)
    | Cancelled
    | Failed

  /** One answer of the reply prompt and, for a non-blank line, how its turn ends. */
  datatype Reply = ReplyLine(text: string, dispatch: Dispatch) | Interrupted

  datatype Command =
    | UserTurn(goal: string, dispatch: Dispatch, replies: seq<Reply>, usageAt: u64)
    | CompactCommand(now: u64, boundaryAt: u64)
    | ClearCommand
    | SwitchSession(target: string)
    | NewSession(id: string)

  /** The exchange a turn records: nothing unless it completed or asked back. */
  function Exchange(goal: string, d: Dispatch): seq<Turn> {
    match d
    case Completed(response, t0, t1, _) => [Turn(User, goal, t0), Turn(Assistant, response, t1)]
    case AwaitingUser(question, t0, t1, _) => [Turn(User, goal, t0), Turn(Assistant, question, t1)]
    case _ => []
  }

  function TokensOf(d: Dispatch): TurnTokens {
    match d
    case Completed(_, _, _, tokens) => tokens
    case AwaitingUser(_, _, _, tokens) => tokens
    case _ => NO_TOKENS
  }

  /** A dispatched turn with what it was asked. */
  type Dispatched = (string, Dispatch)

  /** The turns the reply loop dispatches: blank lines are asked again, an answered reply ends it. */
  function ReplyDispatches(replies: seq<Reply>): seq<Dispatched> {
    if replies == [] || replies[0].Interrupted? then []
    else
      var text, d := Trim(replies[0].text), replies[0].dispatch;
      if text == "" then ReplyDispatches(replies[1..])
      else [(text, d)] + (if d.AwaitingUser? then ReplyDispatches(replies[1..]) else [])
  }

  /** Every turn dispatched on behalf of one user input. */
  function Dispatches(goal: string, d: Dispatch, replies: seq<Reply>): seq<Dispatched> {
    [(goal, d)] + (if d.AwaitingUser? then ReplyDispatches(replies) else [])
  }

  function Exchanges(ds: seq<Dispatched>): seq<Turn> {
    if ds == [] then [] else Exchange(ds[0].0, ds[0].1) + Exchanges(ds[1..])
  }

  /** A session total after some dispatched turns, each added with saturation. */
  function AddAll(total: u64, ds: seq<Dispatched>, prompt: bool): u64
    decreases |ds|
  {
    if ds == [] then total
    else
      var tokens := TokensOf(ds[0].1);
      AddAll(SaturatingAdd(total, if prompt then tokens.prompt else tokens.output), ds[1..], prompt)
  }

  /** The exact tokens of some dispatched turns. */
  function TokenSum(ds: seq<Dispatched>, prompt: bool): nat {
    if ds == [] then 0
    else (if prompt then TokensOf(ds[0].1).prompt else TokensOf(ds[0].1).output) + TokenSum(ds[1..], prompt)
  }

  /** Saturating at every turn gives the exact session sum, cut off once. */
  lemma {:induction false} AddAllIsCappedSum(n: nat, ds: seq<Dispatched>, prompt: bool)
    ensures AddAll(Capped(n), ds, prompt) == Capped(n + TokenSum(ds, prompt))
    decreases |ds|
  {
    if ds != [] {
      var m := if prompt then TokensOf(ds[0].1).prompt else TokensOf(ds[0].1).output;
      CappedAdd(n, m);
      AddAllIsCappedSum(n + m, ds[1..], prompt);
    }
  }

  /** However often the agent asks back, recording the exchanges of a user input keeps a history's shape. */
  lemma {:induction false} ExchangesKeepShape(history: seq<Turn>, ds: seq<Dispatched>)
    requires Shaped(history)
    ensures Shaped(history + Exchanges(ds))
    decreases |ds|
  {
    hide Shaped, Exchange;
    if ds == [] {
      assert history + [] == history;
    } else {
      var e := Exchange(ds[0].0, ds[0].1);
      OneExchangeKeepsShape(history, ds[0].0, ds[0].1);
      ExchangesKeepShape(history + e, ds[1..]);
      ConcatInside(history, e, Exchanges(ds[1..]));
    }
  }

  lemma OneExchangeKeepsShape(history: seq<Turn>, goal: string, d: Dispatch)
    requires Shaped(history)
    ensures Shaped(history + Exchange(goal, d))
  {
    var e := Exchange(goal, d);
    if e == [] {
      assert history + e == history;
    } else {
      ExchangeKeepsShape(history, e[0], e[1]);
    }
  }

  /** The usage metadata of a user input: that of its first dispatch, if it used any tokens. */
  function UsageEntries(d: Dispatch, at: u64, promptTotal: u64, outputTotal: u64): seq<Entry> {
    var tokens := TokensOf(d);
    if tokens.prompt > 0 || tokens.output > 0
    then [SessionLog.TokenUsage(at, tokens.prompt, tokens.output, tokens.modelId, promptTotal, outputTotal)]
    else []
  }

  /** Everything a user input writes to the session file, given the session totals before it. */
  function LoggedItems(goal: string, d: Dispatch, replies: seq<Reply>, at: u64, prompt: u64, output: u64): seq<Item> {
    TurnItems(Exchange(goal, d))
    + EntryItems(UsageEntries(d, at, AddAll(prompt, [(goal, d)], true), AddAll(output, [(goal, d)], false)))
    + TurnItems(Exchanges(if d.AwaitingUser? then ReplyDispatches(replies) else []))
  }

  class Chat {
    const store: SessionStore
    const history: History
    var sessionId: string
    var sessionPrompt: u64
    var sessionOutput: u64

    /** Every session file ends with a complete line. */
    ghost predicate CleanFiles()
      reads store
    {
      forall id :: EndsCleanly(store.Text(id))
    }

    /** The file of the current session reads as exactly the history in memory. */
    ghost predicate InStep()
      reads this`sessionId, store, history
    {
      ValidSessionId(sessionId) ==> TurnsIn(store.Text(sessionId)) == history.turns
    }

    /** Memory and every stored session are an optional summary followed by exchanges. */
    ghost predicate AllShaped()
      reads this, store, history
    {
      Shaped(history.turns) && forall id :: Shaped(TurnsIn(store.Text(id)))
    }

    /** Starts on a session: its stored turns, or nothing when its id is invalid. */
    constructor (store: SessionStore, sessionId: string)
      requires forall id :: EndsCleanly(store.Text(id))
      ensures this.store == store && this.sessionId == sessionId && fresh(history)
      ensures CleanFiles() && InStep() && sessionPrompt == sessionOutput == 0
      ensures (forall id :: Shaped(TurnsIn(store.Text(id)))) ==> AllShaped()
    {
      this.store := store;
      this.sessionId := sessionId;
      this.sessionPrompt, this.sessionOutput := 0, 0;
      this.history := new History();
      new;
      var loaded := store.Load(sessionId);
      if loaded.Ok? {
        history.turns := loaded.value;
      }
    }

    /** Runs one turn and records its exchange on disk first, then in memory. */
    method DispatchAndRecord(goal: string, d: Dispatch) returns (tokens: TurnTokens)
      requires CleanFiles() && InStep()
      modifies store, history
      ensures history.turns == old(history.turns) + Exchange(goal, d) && tokens == TokensOf(d)
      ensures CleanFiles() && InStep()
      ensures ValidSessionId(sessionId) ==>
                store.Text(sessionId) == old(store.Text(sessionId)) + Render(TurnItems(Exchange(goal, d)))
      ensures forall id :: id != sessionId || !ValidSessionId(id) ==> store.Text(id) == old(store.Text(id))
    {
      hide Line, Render, TurnsIn, ValidSessionId, EndsCleanly, FileName;
      tokens := TokensOf(d);
      NothingWritten(store.Text(sessionId));
      if d.Completed? || d.AwaitingUser? {
        var answer := if d.Completed? then d.response else d.question;
        var user, assistant := Turn(User, goal, d.askedAt), Turn(Assistant, answer, d.answeredAt);
        AppendedTurnsAreRead(store.Text(sessionId), TurnItems([user, assistant]));
        TurnsOfTurnItems([user, assistant]);
        var appended := store.Append(sessionId, [user, assistant]);
        history.turns := history.turns + [user];
        history.turns := history.turns + [assistant];
        assert history.turns == old(history.turns) + Exchange(goal, d);
      }
    }

    /** Adds metadata to the current session; what is loaded from any session is unchanged. */
    method RecordEntry(entry: Entry)
      requires CleanFiles()
      modifies store
      ensures CleanFiles() && forall id :: TurnsIn(store.Text(id)) == old(TurnsIn(store.Text(id)))
      ensures ValidSessionId(sessionId) ==>
                store.Text(sessionId) == old(store.Text(sessionId)) + Render(EntryItems([entry]))
      ensures forall id :: id != sessionId || !ValidSessionId(id) ==> store.Text(id) == old(store.Text(id))
    {
      hide Line, Render, TurnsIn, ValidSessionId, EndsCleanly, FileName;
      OneEntry(entry);
      AppendedTurnsAreRead(store.Text(sessionId), EntryItems([entry]));
      var appended := store.AppendEntries(sessionId, [entry]);
    }

    method AddToTotals(tokens: TurnTokens)
      modifies this`sessionPrompt, this`sessionOutput
      ensures sessionPrompt == SaturatingAdd(old(sessionPrompt), tokens.prompt)
      ensures sessionOutput == SaturatingAdd(old(sessionOutput), tokens.output)
    {
      sessionPrompt := SaturatingAdd(sessionPrompt, tokens.prompt);
      sessionOutput := SaturatingAdd(sessionOutput, tokens.output);
    }

    /** One dispatch, recorded and counted. */
    method DispatchAndCount(goal: string, d: Dispatch) returns (tokens: TurnTokens)
      requires CleanFiles() && InStep()
      modifies this`sessionPrompt, this`sessionOutput, store, history
      ensures history.turns == old(history.turns) + Exchange(goal, d) && tokens == TokensOf(d)
      ensures sessionPrompt == SaturatingAdd(old(sessionPrompt), tokens.prompt)
      ensures sessionOutput == SaturatingAdd(old(sessionOutput), tokens.output)
      ensures CleanFiles() && InStep()
      ensures ValidSessionId(sessionId) ==>
                store.Text(sessionId) == old(store.Text(sessionId)) + Render(TurnItems(Exchange(goal, d)))
      ensures forall id :: id != sessionId || !ValidSessionId(id) ==> store.Text(id) == old(store.Text(id))
    {
      hide *;
      tokens := DispatchAndRecord(goal, d);
      AddToTotals(tokens);
    }

    /** The reply prompt after the agent asked back: one dispatch per non-blank line until it is answered. */
    method ReplyLoop(replies: seq<Reply>)
      requires CleanFiles() && InStep()
      modifies this`sessionPrompt, this`sessionOutput, store, history
      ensures history.turns == old(history.turns) + Exchanges(ReplyDispatches(replies))
      ensures sessionPrompt == AddAll(old(sessionPrompt), ReplyDispatches(replies), true)
      ensures sessionOutput == AddAll(old(sessionOutput), ReplyDispatches(replies), false)
      ensures CleanFiles() && InStep()
      ensures ValidSessionId(sessionId) ==>
                store.Text(sessionId) ==
                old(store.Text(sessionId)) + Render(TurnItems(Exchanges(ReplyDispatches(replies))))
      ensures forall id :: id != sessionId || !ValidSessionId(id) ==> store.Text(id) == old(store.Text(id))
    {
      hide *;
      var next := 0;
      ghost var rest := ReplyDispatches(replies);
      ghost var turns := history.turns + Exchanges(rest);
      ghost var prompt, output := AddAll(sessionPrompt, rest, true), AddAll(sessionOutput, rest, false);
      ghost var text := store.Text(sessionId) + Render(TurnItems(Exchanges(rest)));
      assert replies[0..] == replies;
      while next < |replies|
        invariant next <= |replies| && rest == ReplyDispatches(replies[next..])
        invariant history.turns + Exchanges(rest) == turns
        invariant AddAll(sessionPrompt, rest, true) == prompt && AddAll(sessionOutput, rest, false) == output
        invariant CleanFiles() && InStep()
        invariant ValidSessionId(sessionId) ==> store.Text(sessionId) + Render(TurnItems(Exchanges(rest))) == text
        invariant forall id :: id != sessionId || !ValidSessionId(id) ==> store.Text(id) == old(store.Text(id))
      {
        var reply := replies[next];
        ReplyStep(replies, next);
        next := next + 1;
        if reply.Interrupted? {
          break;
        }
        var line := Trim(reply.text);
        if line != "" {
          ghost var more := if reply.dispatch.AwaitingUser? then ReplyDispatches(replies[next..]) else [];
          FrontDispatched((line, reply.dispatch), more, history.turns, sessionPrompt, sessionOutput,
                          store.Text(sessionId));
          var tokens := DispatchAndCount(line, reply.dispatch);
          rest := more;
          if !reply.dispatch.AwaitingUser? {
            break;
          }
        }
      }
      assert replies[|replies|..] == [];
      NoReplies();
      NothingDispatched(history.turns, sessionPrompt, sessionOutput, store.Text(sessionId));
    }

    /**
     A user input with its reply loop. Exactly the exchanges that completed or asked back are added,
     to memory and to the file alike; the totals grow by every dispatch, while usage metadata is
     written for the first one only.
     */
    method HandleTurn(goal: string, d: Dispatch, replies: seq<Reply>, usageAt: u64)
      requires CleanFiles() && InStep()
      modifies this`sessionPrompt, this`sessionOutput, store, history
      ensures history.turns == old(history.turns) + Exchanges(Dispatches(goal, d, replies))
      ensures sessionPrompt == AddAll(old(sessionPrompt), Dispatches(goal, d, replies), true)
      ensures sessionOutput == AddAll(old(sessionOutput), Dispatches(goal, d, replies), false)
      ensures ValidSessionId(sessionId) ==>
                store.Text(sessionId) ==
                old(store.Text(sessionId))
                + Render(LoggedItems(goal, d, replies, usageAt, old(sessionPrompt), old(sessionOutput)))
      ensures forall id :: id != sessionId || !ValidSessionId(id) ==> store.Text(id) == old(store.Text(id))
      ensures CleanFiles() && InStep()
    {
      hide Line, Render, TurnsIn, ValidSessionId, EndsCleanly, ReplyDispatches, Exchange, FileName, SaturatingAdd;
      var tokens := DispatchAndCount(goal, d);
      if tokens.prompt > 0 || tokens.output > 0 {
        RecordEntry(SessionLog.TokenUsage(usageAt, tokens.prompt, tokens.output, tokens.modelId, sessionPrompt,
                                          sessionOutput));
      }
      LogParts(old(store.Text(sessionId)), TurnItems(Exchange(goal, d)),
               EntryItems(UsageEntries(d, usageAt, sessionPrompt, sessionOutput)),
               TurnItems(Exchanges(if d.AwaitingUser? then ReplyDispatches(replies) else [])));
      ConcatInside(old(history.turns), Exchange(goal, d),
                   Exchanges(if d.AwaitingUser? then ReplyDispatches(replies) else []));
      FirstDispatch(goal, d, replies, old(sessionPrompt), old(sessionOutput));
      if d.AwaitingUser? {
        ReplyLoop(replies);
      }
    }

    method Compact(now: u64, boundaryAt: u64)
      requires CleanFiles() && InStep()
      modifies this, store, history
      ensures history.turns == Compacted(old(history.turns), now)
      ensures CleanFiles() && InStep() && sessionId == old(sessionId)
      ensures sessionPrompt == old(sessionPrompt) && sessionOutput == old(sessionOutput)
      ensures forall id :: id != sessionId ==> store.Text(id) == old(store.Text(id))
      ensures |old(history.turns)| > RETAIN_TAIL ==> TurnsIn(store.Text(sessionId)) == history.turns
      ensures |old(history.turns)| > RETAIN_TAIL && ValidSessionId(sessionId) ==>
                store.Text(sessionId) ==
                Render(TurnItems(history.turns))
                + Render(EntryItems([CompactBoundary(boundaryAt, 0, Capped(|old(history.turns)| - RETAIN_TAIL),
                                                     Capped(|history.turns|))]))
      ensures |old(history.turns)| <= RETAIN_TAIL ==> store.Text(sessionId) == old(store.Text(sessionId))
    {
      hide Line, Render, TurnsIn, ValidSessionId, EndsCleanly, Summary;
      var result := history.Compact(now);
      if result.Some? {
        var items := TurnItems(history.turns);
        FreshFileIsRead(history.turns);
        var done := store.RewriteHistory(sessionId, history.turns, |Render(items)| + 2);
        RecordEntry(CompactBoundary(boundaryAt, 0, Capped(result.value.discarded), Capped(result.value.retained)));
      }
    }

    method Clear()
      requires CleanFiles()
      modifies this, store, history
      ensures history.turns == [] && CleanFiles() && InStep() && sessionId == old(sessionId)
      ensures forall id :: id != sessionId || !ValidSessionId(id) ==> store.Text(id) == old(store.Text(id))
    {
      hide TurnsIn, ValidSessionId, EndsCleanly, FileName;
      EmptyFileIsEmpty();
      history.turns := [];
      var cleared := store.Clear(sessionId);
    }

    /** `/session switch` and `/resume`: an invalid target changes nothing. */
    method Switch(target: string)
      requires CleanFiles() && InStep()
      modifies this, history
      ensures CleanFiles() && InStep()
      ensures sessionId == if ValidSessionId(target) then target else old(sessionId)
      ensures history.turns == if ValidSessionId(target) then TurnsIn(store.Text(target)) else old(history.turns)
    {
      var loaded := store.Load(target);
      if loaded.Ok? {
        history.turns := loaded.value;
        sessionId := target;
      }
    }

    /** `/session new`: refused for an invalid id and for a session that already has turns. */
    method New(id: string)
      requires CleanFiles() && InStep()
      modifies this, history
      ensures CleanFiles() && InStep()
      ensures sessionId == if ValidSessionId(id) && TurnsIn(store.Text(id)) == [] then id else old(sessionId)
      ensures history.turns == if ValidSessionId(id) && TurnsIn(store.Text(id)) == [] then [] else old(history.turns)
    {
      var loaded := store.Load(id);
      if loaded.Ok? && loaded.value == [] {
        history.turns := [];
        sessionId := id;
      }
    }

    /** One command keeps disk and memory in step, and the shape of every history. */
    method Execute(c: Command)
      requires CleanFiles() && InStep()
      modifies this, store, history
      ensures CleanFiles() && InStep()
      ensures old(AllShaped()) ==> AllShaped()
    {
      hide TurnsIn, ValidSessionId, EndsCleanly, Shaped, Exchanges, Dispatches, LoggedItems, Compacted;
      ghost var before := history.turns;
      match c
      case UserTurn(goal, d, replies, usageAt) =>
        HandleTurn(goal, d, replies, usageAt);
        if Shaped(before) { ExchangesKeepShape(before, Dispatches(goal, d, replies)); }
        KeepsAllShaped();
      case CompactCommand(now, boundaryAt) =>
        Compact(now, boundaryAt);
        if Shaped(before) { CompactionKeepsShape(before, now); }
        KeepsAllShaped();
      case ClearCommand =>
        Clear();
        EmptyIsShaped();
        KeepsAllShaped();
      case SwitchSession(target) => Switch(target);
      case NewSession(id) =>
        New(id);
        EmptyIsShaped();
    }

    twostate lemma KeepsAllShaped()
      requires InStep() && forall id :: id != sessionId ==> store.Text(id) == old(store.Text(id))
      requires old(AllShaped()) ==> Shaped(history.turns)
      requires ValidSessionId(sessionId) || store.Text(sessionId) == old(store.Text(sessionId))
               || TurnsIn(store.Text(sessionId)) == history.turns
      ensures old(AllShaped()) ==> AllShaped()
    {
      hide TurnsIn, ValidSessionId, Shaped;
    }
  }

  lemma ConcatInside(a: seq<Turn>, b: seq<Turn>, c: seq<Turn>)
    ensures (a + b) + c == a + (b + c) && a + (b + []) == a + b
  {
    assert b + [] == b;
  }

  lemma OneEntry(entry: Entry)
    ensures Turns(EntryItems([entry])) == []
  {
  }

  lemma EmptyIsShaped()
    ensures Shaped([])
  {
  }

  lemma NoReplies()
    ensures ReplyDispatches([]) == []
  {
  }

  lemma ReplyStep(replies: seq<Reply>, n: nat)
    requires n < |replies|
    ensures var r, more := replies[n], ReplyDispatches(replies[n + 1..]);
            ReplyDispatches(replies[n..]) ==
            if r.Interrupted? then []
            else if Trim(r.text) == "" then more
            else [(Trim(r.text), r.dispatch)] + (if r.dispatch.AwaitingUser? then more else [])
  {
    assert replies[n..][0] == replies[n] && replies[n..][1..] == replies[n + 1..];
  }

  lemma NothingWritten(text: string)
    ensures text + Render(TurnItems([])) == text
  {
  }

  lemma NothingDispatched(turns: seq<Turn>, prompt: u64, output: u64, text: string)
    ensures turns + Exchanges([]) == turns && AddAll(prompt, [], true) == prompt && AddAll(output, [], false) == output
    ensures text + Render(TurnItems(Exchanges([]))) == text
  {
    NothingWritten(text);
  }

  lemma {:induction false} ExchangesConcat(a: seq<Dispatched>, b: seq<Dispatched>)
    ensures Exchanges(a + b) == Exchanges(a) + Exchanges(b)
  {
    hide Exchange;
    if a == [] {
      assert a + b == b;
    } else {
      assert (a + b)[0] == a[0] && (a + b)[1..] == a[1..] + b;
      ExchangesConcat(a[1..], b);
    }
  }

  lemma {:induction false} AddAllConcat(total: u64, a: seq<Dispatched>, b: seq<Dispatched>, prompt: bool)
    ensures AddAll(total, a + b, prompt) == AddAll(AddAll(total, a, prompt), b, prompt)
    decreases |a|
  {
    if a == [] {
      assert a + b == b;
    } else {
      var tokens := TokensOf(a[0].1);
      assert (a + b)[0] == a[0] && (a + b)[1..] == a[1..] + b;
      AddAllConcat(SaturatingAdd(total, if prompt then tokens.prompt else tokens.output), a[1..], b, prompt);
    }
  }

  lemma OneDispatched(d: Dispatched, prompt: u64, output: u64)
    ensures Exchanges([d]) == Exchange(d.0, d.1)
    ensures AddAll(prompt, [d], true) == SaturatingAdd(prompt, TokensOf(d.1).prompt)
    ensures AddAll(output, [d], false) == SaturatingAdd(output, TokensOf(d.1).output)
  {
    assert [d][1..] == [] && Exchange(d.0, d.1) + [] == Exchange(d.0, d.1);
  }

  /** Recording and counting the first of some dispatches leaves the rest to be recorded and counted. */
  lemma FrontDispatched(d: Dispatched, more: seq<Dispatched>, turns: seq<Turn>, prompt: u64, output: u64, text: string)
    ensures var tokens, e := TokensOf(d.1), Exchange(d.0, d.1);
            && (turns + e) + Exchanges(more) == turns + Exchanges([d] + more)
            && AddAll(SaturatingAdd(prompt, tokens.prompt), more, true) == AddAll(prompt, [d] + more, true)
            && AddAll(SaturatingAdd(output, tokens.output), more, false) == AddAll(output, [d] + more, false)
            && (text + Render(TurnItems(e))) + Render(TurnItems(Exchanges(more))) ==
               text + Render(TurnItems(Exchanges([d] + more)))
  {
    hide Exchange, Render, TurnItems, SaturatingAdd;
    var e := Exchange(d.0, d.1);
    assert ([d] + more)[0] == d && ([d] + more)[1..] == more;
    ConcatInside(turns, e, Exchanges(more));
    TurnTextConcat(text, e, Exchanges(more));
  }

  lemma FirstDispatch(goal: string, d: Dispatch, replies: seq<Reply>, prompt: u64, output: u64)
    ensures var more := if d.AwaitingUser? then ReplyDispatches(replies) else [];
            && Exchanges(Dispatches(goal, d, replies)) == Exchange(goal, d) + Exchanges(more)
            && AddAll(prompt, Dispatches(goal, d, replies), true) ==
               AddAll(SaturatingAdd(prompt, TokensOf(d).prompt), more, true)
            && AddAll(output, Dispatches(goal, d, replies), false) ==
               AddAll(SaturatingAdd(output, TokensOf(d).output), more, false)
            && AddAll(prompt, [(goal, d)], true) == SaturatingAdd(prompt, TokensOf(d).prompt)
            && AddAll(output, [(goal, d)], false) == SaturatingAdd(output, TokensOf(d).output)
            && (!d.AwaitingUser? ==> Exchanges(more) == [])
  {
    hide ReplyDispatches, Exchange, SaturatingAdd;
    var more := if d.AwaitingUser? then ReplyDispatches(replies) else [];
    ExchangesConcat([(goal, d)], more);
    AddAllConcat(prompt, [(goal, d)], more, true);
    AddAllConcat(output, [(goal, d)], more, false);
    OneDispatched((goal, d), prompt, output);
  }

  lemma {:induction false} TurnItemsConcat(a: seq<Turn>, b: seq<Turn>)
    ensures TurnItems(a + b) == TurnItems(a) + TurnItems(b)
  {
  }

  lemma TurnTextConcat(text: string, a: seq<Turn>, b: seq<Turn>)
    ensures (text + Render(TurnItems(a))) + Render(TurnItems(b)) == text + Render(TurnItems(a + b))
  {
    hide Render, TurnItems;
    TurnItemsConcat(a, b);
    RenderConcat(TurnItems(a), TurnItems(b));
    Assoc(text, Render(TurnItems(a)), Render(TurnItems(b)));
  }

  lemma LogParts(text: string, a: seq<Item>, b: seq<Item>, c: seq<Item>)
    ensures ((text + Render(a)) + Render(b)) + Render(c) == text + Render(a + b + c)
    ensures b == [] ==> text + Render(a + b + c) == (text + Render(a)) + Render(c)
    ensures c == [] ==> text + Render(a + b + c) == (text + Render(a)) + Render(b)
    ensures b == c == [] ==> text + Render(a + b + c) == text + Render(a)
  {
    hide Render;
    RenderConcat(a, b);
    RenderConcat(a + b, c);
    Assoc(text, Render(a), Render(b));
    Assoc(text, Render(a + b), Render(c));
    assert b == [] ==> a + b == a;
    assert c == [] ==> a + b + c == a + b;
  }

  lemma FreshFileIsRead(turns: seq<Turn>)
    ensures TurnsIn(Render(TurnItems(turns))) == turns && EndsCleanly(Render(TurnItems(turns)))
  {
    hide Line, Render, TurnsIn, EndsCleanly;
    EmptyFileIsEmpty();
    AppendedTurnsAreRead("", TurnItems(turns));
    TurnsOfTurnItems(turns);
    assert "" + Render(TurnItems(turns)) == Render(TurnItems(turns));
  }

  /**
   Any run of commands: after it (and, a run being any list, after each of its commands) the file
   of a valid current session loads as exactly the history in memory; and if every stored session
   started out shaped, as in an empty store, every history stays an optional summary followed by
   User/Assistant pairs, so that the next request alternates and ends in User.
   */
  method RunChat(chat: Chat, commands: seq<Command>, input: string) returns (loaded: Result<seq<Turn>, StoreError>)
    requires chat.CleanFiles() && chat.InStep()
    modifies chat, chat.store, chat.history
    ensures chat.CleanFiles() && chat.InStep()
    ensures ValidSessionId(chat.sessionId) ==> loaded == Ok(chat.history.turns)
    ensures !ValidSessionId(chat.sessionId) ==> loaded.Err?
    ensures old(chat.AllShaped()) ==> chat.AllShaped() && Alternates(InitialMessages(chat.history.turns, input))
  {
    hide TurnsIn, ValidSessionId, EndsCleanly, Shaped, InitialMessages, Alternates;
    for i := 0 to |commands|
      invariant chat.CleanFiles() && chat.InStep()
      invariant old(chat.AllShaped()) ==> chat.AllShaped()
    {
      chat.Execute(commands[i]);
    }
    if chat.AllShaped() {
      RequestAlternates(chat.history.turns, input);
    }
    loaded := chat.store.Load(chat.sessionId);
  }
}
