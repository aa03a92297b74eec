/**
 The accumulator of a streamed LLM response: it reassembles interleaved tool-call streams that are
 keyed by id and collects the text.
 */
module StreamDemux {
  import opened Prelude
  import opened Messages

  datatype Chunk =
    | TextDelta(text: string)
    | ToolCallStart(id: string, name: string)
    | ToolCallDelta(id: string, argumentsChunk: string)
    | ToolCallDone(id: string)
    | Done

  /** A finished call with its arguments still as text. */
  datatype RawCall = RawCall(id: string, name: string, arguments: string)

  datatype Pending = Pending(name: string, arguments: string)

  datatype State = State(text: string, pending: map<string, Pending>, calls: seq<RawCall>)

  const INITIAL := State("", map[], [])

  function Step(s: State, c: Chunk): State {
    match c
    case TextDelta(delta) => s.(text := s.text + delta)
    case ToolCallStart(id, name) => s.(pending := s.pending[id := Pending(name, "")])
    case ToolCallDelta(id, chunk) =>
      if id in s.pending
      then s.(pending := s.pending[id := Pending(s.pending[id].name, s.pending[id].arguments + chunk)])
      else s
    case ToolCallDone(id) =>
      if id in s.pending
      then s.(pending := s.pending - {id},
              calls := s.calls + [RawCall(id, s.pending[id].name, s.pending[id].arguments)])
      else s
    case Done => s
  }

  function Run(chunks: seq<Chunk>): State {
    if chunks == [] then INITIAL else Step(Run(chunks[..|chunks| - 1]), chunks[|chunks| - 1])
  }

  /** Arguments that do not parse become the null value, here no fields at all. */
  function Decoded(calls: seq<RawCall>, decode: string -> Option<Arguments>): seq<ToolCall> {
    if calls == [] then []
    else
      var last := calls[|calls| - 1];
      Decoded(calls[..|calls| - 1], decode)
      + [ToolCall(last.id, last.name, match decode(last.arguments) case Some(a) => a case None => map[])]
  }

  /** The receiving loop. */
  method Accumulate(chunks: seq<Chunk>, decode: string -> Option<Arguments>)
    returns (text: string, toolCalls: seq<ToolCall>)
    ensures text == Run(chunks).text && toolCalls == Decoded(Run(chunks).calls, decode)
  {
    hide Run, Decoded;
    NothingReceived(decode);
    text, toolCalls := "", [];
    var pendingById: map<string, Pending> := map[];
    for i := 0 to |chunks|
      invariant text == Run(chunks[..i]).text && pendingById == Run(chunks[..i]).pending
      invariant toolCalls == Decoded(Run(chunks[..i]).calls, decode)
    {
      RunSnoc(chunks, i);
      match chunks[i]
      case TextDelta(delta) => text := text + delta;
      case ToolCallStart(id, name) => pendingById := pendingById[id := Pending(name, "")];
      case ToolCallDelta(id, chunk) =>
        if id in pendingById {
          var p := pendingById[id];
          pendingById := pendingById[id := Pending(p.name, p.arguments + chunk)];
        }
      case ToolCallDone(id) =>
        if id in pendingById {
          var p := pendingById[id];
          pendingById := pendingById - {id};
          DecodedSnoc(Run(chunks[..i]).calls, RawCall(id, p.name, p.arguments), decode);
          var parsed := decode(p.arguments);
          toolCalls := toolCalls + [ToolCall(id, p.name, if parsed.Some? then parsed.value else map[])];
        }
      case Done =>
    }
    assert chunks[..|chunks|] == chunks;
  }

  lemma NothingReceived(decode: string -> Option<Arguments>)
    ensures Run([]) == INITIAL && Decoded([], decode) == []
  {
  }

  lemma RunSnoc(chunks: seq<Chunk>, i: nat)
    requires i < |chunks|
    ensures Run(chunks[..i + 1]) == Step(Run(chunks[..i]), chunks[i])
  {
    assert chunks[..i + 1][..i] == chunks[..i];
  }

  lemma DecodedSnoc(calls: seq<RawCall>, last: RawCall, decode: string -> Option<Arguments>)
    ensures Decoded(calls + [last], decode) ==
            Decoded(calls, decode)
            + [ToolCall(last.id, last.name, match decode(last.arguments) case Some(a) => a case None => map[])]
  {
    assert (calls + [last])[..|calls|] == calls;
  }

  // ---------- what one id and the text contribute ----------

  predicate HasId(c: Chunk, id: string) {
    (c.ToolCallStart? || c.ToolCallDelta? || c.ToolCallDone?) && c.id == id
  }

  /** The chunks of one tool call, in order. */
  function Project(chunks: seq<Chunk>, id: string): seq<Chunk> {
    if chunks == [] then []
    else
      var last := chunks[|chunks| - 1];
      Project(chunks[..|chunks| - 1], id) + (if HasId(last, id) then [last] else [])
  }

  function CallsOf(calls: seq<RawCall>, id: string): seq<RawCall> {
    if calls == [] then []
    else
      var last := calls[|calls| - 1];
      CallsOf(calls[..|calls| - 1], id) + (if last.id == id then [last] else [])
  }

  function TextDeltas(chunks: seq<Chunk>): string {
    if chunks == [] then ""
    else
      var last := chunks[|chunks| - 1];
      TextDeltas(chunks[..|chunks| - 1]) + (if last.TextDelta? then last.text else "")
  }

  /** The text is the concatenated text deltas, whatever comes between them. */
  lemma {:induction false} TextIsTextDeltas(chunks: seq<Chunk>)
    ensures Run(chunks).text == TextDeltas(chunks)
  {
    if chunks != [] {
      TextIsTextDeltas(chunks[..|chunks| - 1]);
    }
  }

  function PendingOf(s: State, id: string): Option<Pending> {
    if id in s.pending then Some(s.pending[id]) else None
  }

  lemma CallsOfSnoc(calls: seq<RawCall>, last: RawCall, id: string)
    ensures CallsOf(calls + [last], id) == CallsOf(calls, id) + (if last.id == id then [last] else [])
  {
    assert (calls + [last])[..|calls|] == calls;
  }

  /** Two states that show the same for an id. */
  predicate SameFor(s: State, mine: State, id: string) {
    CallsOf(s.calls, id) == mine.calls && PendingOf(s, id) == PendingOf(mine, id)
  }

  /** A chunk of another id, of the text, or an end marker shows nothing for an id. */
  lemma StepOther(s: State, c: Chunk, id: string)
    requires !HasId(c, id)
    ensures CallsOf(Step(s, c).calls, id) == CallsOf(s.calls, id) && PendingOf(Step(s, c), id) == PendingOf(s, id)
  {
    if c.ToolCallDone? && c.id in s.pending {
      CallsOfSnoc(s.calls, RawCall(c.id, s.pending[c.id].name, s.pending[c.id].arguments), id);
    }
  }

  lemma StepSame(s: State, mine: State, c: Chunk, id: string)
    requires SameFor(s, mine, id) && HasId(c, id)
    ensures SameFor(Step(s, c), Step(mine, c), id)
  {
    if c.ToolCallDone? && id in s.pending {
      CallsOfSnoc(s.calls, RawCall(id, s.pending[id].name, s.pending[id].arguments), id);
    }
  }

  /**
   Non-interference, for every sequence of chunks, well formed or not: what is finished and what is
   pending for an id depends only on that id's chunks.
   */
  lemma {:induction false} IdsDoNotInterfere(chunks: seq<Chunk>, id: string)
    ensures CallsOf(Run(chunks).calls, id) == Run(Project(chunks, id)).calls
    ensures PendingOf(Run(chunks), id) == PendingOf(Run(Project(chunks, id)), id)
  {
    hide Step, PendingOf;
    if chunks == [] {
      assert CallsOf([], id) == [];
    } else {
      var front, last := chunks[..|chunks| - 1], chunks[|chunks| - 1];
      IdsDoNotInterfere(front, id);
      if HasId(last, id) {
        StepSame(Run(front), Run(Project(front, id)), last, id);
        assert (Project(front, id) + [last])[..|Project(front, id)|] == Project(front, id);
      } else {
        StepOther(Run(front), last, id);
        assert Project(front, id) + [] == Project(front, id);
      }
    }
  }

  // ---------- interleavings of well-formed streams ----------

  datatype Stream = Stream(name: string, deltas: seq<string>)

  function DeltaChunks(id: string, deltas: seq<string>): seq<Chunk> {
    if deltas == [] then [] else DeltaChunks(id, deltas[..|deltas| - 1]) + [ToolCallDelta(id, deltas[|deltas| - 1])]
  }

  function Concatenated(deltas: seq<string>): string {
    if deltas == [] then "" else Concatenated(deltas[..|deltas| - 1]) + deltas[|deltas| - 1]
  }

  function OpenChunks(id: string, s: Stream): seq<Chunk> {
    [ToolCallStart(id, s.name)] + DeltaChunks(id, s.deltas)
  }

  /** Start, any number of deltas, Done. */
  function StreamChunks(id: string, s: Stream): seq<Chunk> {
    OpenChunks(id, s) + [ToolCallDone(id)]
  }

  /** The chunks are an order-preserving interleaving of these streams, text and end markers aside. */
  ghost predicate Interleaves(chunks: seq<Chunk>, streams: map<string, Stream>) {
    forall id :: Project(chunks, id) == if id in streams then StreamChunks(id, streams[id]) else []
  }

  /** The ids in the order of their Done chunks. */
  function DoneOrder(chunks: seq<Chunk>): seq<string> {
    if chunks == [] then []
    else
      var last := chunks[|chunks| - 1];
      DoneOrder(chunks[..|chunks| - 1]) + (if last.ToolCallDone? then [last.id] else [])
  }

  function CallFor(id: string, s: Stream): RawCall {
    RawCall(id, s.name, Concatenated(s.deltas))
  }

  lemma {:induction false} OpenChunksLast(id: string, s: Stream)
    requires s.deltas != []
    ensures OpenChunks(id, s) ==
            OpenChunks(id, s.(deltas := s.deltas[..|s.deltas| - 1])) + [ToolCallDelta(id, s.deltas[|s.deltas| - 1])]
  {
  }

  lemma {:induction false} RunOpen(id: string, s: Stream)
    ensures Run(OpenChunks(id, s)) == State("", map[id := Pending(s.name, Concatenated(s.deltas))], [])
    decreases |s.deltas|
  {
    if s.deltas == [] {
      assert OpenChunks(id, s) == [ToolCallStart(id, s.name)];
      assert [ToolCallStart(id, s.name)][..0] == [];
    } else {
      var shorter := s.(deltas := s.deltas[..|s.deltas| - 1]);
      OpenChunksLast(id, s);
      RunOpen(id, shorter);
      assert OpenChunks(id, s)[..|OpenChunks(id, s)| - 1] == OpenChunks(id, shorter);
    }
  }

  lemma {:induction false} ProjectPrefix(chunks: seq<Chunk>, k: nat, id: string)
    requires k <= |chunks|
    ensures Project(chunks[..k], id) <= Project(chunks, id)
    decreases |chunks| - k
  {
    if k == |chunks| {
      assert chunks[..k] == chunks;
    } else {
      ProjectPrefix(chunks, k + 1, id);
      assert chunks[..k + 1][..k] == chunks[..k];
    }
  }

  /** Just before an id's Done chunk, exactly its Start and all its deltas have arrived. */
  lemma BeforeDone(chunks: seq<Chunk>, streams: map<string, Stream>, k: nat)
    requires Interleaves(chunks, streams) && k < |chunks| && chunks[k].ToolCallDone?
    ensures chunks[k].id in streams
    ensures Project(chunks[..k], chunks[k].id) == OpenChunks(chunks[k].id, streams[chunks[k].id])
  {
    var id := chunks[k].id;
    ProjectPrefix(chunks, k + 1, id);
    assert chunks[..k + 1][..k] == chunks[..k];
    var before := Project(chunks[..k], id);
    assert before + [chunks[k]] <= Project(chunks, id);
    assert Project(chunks, id)[|before|] == chunks[k];
    OnlyLastIsDone(id, streams[id], |before|);
    assert before == Project(chunks, id)[..|before|];
  }

  lemma {:induction false} DeltaChunksAreDeltas(id: string, deltas: seq<string>)
    ensures forall i :: 0 <= i < |DeltaChunks(id, deltas)| ==> DeltaChunks(id, deltas)[i].ToolCallDelta?
  {
    if deltas != [] {
      DeltaChunksAreDeltas(id, deltas[..|deltas| - 1]);
    }
  }

  lemma OnlyLastIsDone(id: string, s: Stream, i: nat)
    requires i < |StreamChunks(id, s)| && StreamChunks(id, s)[i].ToolCallDone?
    ensures i == |OpenChunks(id, s)| && StreamChunks(id, s)[..i] == OpenChunks(id, s)
  {
    DeltaChunksAreDeltas(id, s.deltas);
  }

  /** On an interleaving, calls are finished exactly in the order of the Done chunks. */
  lemma {:induction false} CallsFollowDoneOrder(chunks: seq<Chunk>, streams: map<string, Stream>, k: nat)
    requires Interleaves(chunks, streams) && k <= |chunks|
    ensures |Run(chunks[..k]).calls| == |DoneOrder(chunks[..k])|
    ensures forall i :: 0 <= i < |DoneOrder(chunks[..k])| ==>
              && DoneOrder(chunks[..k])[i] in streams
              && Run(chunks[..k]).calls[i] == CallFor(DoneOrder(chunks[..k])[i], streams[DoneOrder(chunks[..k])[i]])
    decreases k
  {
    hide Project, OpenChunks, StreamChunks, Concatenated;
    if k > 0 {
      CallsFollowDoneOrder(chunks, streams, k - 1);
      RunSnoc(chunks, k - 1);
      var front, last := chunks[..k - 1], chunks[k - 1];
      assert chunks[..k][..k - 1] == front;
      if last.ToolCallDone? {
        BeforeDone(chunks, streams, k - 1);
        IdsDoNotInterfere(front, last.id);
        RunOpen(last.id, streams[last.id]);
        assert PendingOf(Run(front), last.id) ==
               Some(Pending(streams[last.id].name, Concatenated(streams[last.id].deltas)));
      }
    }
  }

  function Count(ids: seq<string>, id: string): nat {
    if ids == [] then 0 else Count(ids[..|ids| - 1], id) + (if ids[|ids| - 1] == id then 1 else 0)
  }

  function DoneCount(chunks: seq<Chunk>): nat {
    if chunks == [] then 0
    else DoneCount(chunks[..|chunks| - 1]) + (if chunks[|chunks| - 1].ToolCallDone? then 1 else 0)
  }

  lemma {:induction false} CountDone(chunks: seq<Chunk>, id: string)
    ensures Count(DoneOrder(chunks), id) == DoneCount(Project(chunks, id))
  {
    if chunks != [] {
      var front, last := chunks[..|chunks| - 1], chunks[|chunks| - 1];
      CountDone(front, id);
      assert (Project(front, id) + [last])[..|Project(front, id)|] == Project(front, id);
      assert last.ToolCallDone? ==> (DoneOrder(front) + [last.id])[..|DoneOrder(front)|] == DoneOrder(front);
      assert DoneOrder(front) + [] == DoneOrder(front) && Project(front, id) + [] == Project(front, id);
    }
  }

  lemma {:induction false} DoneCountOpen(id: string, s: Stream)
    ensures DoneCount(OpenChunks(id, s)) == 0 && DoneCount(StreamChunks(id, s)) == 1
    decreases |s.deltas|
  {
    if s.deltas == [] {
      assert OpenChunks(id, s) == [ToolCallStart(id, s.name)];
      assert [ToolCallStart(id, s.name)][..0] == [];
    } else {
      var shorter := s.(deltas := s.deltas[..|s.deltas| - 1]);
      OpenChunksLast(id, s);
      DoneCountOpen(id, shorter);
      assert OpenChunks(id, s)[..|OpenChunks(id, s)| - 1] == OpenChunks(id, shorter);
    }
    assert StreamChunks(id, s)[..|StreamChunks(id, s)| - 1] == OpenChunks(id, s);
  }

  /**
   For every order-preserving interleaving of well-formed streams with distinct ids, mixed with
   text: the accumulator yields each call exactly once, in the order of the Done chunks, with its
   name and its deltas concatenated; nothing stays unfinished or is invented; and the text is the
   concatenated text deltas.
   */
  lemma Demultiplexes(chunks: seq<Chunk>, streams: map<string, Stream>)
    requires Interleaves(chunks, streams)
    ensures Run(chunks).text == TextDeltas(chunks)
    ensures forall id :: Count(DoneOrder(chunks), id) == if id in streams then 1 else 0
    ensures |Run(chunks).calls| == |DoneOrder(chunks)|
    ensures forall i :: 0 <= i < |DoneOrder(chunks)| ==>
              && DoneOrder(chunks)[i] in streams
              && Run(chunks).calls[i] == CallFor(DoneOrder(chunks)[i], streams[DoneOrder(chunks)[i]])
    ensures Run(chunks).pending == map[]
  {
    hide Run, DoneOrder, StreamChunks, OpenChunks;
    TextIsTextDeltas(chunks);
    CallsFollowDoneOrder(chunks, streams, |chunks|);
    assert chunks[..|chunks|] == chunks;
    forall id
      ensures Count(DoneOrder(chunks), id) == if id in streams then 1 else 0
      ensures id !in Run(chunks).pending
    {
      CountDone(chunks, id);
      IdsDoNotInterfere(chunks, id);
      if id in streams {
        DoneCountOpen(id, streams[id]);
        NothingPending(id, streams[id]);
      } else {
        RunNothing();
      }
    }
  }

  lemma NothingPending(id: string, s: Stream)
    ensures PendingOf(Run(StreamChunks(id, s)), id).None?
  {
    RunOpen(id, s);
    assert StreamChunks(id, s)[..|StreamChunks(id, s)| - 1] == OpenChunks(id, s);
  }

  lemma RunNothing()
    ensures Run([]) == INITIAL
  {
  }
}
