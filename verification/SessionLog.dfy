/**
 The text of one session file: one JSON line per conversation turn or metadata entry, how it is
 read back, and what a reader sees of a file whose writing was cut short.
 */
module SessionLog {
  import opened Prelude
  import opened Json
  import opened JsonObject

  datatype Role = User | Assistant | System

  datatype Turn = Turn(role: Role, content: string, createdAtUnixMs: u64)

  datatype Entry =
    | CompactBoundary(timestampMs: u64, summaryTurnIndex: u64, discardedTurns: u64, retainedTurns: u64)
    | TokenUsage(timestampMs: u64, promptTokens: u64, outputTokens: u64, modelId: Option<string>,
                 sessionPromptTotal: u64, sessionOutputTotal: u64)

  /** One line of a session file, before it is printed. */
  datatype Item = TurnItem(turn: Turn) | EntryItem(entry: Entry)

  // ---------- printing ----------

  function RoleName(role: Role): string {
    match role
    case User => "User"
    case Assistant => "Assistant"
    case System => "System"
  }

  function TurnMembers(t: Turn): Members {
    [("role", JString(RoleName(t.role))), ("content", JString(t.content)),
     ("created_at_unix_ms", JNat(t.createdAtUnixMs))]
  }

  /** The tag of an entry comes first, as serde writes an internally tagged enum. */
  function EntryMembers(e: Entry): (ms: Members)
    ensures ms != []
  {
    match e
    case CompactBoundary(ts, index, discarded, retained) =>
      [("type", JString("compact_boundary")), ("timestamp_ms", JNat(ts)), ("summary_turn_index", JNat(index)),
       ("discarded_turns", JNat(discarded)), ("retained_turns", JNat(retained))]
    case TokenUsage(ts, prompt, output, model, promptTotal, outputTotal) =>
      [("type", JString("token_usage")), ("timestamp_ms", JNat(ts)), ("prompt_tokens", JNat(prompt)),
       ("output_tokens", JNat(output)),
       ("model_id", if model.Some? then JString(model.value) else JNull),
       ("session_prompt_total", JNat(promptTotal)), ("session_output_total", JNat(outputTotal))]
  }

  function ItemMembers(item: Item): (ms: Members)
    ensures ms != []
  {
    match item
    case TurnItem(t) => TurnMembers(t)
    case EntryItem(e) => EntryMembers(e)
  }

  function Line(item: Item): string {
    RenderObject(ItemMembers(item))
  }

  /** What a sequence of writes adds to a file. */
  function Render(items: seq<Item>): string {
    if items == [] then "" else Line(items[0]) + ("\n" + Render(items[1..]))
  }

  function TurnItems(turns: seq<Turn>): (items: seq<Item>)
    ensures |items| == |turns| && forall i :: 0 <= i < |turns| ==> items[i] == TurnItem(turns[i])
  {
    if turns == [] then [] else [TurnItem(turns[0])] + TurnItems(turns[1..])
  }

  function TurnOf(item: Item): seq<Turn> {
    match item case TurnItem(t) => [t] case EntryItem(_) => []
  }

  function Turns(items: seq<Item>): seq<Turn> {
    if items == [] then []
    else TurnOf(items[0]) + Turns(items[1..])
  }

  // ---------- reading ----------

  /** `BufRead::lines`: a newline, and a carriage return right before it, ends a line. */
  function Lines(s: string): seq<string>
    decreases |s|
  {
    if s == "" then []
    else
      var n := LineLength(s);
      if n == |s| then [s] else [ChopReturn(s[..n])] + Lines(s[n + 1..])
  }

  function LineLength(s: string): (n: nat)
    ensures n <= |s| && (n < |s| ==> s[n] == '\n')
  {
    if s == "" || s[0] == '\n' then 0 else 1 + LineLength(s[1..])
  }

  function ChopReturn(s: string): string {
    if s != "" && s[|s| - 1] == '\r' then s[..|s| - 1] else s
  }

  /** All the values a key is given. */
  function ValuesOf(ms: Members, key: string): seq<Json> {
    if ms == [] then [] else (if ms[0].0 == key then [ms[0].1] else []) + ValuesOf(ms[1..], key)
  }

  function RoleOf(name: string): Option<Role> {
    match name
    case "User" => Some(User)
    case "Assistant" => Some(Assistant)
    case "System" => Some(System)
    case _ => None
  }

  /**
   Members in any order; unknown members are ignored, a repeated known member is an error, and
   a missing time stamp is zero.
   */
  function DecodeTurn(ms: Members): Option<Turn> {
    var roles, contents, stamps :=
      ValuesOf(ms, "role"), ValuesOf(ms, "content"), ValuesOf(ms, "created_at_unix_ms");
    if |roles| != 1 || !roles[0].JString? || |contents| != 1 || !contents[0].JString? || |stamps| > 1 then None
    else
      match RoleOf(roles[0].text)
      case None => None
      case Some(role) =>
        if stamps == [] then Some(Turn(role, contents[0].text, 0))
        else if stamps[0].JNat? then Some(Turn(role, contents[0].text, stamps[0].number))
        else None
  }

  const TYPE_TAG: string := "\"type\":"
  const BOUNDARY_TAG: string := "\"compact_boundary\""

  /** What a reader makes of one line. */
  datatype LineKind = Blank | Metadata(boundary: bool) | TurnLine(turn: Turn) | Malformed

  function Classify(line: string): LineKind {
    var trimmed := Trim(line);
    if trimmed == "" then Blank
    else if Contains(trimmed, TYPE_TAG) then Metadata(Contains(trimmed, BOUNDARY_TAG))
    else
      match ParseDocument(trimmed)
      case None => Malformed
      case Some(ms) =>
        match DecodeTurn(ms) case None => Malformed case Some(turn) => TurnLine(turn)
  }

  function KindsOf(lines: seq<string>): (kinds: seq<LineKind>)
    ensures |kinds| == |lines| && forall i :: 0 <= i < |lines| ==> kinds[i] == Classify(lines[i])
  {
    if lines == [] then [] else [Classify(lines[0])] + KindsOf(lines[1..])
  }

  /** The turns a reader keeps: metadata, blank and malformed lines are skipped. */
  function KeptTurns(kinds: seq<LineKind>): seq<Turn> {
    if kinds == [] then []
    else (match kinds[0] case TurnLine(t) => [t] case _ => []) + KeptTurns(kinds[1..])
  }

  function CountedLines(kinds: seq<LineKind>): nat {
    if kinds == [] then 0
    else (if kinds[0].TurnLine? || kinds[0].Malformed? then 1 else 0) + CountedLines(kinds[1..])
  }

  function Kinds(text: string): seq<LineKind> {
    KindsOf(Lines(text))
  }

  function TurnsIn(text: string): seq<Turn> {
    KeptTurns(Kinds(text))
  }

  function TurnCount(text: string): nat {
    CountedLines(Kinds(text))
  }

  // ---------- one written line ----------

  function KindOf(item: Item): LineKind {
    match item
    case TurnItem(t) => TurnLine(t)
    case EntryItem(e) => Metadata(LooksLikeBoundary(e))
  }

  /** When the text of an entry contains the quoted word `compact_boundary`. */
  predicate LooksLikeBoundary(e: Entry) {
    match e
    case CompactBoundary(_, _, _, _) => true
    case TokenUsage(_, _, _, model, _, _) => model.Some? && Hits(model.value, "compact_boundary")
  }

  lemma HitEndsAlike(s: string, w: string)
    requires s != "" && w != ""
    ensures Hits(s, w) ==> s[|s| - 1] == w[|w| - 1]
  {
    if EndsWith(s, "\"" + w) {
      assert s[|s| - |w| - 1..][|w|] == ("\"" + w)[|w|];
    }
  }

  lemma TurnHasNoTypeKey(t: Turn)
    ensures !AnyHit(TurnMembers(t), "type", ":")
  {
    HitEndsAlike("content", "type");
    HitEndsAlike("created_at_unix_ms", "type");
    assert !Hits("role", "type");
  }

  lemma EntryHasTypeKey(e: Entry)
    ensures AnyHit(EntryMembers(e), "type", ":")
  {
    assert EntryMembers(e)[0].0 == "type";
    assert MemberHits(EntryMembers(e)[0], "type", ":");
  }

  /** A turn, whatever its content, is never mistaken for metadata, and metadata never for a turn. */
  lemma TypeTagMarksMetadata(item: Item)
    ensures Contains(Line(item), TYPE_TAG) <==> item.EntryItem?
  {
    assert TYPE_TAG == Needle("type", ":");
    RawTextIsKeyOrValue(ItemMembers(item), "type", ":");
    match item
    case TurnItem(t) => TurnHasNoTypeKey(t);
    case EntryItem(e) => EntryHasTypeKey(e);
  }

  lemma UsageHitsByModel(e: Entry)
    requires e.TokenUsage?
    ensures AnyHit(EntryMembers(e), "compact_boundary", "") <==> LooksLikeBoundary(e)
  {
    var ms := EntryMembers(e);
    HitEndsAlike("type", "compact_boundary");
    HitEndsAlike("token_usage", "compact_boundary");
    HitEndsAlike("timestamp_ms", "compact_boundary");
    HitEndsAlike("prompt_tokens", "compact_boundary");
    HitEndsAlike("output_tokens", "compact_boundary");
    HitEndsAlike("model_id", "compact_boundary");
    HitEndsAlike("session_prompt_total", "compact_boundary");
    HitEndsAlike("session_output_total", "compact_boundary");
    assert forall i :: 0 <= i < |ms| && i != 4 ==> !MemberHits(ms[i], "compact_boundary", "");
    assert MemberHits(ms[4], "compact_boundary", "") <==> LooksLikeBoundary(e);
  }

  lemma BoundaryHits(e: Entry)
    requires e.CompactBoundary?
    ensures AnyHit(EntryMembers(e), "compact_boundary", "")
  {
    assert EntryMembers(e)[0].1 == JString("compact_boundary");
    assert MemberHits(EntryMembers(e)[0], "compact_boundary", "");
  }

  lemma BoundaryWordIsPlain()
    ensures PlainWord("compact_boundary") && BOUNDARY_TAG == Needle("compact_boundary", "")
  {
  }

  /** Which metadata lines `load_after_boundary` takes for a compact boundary. */
  lemma BoundaryTagInEntries(e: Entry)
    ensures Contains(Line(EntryItem(e)), BOUNDARY_TAG) <==> LooksLikeBoundary(e)
  {
    hide EntryMembers, RenderObject, Contains, AnyHit;
    BoundaryWordIsPlain();
    RawTextIsKeyOrValue(EntryMembers(e), "compact_boundary", "");
    if e.CompactBoundary? {
      BoundaryHits(e);
    } else {
      UsageHitsByModel(e);
    }
  }

  lemma LineShape(item: Item)
    ensures OneLine(Line(item)) && Line(item)[0] == '{' && LastIs(Line(item), '}')
  {
    ObjectShape(ItemMembers(item));
  }

  lemma TrimmedLine(item: Item)
    ensures Trim(Line(item)) == Line(item)
  {
    hide Line;
    LineShape(item);
  }

  lemma ValuesOfThree(a: (string, Json), b: (string, Json), c: (string, Json), key: string)
    ensures ValuesOf([a, b, c], key) ==
            (if a.0 == key then [a.1] else []) + (if b.0 == key then [b.1] else []) + (if c.0 == key then [c.1] else [])
  {
    assert [a, b, c][1..] == [b, c] && [b, c][1..] == [c] && [c][1..] == [];
    assert ValuesOf([c], key) == if c.0 == key then [c.1] else [];
    assert ValuesOf([b, c], key) == (if b.0 == key then [b.1] else []) + ValuesOf([c], key);
  }

  lemma DecodeTurnUndoesMembers(t: Turn)
    ensures DecodeTurn(TurnMembers(t)) == Some(t)
  {
    var ms := TurnMembers(t);
    ValuesOfThree(ms[0], ms[1], ms[2], "role");
    ValuesOfThree(ms[0], ms[1], ms[2], "content");
    ValuesOfThree(ms[0], ms[1], ms[2], "created_at_unix_ms");
    assert "role" != "content" && "content" != "created_at_unix_ms" && "role" != "created_at_unix_ms";
  }

  /** Every written line is read back as what was written. */
  lemma LineRoundTrip(item: Item)
    ensures Classify(Line(item)) == KindOf(item)
  {
    TrimmedLine(item);
    LineShape(item);
    TypeTagMarksMetadata(item);
    match item
    case TurnItem(t) =>
      ObjectRoundTrip(TurnMembers(t));
      DecodeTurnUndoesMembers(t);
    case EntryItem(e) =>
      BoundaryTagInEntries(e);
  }

  // ---------- whole files ----------

  /** A file whose last line is complete: appending starts a new line. */
  predicate EndsCleanly(text: string) {
    text == "" || text[|text| - 1] == '\n'
  }

  lemma {:induction false} LineLengthOf(line: string, rest: string)
    requires NoNewline(line)
    ensures LineLength(line + ("\n" + rest)) == |line|
    ensures LineLength(line) == |line|
  {
    if line == "" {
      assert line + ("\n" + rest) == "\n" + rest;
    } else {
      ConcatTail(line, "\n" + rest);
      LineLengthOf(line[1..], rest);
    }
  }

  predicate NoNewline(s: string) {
    forall i :: 0 <= i < |s| ==> s[i] != '\n'
  }

  lemma LinesOf(line: string, rest: string)
    requires NoNewline(line)
    ensures Lines(line + ("\n" + rest)) == [ChopReturn(line)] + Lines(rest)
  {
    hide LineLength;
    LineLengthOf(line, rest);
    var s := line + ("\n" + rest);
    SplitAt(line, rest);
  }

  lemma SplitAt(line: string, rest: string)
    ensures (line + ("\n" + rest))[..|line|] == line && (line + ("\n" + rest))[|line| + 1..] == rest
  {
  }

  lemma LinesOfLast(line: string)
    requires NoNewline(line)
    ensures Lines(line) == if line == "" then [] else [line]
  {
    LineLengthOf(line, "");
  }

  /** A clean file's lines do not change when text is appended to it. */
  lemma {:induction false} LinesConcat(text: string, more: string)
    requires EndsCleanly(text)
    ensures Lines(text + more) == Lines(text) + Lines(more)
    decreases |text|
  {
    hide ChopReturn, LineLength;
    if text == "" {
      assert text + more == more;
    } else {
      var line, rest := SplitFirstLine(text);
      LinesConcat(rest, more);
      calc {
        Lines(text + more);
        { AppendInside(line, rest, more); }
        Lines(line + ("\n" + (rest + more)));
        { LinesOf(line, rest + more); }
        [ChopReturn(line)] + (Lines(rest) + Lines(more));
        ([ChopReturn(line)] + Lines(rest)) + Lines(more);
        { LinesOf(line, rest); }
        Lines(text) + Lines(more);
      }
    }
  }

  lemma AppendInside(line: string, rest: string, more: string)
    ensures (line + ("\n" + rest)) + more == line + ("\n" + (rest + more))
  {
  }

  lemma SplitFirstLine(text: string) returns (line: string, rest: string)
    requires text != "" && EndsCleanly(text)
    ensures NoNewline(line) && text == line + ("\n" + rest) && EndsCleanly(rest)
  {
    LineLengthOfText(text);
    line, rest := text[..LineLength(text)], text[LineLength(text) + 1..];
  }

  lemma {:induction false} LineLengthOfText(text: string)
    requires text != "" && EndsCleanly(text)
    ensures LineLength(text) < |text|
    ensures forall i :: 0 <= i < LineLength(text) ==> text[i] != '\n'
  {
    if text[0] != '\n' {
      assert |text| > 1;
      LineLengthOfText(text[1..]);
      assert forall i :: 1 <= i < LineLength(text) ==> text[i] == text[1..][i - 1];
    }
  }

  function KindsOfItems(items: seq<Item>): seq<LineKind> {
    if items == [] then [] else [KindOf(items[0])] + KindsOfItems(items[1..])
  }

  lemma {:induction false} RenderedKinds(items: seq<Item>)
    ensures Kinds(Render(items)) == KindsOfItems(items) && EndsCleanly(Render(items))
  {
    if items != [] {
      LineShape(items[0]);
      LinesOf(Line(items[0]), Render(items[1..]));
      LineRoundTrip(items[0]);
      RenderedKinds(items[1..]);
      var lines := Lines(Render(items));
      assert lines[0] == Line(items[0]) && lines[1..] == Lines(Render(items[1..]));
    }
  }

  lemma {:induction false} KindsConcat(a: seq<string>, b: seq<string>)
    ensures KindsOf(a + b) == KindsOf(a) + KindsOf(b)
  {
  }

  lemma {:induction false} KeptConcat(a: seq<LineKind>, b: seq<LineKind>)
    ensures KeptTurns(a + b) == KeptTurns(a) + KeptTurns(b)
    ensures CountedLines(a + b) == CountedLines(a) + CountedLines(b)
  {
    if a == [] {
      assert a + b == b;
    } else {
      assert (a + b)[1..] == a[1..] + b;
      KeptConcat(a[1..], b);
    }
  }

  lemma {:induction false} KeptOfItems(items: seq<Item>)
    ensures KeptTurns(KindsOfItems(items)) == Turns(items)
    ensures CountedLines(KindsOfItems(items)) == |Turns(items)|
  {
    if items != [] {
      KeptOfItems(items[1..]);
      var kinds := KindsOfItems(items);
      assert kinds[1..] == KindsOfItems(items[1..]);
    }
  }

  /**
   Appending items to any file that ends cleanly, whatever else it holds, adds exactly the
   appended turns to what a reader gets, in order, and their number to the count.
   */
  lemma AppendedTurnsAreRead(text: string, items: seq<Item>)
    requires EndsCleanly(text)
    ensures TurnsIn(text + Render(items)) == TurnsIn(text) + Turns(items)
    ensures TurnCount(text + Render(items)) == TurnCount(text) + |Turns(items)|
    ensures EndsCleanly(text + Render(items))
  {
    LinesConcat(text, Render(items));
    KindsConcat(Lines(text), Lines(Render(items)));
    RenderedKinds(items);
    KeptConcat(Kinds(text), KindsOfItems(items));
    KeptOfItems(items);
  }

  // ---------- a file cut short ----------

  /** How many items lie whole in the first `n` characters of their file, the last newline aside. */
  function WholeItems(items: seq<Item>, n: nat): (k: nat)
    ensures k <= |items|
  {
    if items == [] || n < |Line(items[0])| then 0
    else if n == |Line(items[0])| then 1
    else 1 + WholeItems(items[1..], n - |Line(items[0])| - 1)
  }

  lemma NoDocumentIsNoTurn(line: string)
    requires ParseDocument(Trim(line)).None?
    ensures !Classify(line).TurnLine?
  {
  }

  /** No proper prefix of a written line is read as a turn. */
  lemma TornLineIsNoTurn(item: Item, n: nat)
    requires n < |Line(item)|
    ensures !Classify(Line(item)[..n]).TurnLine?
  {
    hide Line, Classify;
    var torn := Line(item)[..n];
    if torn == "" {
      EmptyLineIsBlank();
    } else {
      LineShape(item);
      ObjectRoundTrip(ItemMembers(item));
      TrimmedPrefix(torn, Line(item));
      LineParses(item);
      NoProperPrefixIsDocument(Line(item), Trim(torn));
      NoDocumentIsNoTurn(torn);
    }
  }

  lemma EmptyLineIsBlank()
    ensures Classify("").Blank?
  {
  }

  lemma LineParses(item: Item)
    ensures ParseObject(Line(item)) == Done(ItemMembers(item), "")
  {
    ObjectRoundTrip(ItemMembers(item));
  }

  lemma TrimmedPrefix(torn: string, line: string)
    requires torn != "" && torn <= line && torn != line && line[0] == '{'
    ensures Trim(torn) <= line && Trim(torn) != line
  {
    assert torn[0] == '{';
    TrimEndIsPrefix(torn);
  }

  lemma EmptyFileIsEmpty()
    ensures Lines("") == [] && TurnsIn("") == [] && TurnCount("") == 0 && EndsCleanly("")
  {
  }

  /**
   Whatever prefix of a written file reaches the disk, reading it gives exactly the turns whose
   text is whole in the prefix: a prefix of the full list, and nothing invented.
   */
  lemma {:induction false} TornFileKeepsWholeTurns(items: seq<Item>, torn: string)
    requires torn <= Render(items)
    ensures TurnsIn(torn) == Turns(items[..WholeItems(items, |torn|)])
    ensures TurnsIn(torn) <= Turns(items)
  {
    hide Line, Lines, Classify;
    if items == [] {
      EmptyFileIsEmpty();
    } else if |torn| <= |Line(items[0])| {
      PrefixWithin(torn, Line(items[0]), "\n" + Render(items[1..]));
      TornLineRead(items[0], |torn|);
      assert Line(items[0])[..|torn|] == torn;
      FirstTurns(items);
    } else {
      var line, rest := Line(items[0]), Render(items[1..]);
      var torn' := torn[|line| + 1..];
      PrefixPast(torn, line, rest);
      TornFileKeepsWholeTurns(items[1..], torn');
      FirstLineRead(items[0], torn');
      TurnsUpTo(items, WholeItems(items[1..], |torn'|));
      PrefixUnder(TurnOf(items[0]), TurnsIn(torn'), Turns(items[1..]));
    }
  }

  lemma TurnsUpTo(items: seq<Item>, k: nat)
    requires k < |items|
    ensures Turns(items[..k + 1]) == TurnOf(items[0]) + Turns(items[1..][..k])
  {
    assert items[..k + 1][0] == items[0] && items[..k + 1][1..] == items[1..][..k];
  }

  lemma FirstLineRead(item: Item, rest: string)
    ensures TurnsIn(Line(item) + ("\n" + rest)) ==
            TurnOf(item) + TurnsIn(rest)
  {
    LineShape(item);
    LinesOf(Line(item), rest);
    LineRoundTrip(item);
    var lines := [Line(item)] + Lines(rest);
    assert lines[0] == Line(item) && lines[1..] == Lines(rest);
    var kinds := [KindOf(item)] + Kinds(rest);
    assert kinds[0] == KindOf(item) && kinds[1..] == Kinds(rest);
  }

  lemma PrefixUnder<T>(front: seq<T>, a: seq<T>, b: seq<T>)
    requires a <= b
    ensures front + a <= front + b
  {
    assert front + b == front + a + b[|a|..];
  }

  lemma PrefixWithin(torn: string, line: string, rest: string)
    requires torn <= line + rest && |torn| <= |line|
    ensures torn <= line
  {
    assert torn == (line + rest)[..|torn|] == line[..|torn|];
  }

  lemma PrefixPast(torn: string, line: string, rest: string)
    requires torn <= line + ("\n" + rest) && |torn| > |line|
    ensures torn == line + ("\n" + torn[|line| + 1..]) && torn[|line| + 1..] <= rest
  {
    var full := line + ("\n" + rest);
    assert torn == full[..|torn|];
    assert full[|line|] == '\n';
    assert torn[..|line|] == line;
    assert rest == full[|line| + 1..];
    assert torn[|line| + 1..] == rest[..|torn| - |line| - 1];
  }

  /** The cut lies within the first line or right after it. */
  lemma TornLineRead(item: Item, n: nat)
    requires n <= |Line(item)|
    ensures TurnsIn(Line(item)[..n]) == if n == |Line(item)| then TurnOf(item) else []
  {
    LineShape(item);
    OneLineRead(Line(item)[..n]);
    if n == |Line(item)| {
      assert Line(item)[..n] == Line(item);
      LineRoundTrip(item);
    } else {
      TornLineIsNoTurn(item, n);
    }
  }

  lemma OneLineRead(line: string)
    requires NoNewline(line)
    ensures TurnsIn(line) == if Classify(line).TurnLine? then [Classify(line).turn] else []
  {
    LinesOfLast(line);
    if line == "" {
      assert Trim(line) == "";
    } else {
      assert Kinds(line) == [Classify(line)];
      KeptOne(Classify(line));
    }
  }

  lemma KeptOne(kind: LineKind)
    ensures KeptTurns([kind]) == if kind.TurnLine? then [kind.turn] else []
  {
    assert [kind][1..] == [];
  }

  lemma FirstTurns(items: seq<Item>)
    requires items != []
    ensures Turns(items[..0]) == []
    ensures Turns(items[..1]) == TurnOf(items[0]) <= Turns(items)
  {
    assert items[..1] == [items[0]] && items[..1][1..] == [];
  }

  /** An interrupted append to a clean file adds exactly the turns whose text is whole. */
  lemma TornAppendKeepsWholeTurns(text: string, items: seq<Item>, torn: string)
    requires EndsCleanly(text) && torn <= Render(items)
    ensures TurnsIn(text + torn) == TurnsIn(text) + Turns(items[..WholeItems(items, |torn|)])
  {
    hide Line, Lines, Classify;
    LinesConcat(text, torn);
    KindsConcat(Lines(text), Lines(torn));
    KeptConcat(Kinds(text), Kinds(torn));
    TornFileKeepsWholeTurns(items, torn);
  }
}
