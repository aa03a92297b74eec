/**
 The file-backed session store: reading, appending, clearing and rewriting session files.
 The directory is a map from file name to text; its operations succeed unless a crash cuts them short.
 */
module SessionStore {
  import opened Prelude
  import opened Json
  import opened JsonObject
  import opened SessionLog

  datatype StoreError = InvalidSessionId(id: string)

  /** Session ids that cannot escape the store directory. */
  predicate ValidSessionId(id: string) {
    IsSafeName(id)
  }

  function FileName(id: string): string {
    id + ".jsonl"
  }

  function TempName(id: string): string {
    id + ".jsonl.tmp"
  }

  lemma FileNamesDistinct(a: string, b: string)
    ensures FileName(a) == FileName(b) ==> a == b
    ensures FileName(a) != TempName(b)
  {
    if FileName(a) == FileName(b) {
      assert a == FileName(a)[..|FileName(a)| - 6] == b;
    }
    assert FileName(a)[|FileName(a)| - 1] == 'l';
    assert TempName(b)[|TempName(b)| - 1] == 'p';
  }

  // ---------- turns after the last compact boundary ----------

  /** The turns since the last line taken for a compact boundary; all of them if there is none. */
  function SinceBoundary(kinds: seq<LineKind>): seq<Turn> {
    if kinds == [] then []
    else
      var before := SinceBoundary(kinds[..|kinds| - 1]);
      match kinds[|kinds| - 1]
      case TurnLine(t) => before + [t]
      case Metadata(boundary) => if boundary then [] else before
      case _ => before
  }

  /** The turns since the last genuine compact boundary of a log. */
  function SinceGenuineBoundary(items: seq<Item>): seq<Turn> {
    if items == [] then []
    else
      var before := SinceGenuineBoundary(items[..|items| - 1]);
      match items[|items| - 1]
      case TurnItem(t) => before + [t]
      case EntryItem(e) => if e.CompactBoundary? then [] else before
  }

  predicate Genuine(item: Item) {
    item.EntryItem? && item.entry.CompactBoundary?
  }

  /** A usage entry whose model id makes its line contain the quoted word `compact_boundary`. */
  predicate Impostor(item: Item) {
    item.EntryItem? && item.entry.TokenUsage? && LooksLikeBoundary(item.entry)
  }

  /** A turn, then an impostor, and no genuine boundary after that turn. */
  predicate Misled(items: seq<Item>) {
    exists i, j :: 0 <= i < j < |items| && HidesTurn(items, i, j)
  }

  predicate HidesTurn(items: seq<Item>, i: nat, j: nat)
    requires i < j < |items|
  {
    items[i].TurnItem? && Impostor(items[j]) && NoGenuineAfter(items, i)
  }

  predicate NoGenuineAfter(items: seq<Item>, i: nat) {
    forall b :: i < b < |items| ==> !Genuine(items[b])
  }

  predicate TurnSinceGenuine(items: seq<Item>) {
    exists i :: 0 <= i < |items| && items[i].TurnItem? && NoGenuineAfter(items, i)
  }

  lemma {:induction false} KindsOfItemsAt(items: seq<Item>)
    ensures |KindsOfItems(items)| == |items|
    ensures forall i :: 0 <= i < |items| ==> KindsOfItems(items)[i] == KindOf(items[i])
  {
    if items != [] {
      KindsOfItemsAt(items[1..]);
    }
  }

  lemma KindsOfInit(items: seq<Item>)
    requires items != []
    ensures KindsOfItems(items) == KindsOfItems(items[..|items| - 1]) + [KindOf(items[|items| - 1])]
  {
    KindsOfItemsAt(items);
    KindsOfItemsAt(items[..|items| - 1]);
  }

  lemma SinceBoundarySnoc(kinds: seq<LineKind>, kind: LineKind)
    ensures SinceBoundary(kinds + [kind]) ==
            if kind.TurnLine? then SinceBoundary(kinds) + [kind.turn]
            else if kind == Metadata(true) then [] else SinceBoundary(kinds)
  {
    assert (kinds + [kind])[..|kinds|] == kinds;
  }

  lemma {:induction false} TurnSinceGenuineIsNonempty(items: seq<Item>)
    ensures TurnSinceGenuine(items) <==> SinceGenuineBoundary(items) != []
  {
    if items != [] {
      var n := |items| - 1;
      var front, last := items[..n], items[n];
      TurnSinceGenuineIsNonempty(front);
      if Genuine(last) {
        assert forall i :: 0 <= i < n ==> !NoGenuineAfter(items, i);
      } else if last.TurnItem? {
        assert NoGenuineAfter(items, n);
      } else {
        NoGenuineInit(items);
      }
    }
  }

  lemma NoGenuineInit(items: seq<Item>)
    requires items != [] && !Genuine(items[|items| - 1])
    ensures forall i :: 0 <= i < |items| - 1 ==> (NoGenuineAfter(items, i) <==> NoGenuineAfter(items[..|items| - 1], i))
    ensures TurnSinceGenuine(items[..|items| - 1]) ==> TurnSinceGenuine(items)
    ensures !items[|items| - 1].TurnItem? && TurnSinceGenuine(items) ==> TurnSinceGenuine(items[..|items| - 1])
  {
    var n := |items| - 1;
    var front := items[..n];
    forall i | 0 <= i < n
      ensures NoGenuineAfter(items, i) <==> NoGenuineAfter(front, i)
    {
      assert forall b :: i < b < n ==> items[b] == front[b];
    }
    if TurnSinceGenuine(front) {
      var i :| 0 <= i < n && front[i].TurnItem? && NoGenuineAfter(front, i);
      assert items[i].TurnItem? && NoGenuineAfter(items, i);
    }
    if !items[n].TurnItem? && TurnSinceGenuine(items) {
      var i :| 0 <= i < |items| && items[i].TurnItem? && NoGenuineAfter(items, i);
      assert front[i].TurnItem? && NoGenuineAfter(front, i);
    }
  }

  lemma MisledStep(items: seq<Item>)
    requires items != []
    ensures var front, last := items[..|items| - 1], items[|items| - 1];
            Misled(items) <==> !Genuine(last) && (Misled(front) || (Impostor(last) && TurnSinceGenuine(front)))
  {
    var n := |items| - 1;
    var front, last := items[..n], items[n];
    if Genuine(last) {
      assert forall i :: 0 <= i < n ==> !NoGenuineAfter(items, i);
    } else {
      NoGenuineInit(items);
      if Misled(front) {
        var i, j :| 0 <= i < j < n && HidesTurn(front, i, j);
        assert HidesTurn(items, i, j);
      }
      if Impostor(last) && TurnSinceGenuine(front) {
        var i :| 0 <= i < n && front[i].TurnItem? && NoGenuineAfter(front, i);
        assert HidesTurn(items, i, n);
      }
      if Misled(items) {
        var i, j :| 0 <= i < j < |items| && HidesTurn(items, i, j);
        if j < n {
          assert HidesTurn(front, i, j);
        } else {
          assert front[i].TurnItem? && NoGenuineAfter(front, i);
        }
      }
    }
  }

  /** What an impostor hides is lost from the front, so lengths tell the two answers apart. */
  lemma {:induction false} SinceBoundaryLoses(items: seq<Item>)
    ensures |SinceBoundary(KindsOfItems(items))| <= |SinceGenuineBoundary(items)|
    ensures SinceBoundary(KindsOfItems(items)) == SinceGenuineBoundary(items) <==> !Misled(items)
    ensures Misled(items) ==> |SinceBoundary(KindsOfItems(items))| < |SinceGenuineBoundary(items)|
  {
    if items != [] {
      var n := |items| - 1;
      var front, last := items[..n], items[n];
      KindsOfInit(items);
      SinceBoundarySnoc(KindsOfItems(front), KindOf(last));
      SinceBoundaryLoses(front);
      MisledStep(items);
      TurnSinceGenuineIsNonempty(front);
    }
  }

  /**
   `load_after_boundary` on a written log gives the turns since its last compact boundary exactly
   when no usage entry whose model id is, or ends with a quote and, `compact_boundary` hides a turn.
   */
  lemma LoadAfterBoundaryExactly(items: seq<Item>)
    ensures SinceBoundary(Kinds(Render(items))) == SinceGenuineBoundary(items) <==> !Misled(items)
  {
    RenderedKinds(items);
    SinceBoundaryLoses(items);
  }

  /** A concrete log on which `load_after_boundary` drops a turn although no compaction happened. */
  lemma LoadAfterBoundaryCanLoseATurn(t: Turn)
    ensures var items := [TurnItem(t), EntryItem(TokenUsage(1, 2, 3, Some("x\"compact_boundary"), 2, 3))];
            SinceBoundary(Kinds(Render(items))) != SinceGenuineBoundary(items) == [t]
  {
    var usage := EntryItem(TokenUsage(1, 2, 3, Some("x\"compact_boundary"), 2, 3));
    var items := [TurnItem(t), usage];
    assert Impostor(usage) by { QuotedWordHits(); }
    assert HidesTurn(items, 0, 1);
    LoadAfterBoundaryExactly(items);
    OneTurnThenUsage(t, usage);
  }

  lemma QuotedWordHits()
    ensures Hits("x\"compact_boundary", "compact_boundary")
  {
    assert "x\"compact_boundary"[1..] == "\"" + "compact_boundary";
  }

  lemma OneTurnThenUsage(t: Turn, usage: Item)
    requires usage.EntryItem? && usage.entry.TokenUsage?
    ensures SinceGenuineBoundary([TurnItem(t), usage]) == [t]
  {
    var items := [TurnItem(t), usage];
    assert items[..1] == [TurnItem(t)] && [TurnItem(t)][..0] == [];
    assert SinceGenuineBoundary([TurnItem(t)]) == [t];
  }

  // ---------- the store ----------

  /** One call that adds lines to a session. */
  datatype Write = AppendTurns(turns: seq<Turn>) | AppendEntries(entries: seq<Entry>)

  function EntryItems(entries: seq<Entry>): seq<Item> {
    if entries == [] then [] else [EntryItem(entries[0])] + EntryItems(entries[1..])
  }

  function ItemsOf(w: Write): seq<Item> {
    match w
    case AppendTurns(turns) => TurnItems(turns)
    case AppendEntries(entries) => EntryItems(entries)
  }

  function Written(writes: seq<Write>): seq<Item> {
    if writes == [] then [] else Written(writes[..|writes| - 1]) + ItemsOf(writes[|writes| - 1])
  }

  /** The turns appended by a run of writes, in order. */
  function AppendedTurns(writes: seq<Write>): seq<Turn> {
    if writes == [] then []
    else
      var before, last := AppendedTurns(writes[..|writes| - 1]), writes[|writes| - 1];
      if last.AppendTurns? then before + last.turns else before
  }

  lemma {:induction false} RenderConcat(a: seq<Item>, b: seq<Item>)
    ensures Render(a + b) == Render(a) + Render(b)
  {
    hide Line;
    if a == [] {
      assert a + b == b && Render(a) + Render(b) == Render(b);
    } else {
      assert (a + b)[0] == a[0] && (a + b)[1..] == a[1..] + b;
      RenderConcat(a[1..], b);
      AppendInside(Line(a[0]), Render(a[1..]), Render(b));
    }
  }

  lemma RenderSnoc(items: seq<Item>, n: nat)
    requires n < |items|
    ensures Render(items[..n + 1]) == Render(items[..n]) + (Line(items[n]) + "\n")
  {
    hide Line;
    assert items[..n + 1] == items[..n] + [items[n]];
    RenderConcat(items[..n], [items[n]]);
    assert [items[n]][1..] == [];
    assert Render([items[n]]) == Line(items[n]) + ("\n" + "");
  }

  lemma {:induction false} TurnsOfTurnItems(turns: seq<Turn>)
    ensures Turns(TurnItems(turns)) == turns
  {
    if turns != [] {
      TurnsOfTurnItems(turns[1..]);
      assert TurnItems(turns)[1..] == TurnItems(turns[1..]);
    }
  }

  lemma {:induction false} TurnsOfEntryItems(entries: seq<Entry>)
    ensures Turns(EntryItems(entries)) == []
  {
    if entries != [] {
      TurnsOfEntryItems(entries[1..]);
    }
  }

  lemma {:induction false} TurnsConcat(a: seq<Item>, b: seq<Item>)
    ensures Turns(a + b) == Turns(a) + Turns(b)
  {
    if a == [] {
      assert a + b == b;
    } else {
      assert (a + b)[1..] == a[1..] + b;
      TurnsConcat(a[1..], b);
    }
  }

  lemma {:induction false} TurnsWritten(writes: seq<Write>)
    ensures Turns(Written(writes)) == AppendedTurns(writes)
  {
    if writes != [] {
      var before, last := writes[..|writes| - 1], writes[|writes| - 1];
      TurnsWritten(before);
      TurnsConcat(Written(before), ItemsOf(last));
      if last.AppendTurns? {
        TurnsOfTurnItems(last.turns);
      } else {
        TurnsOfEntryItems(last.entries);
      }
    }
  }

  lemma KindsInit(lines: seq<string>, i: nat)
    requires i < |lines|
    ensures KindsOf(lines[..i + 1]) == KindsOf(lines[..i]) + [Classify(lines[i])]
  {
    assert lines[..i + 1] == lines[..i] + [lines[i]];
    KindsConcat(lines[..i], [lines[i]]);
  }

  lemma KeptInit(lines: seq<string>, i: nat)
    requires i < |lines|
    ensures var kind := Classify(lines[i]);
            && KeptTurns(KindsOf(lines[..i + 1])) ==
               KeptTurns(KindsOf(lines[..i])) + (if kind.TurnLine? then [kind.turn] else [])
            && CountedLines(KindsOf(lines[..i + 1])) ==
               CountedLines(KindsOf(lines[..i])) + (if kind.TurnLine? || kind.Malformed? then 1 else 0)
  {
    KindsInit(lines, i);
    KeptConcat(KindsOf(lines[..i]), [Classify(lines[i])]);
    KeptOne(Classify(lines[i]));
    assert [Classify(lines[i])][1..] == [];
  }

  /** The turns of the numbered lines past a boundary line. */
  function Past(numbered: seq<(nat, Turn)>, boundary: Option<nat>): seq<Turn> {
    if numbered == [] then []
    else
      var last := numbered[|numbered| - 1];
      Past(numbered[..|numbered| - 1], boundary)
      + (if boundary.None? || last.0 > boundary.value then [last.1] else [])
  }

  /** Every line number is below a bound. */
  predicate Below(numbered: seq<(nat, Turn)>, n: nat) {
    forall i :: 0 <= i < |numbered| ==> numbered[i].0 < n
  }

  lemma PastNothing()
    ensures Past([], None) == [] && SinceBoundary(KindsOf([])) == [] && Below([], 0)
  {
  }

  lemma PastTurn(numbered: seq<(nat, Turn)>, boundary: Option<nat>, n: nat, t: Turn)
    requires Below(numbered, n) && (boundary.Some? ==> boundary.value < n)
    ensures Past(numbered + [(n, t)], boundary) == Past(numbered, boundary) + [t]
    ensures Below(numbered + [(n, t)], n + 1)
  {
    assert (numbered + [(n, t)])[..|numbered|] == numbered;
  }

  lemma {:induction false} PastBoundary(numbered: seq<(nat, Turn)>, n: nat)
    requires Below(numbered, n)
    ensures Past(numbered, Some(n)) == []
  {
    if numbered != [] {
      assert Below(numbered[..|numbered| - 1], n);
      PastBoundary(numbered[..|numbered| - 1], n);
    }
  }

  lemma BelowNext(numbered: seq<(nat, Turn)>, n: nat)
    requires Below(numbered, n)
    ensures Below(numbered, n + 1)
  {
  }

  function ReadTurn(trimmed: string): Option<Turn> {
    match ParseDocument(trimmed) case None => None case Some(ms) => DecodeTurn(ms)
  }

  lemma ClassifyCases(line: string)
    ensures var trimmed, kind := Trim(line), Classify(line);
            if trimmed == "" then kind == Blank
            else if Contains(trimmed, TYPE_TAG) then kind == Metadata(Contains(trimmed, BOUNDARY_TAG))
            else if ReadTurn(trimmed).Some? then kind == TurnLine(ReadTurn(trimmed).value)
            else kind == Malformed
  {
    hide Trim, Contains, ParseDocument, DecodeTurn;
  }

  class SessionStore {
    var files: map<string, string>

    /** A session's text; a session without a file reads as an empty one. */
    function Text(id: string): string
      reads this
    {
      if FileName(id) in files then files[FileName(id)] else ""
    }

    constructor ()
      ensures files == map[]
    {
      files := map[];
    }

    method Load(id: string) returns (r: Result<seq<Turn>, StoreError>)
      ensures r == if ValidSessionId(id) then Ok(TurnsIn(Text(id))) else Err(InvalidSessionId(id))
    {
      if !ValidSessionId(id) {
        return Err(InvalidSessionId(id));
      }
      if FileName(id) !in files {
        EmptyFileIsEmpty();
        return Ok([]);
      }
      var lines := Lines(files[FileName(id)]);
      var turns: seq<Turn> := [];
      for i := 0 to |lines|
        invariant turns == KeptTurns(KindsOf(lines[..i]))
      {
        hide KindsOf, KeptTurns, CountedLines, Contains, ReadTurn, Classify, Trim;
        KeptInit(lines, i);
        ClassifyCases(lines[i]);
        var trimmed := Trim(lines[i]);
        if trimmed == "" || Contains(trimmed, TYPE_TAG) {
          continue;
        }
        var turn := ReadTurn(trimmed);
        if turn.Some? {
          turns := turns + [turn.value];
        }
      }
      assert lines[..|lines|] == lines;
      r := Ok(turns);
    }

    /** `None` when the file cannot be opened. */
    method CountLines(id: string) returns (r: Option<nat>)
      ensures r == if FileName(id) in files then Some(TurnCount(Text(id))) else None
    {
      if FileName(id) !in files {
        return None;
      }
      var lines := Lines(files[FileName(id)]);
      var count := 0;
      for i := 0 to |lines|
        invariant count == CountedLines(KindsOf(lines[..i]))
      {
        hide KindsOf, KeptTurns, CountedLines, Contains, ReadTurn, Classify, Trim;
        KeptInit(lines, i);
        ClassifyCases(lines[i]);
        var trimmed := Trim(lines[i]);
        if trimmed != "" && !Contains(trimmed, TYPE_TAG) {
          count := count + 1;
        }
      }
      assert lines[..|lines|] == lines;
      r := Some(count);
    }

    method LoadAfterBoundary(id: string) returns (r: Result<seq<Turn>, StoreError>)
      ensures r == if ValidSessionId(id) then Ok(SinceBoundary(Kinds(Text(id)))) else Err(InvalidSessionId(id))
    {
      hide Past, Below, Contains, ReadTurn, Trim, Classify, Lines, FileName, ValidSessionId;
      EmptyFileIsEmpty();
      PastNothing();
      if !ValidSessionId(id) {
        return Err(InvalidSessionId(id));
      }
      if FileName(id) !in files {
        assert Lines("") == [] by { EmptyFileIsEmpty(); }
        return Ok([]);
      }
      var lines := Lines(files[FileName(id)]);
      var allTurns: seq<(nat, Turn)> := [];
      var boundary: Option<nat> := None;
      var lineIndex := 0;
      for i := 0 to |lines|
        invariant boundary.Some? ==> boundary.value < lineIndex
        invariant Below(allTurns, lineIndex)
        invariant Past(allTurns, boundary) == SinceBoundary(KindsOf(lines[..i]))
      {
        hide KindsOf, SinceBoundary;
        KindsInit(lines, i);
        SinceBoundarySnoc(KindsOf(lines[..i]), Classify(lines[i]));
        ClassifyCases(lines[i]);
        var trimmed := Trim(lines[i]);
        if trimmed == "" {
          continue;
        }
        if Contains(trimmed, TYPE_TAG) {
          if Contains(trimmed, BOUNDARY_TAG) {
            boundary := Some(lineIndex);
            PastBoundary(allTurns, lineIndex);
          }
          BelowNext(allTurns, lineIndex);
          lineIndex := lineIndex + 1;
          continue;
        }
        var turn := ReadTurn(trimmed);
        if turn.Some? {
          PastTurn(allTurns, boundary, lineIndex, turn.value);
          allTurns := allTurns + [(lineIndex, turn.value)];
        } else {
          BelowNext(allTurns, lineIndex);
        }
        lineIndex := lineIndex + 1;
      }
      assert lines[..|lines|] == lines;
      r := Ok(Past(allTurns, boundary));
    }

    /** Writes one line per item at the end of the session's file, creating it if needed. */
    method WriteLines(id: string, items: seq<Item>)
      modifies this
      ensures files == old(files)[FileName(id) := old(Text(id)) + Render(items)]
    {
      var text := Text(id);
      for i := 0 to |items|
        invariant text == old(Text(id)) + Render(items[..i]) && files == old(files)
      {
        hide Line, Render;
        RenderSnoc(items, i);
        Assoc(old(Text(id)), Render(items[..i]), Line(items[i]) + "\n");
        text := text + (Line(items[i]) + "\n");
      }
      assert items[..|items|] == items;
      files := files[FileName(id) := text];
    }

    /** Appending nothing succeeds even for an invalid id. */
    method Append(id: string, turns: seq<Turn>) returns (r: Result<(), StoreError>)
      modifies this
      ensures r == if turns == [] || ValidSessionId(id) then Ok(()) else Err(InvalidSessionId(id))
      ensures files == if turns != [] && ValidSessionId(id)
                       then old(files)[FileName(id) := old(Text(id)) + Render(TurnItems(turns))] else old(files)
      ensures forall other ::
                Text(other) == if other == id && turns != [] && ValidSessionId(id)
                               then old(Text(id)) + Render(TurnItems(turns)) else old(Text(other))
    {
      hide Render, ValidSessionId;
      forall other { FileNamesDistinct(other, id); }
      if turns == [] {
        return Ok(());
      }
      if !ValidSessionId(id) {
        return Err(InvalidSessionId(id));
      }
      WriteLines(id, TurnItems(turns));
      r := Ok(());
    }

    method AppendEntries(id: string, entries: seq<Entry>) returns (r: Result<(), StoreError>)
      modifies this
      ensures r == if entries == [] || ValidSessionId(id) then Ok(()) else Err(InvalidSessionId(id))
      ensures files == if entries != [] && ValidSessionId(id)
                       then old(files)[FileName(id) := old(Text(id)) + Render(EntryItems(entries))] else old(files)
      ensures forall other ::
                Text(other) == if other == id && entries != [] && ValidSessionId(id)
                               then old(Text(id)) + Render(EntryItems(entries)) else old(Text(other))
    {
      hide Render, ValidSessionId;
      forall other { FileNamesDistinct(other, id); }
      if entries == [] {
        return Ok(());
      }
      if !ValidSessionId(id) {
        return Err(InvalidSessionId(id));
      }
      WriteLines(id, EntryItems(entries));
      r := Ok(());
    }

    method Clear(id: string) returns (r: Result<(), StoreError>)
      modifies this
      ensures r == if ValidSessionId(id) then Ok(()) else Err(InvalidSessionId(id))
      ensures files == if ValidSessionId(id) then old(files) - {FileName(id)} else old(files)
      ensures forall other ::
                Text(other) == if other == id && ValidSessionId(id) then "" else old(Text(other))
    {
      hide ValidSessionId;
      forall other { FileNamesDistinct(other, id); }
      if !ValidSessionId(id) {
        return Err(InvalidSessionId(id));
      }
      files := files - {FileName(id)};
      r := Ok(());
    }

    /**
     Replaces a session's file by way of a temporary sibling and a rename. The process may die on
     the way: it survives for `lifetime` steps, a step being the creation of the temporary file,
     the writing of one character, or the rename. Whenever it dies, every session reads either
     its old text or, for the rewritten session once the rename is done, the whole new one.
     */
    method RewriteHistory(id: string, history: seq<Turn>, lifetime: nat) returns (done: bool)
      modifies this
      ensures done <==> lifetime >= |Render(TurnItems(history))| + 2
      ensures forall other ::
                Text(other) == if done && other == id then Render(TurnItems(history)) else old(Text(other))
      ensures forall name :: name in files && name != FileName(id) && name != TempName(id) ==>
                             name in old(files) && files[name] == old(files)[name]
      ensures done ==> TempName(id) !in files
    {
      hide Line, Render, Contains;
      var items := TurnItems(history);
      var left: nat := lifetime;
      RenderedSoFar(items);
      forall other {
        FileNamesDistinct(other, id);
      }
      if left == 0 {
        return false;
      }
      files := files[TempName(id) := ""];
      left := left - 1;
      for i := 0 to |items|
        invariant files == old(files)[TempName(id) := Render(items[..i])]
        invariant left + 1 + |Render(items[..i])| == lifetime
      {
        RenderSnoc(items, i);
        RenderGrows(items, i + 1);
        var line := Line(items[i]) + "\n";
        if left < |line| {
          files := files[TempName(id) := files[TempName(id)] + line[..left]];
          return false;
        }
        files := files[TempName(id) := files[TempName(id)] + line];
        left := left - |line|;
      }
      if left == 0 {
        return false;
      }
      files := (files - {TempName(id)})[FileName(id) := files[TempName(id)]];
      done := true;
    }
  }

  lemma RenderedSoFar(items: seq<Item>)
    ensures Render(items[..0]) == "" && Render(items[..|items|]) == Render(items)
  {
    hide Line;
    assert items[..|items|] == items;
  }

  lemma RenderGrows(items: seq<Item>, n: nat)
    requires n <= |items|
    ensures |Render(items[..n])| <= |Render(items)|
  {
    hide Line, Render;
    RenderConcat(items[..n], items[n..]);
    assert items == items[..n] + items[n..];
  }

  /**
   Any run of `append` and `append_entries` calls on a session that ends cleanly: `load` then
   returns what it returned before plus exactly the appended turns in order, and the line count
   grows by their number.
   */
  method RunWrites(store: SessionStore, id: string, writes: seq<Write>)
    requires ValidSessionId(id) && EndsCleanly(store.Text(id))
    modifies store
    ensures store.Text(id) == old(store.Text(id)) + Render(Written(writes))
    ensures TurnsIn(store.Text(id)) == old(TurnsIn(store.Text(id))) + AppendedTurns(writes)
    ensures TurnCount(store.Text(id)) == old(TurnCount(store.Text(id))) + |AppendedTurns(writes)|
    ensures EndsCleanly(store.Text(id))
    ensures forall other :: other != id ==> store.Text(other) == old(store.Text(other))
  {
    hide Line, Render, Written, AppendedTurns, TurnsIn, TurnCount, Lines, Contains;
    WrittenNothing();
    ghost var before := store.Text(id);
    for i := 0 to |writes|
      invariant store.Text(id) == before + Render(Written(writes[..i]))
      invariant forall other :: other != id ==> store.Text(other) == old(store.Text(other))
    {
      var r: Result<(), StoreError>;
      WrittenSnoc(writes, i);
      RenderConcat(Written(writes[..i]), ItemsOf(writes[i]));
      Assoc(before, Render(Written(writes[..i])), Render(ItemsOf(writes[i])));
      match writes[i]
      case AppendTurns(turns) => r := store.Append(id, turns);
      case AppendEntries(entries) => r := store.AppendEntries(id, entries);
    }
    assert writes[..|writes|] == writes;
    AppendedTurnsAreRead(before, Written(writes));
    TurnsWritten(writes);
  }

  lemma WrittenNothing()
    ensures Written([]) == [] && Render([]) == ""
    ensures TurnItems([]) == [] && EntryItems([]) == []
  {
  }

  lemma WrittenSnoc(writes: seq<Write>, n: nat)
    requires n < |writes|
    ensures Written(writes[..n + 1]) == Written(writes[..n]) + ItemsOf(writes[n])
  {
    assert writes[..n + 1][..n] == writes[..n];
  }
}
