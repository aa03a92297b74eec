/** What the Telegram bot shows: texts cut to the message limit, and the pages of the session list. */
module Telegram {
  import opened Prelude
  import opened Json
  import opened TelegramCallbacks

  // ---------- lengths ----------

  /** UTF-16 length of a code point: two units outside the Basic Multilingual Plane. */
  function Units(c: char): nat {
    if c as int < 0x1_0000 then 1 else 2
  }

  function UnitLength(text: string): nat {
    if text == "" then 0 else UnitLength(text[..|text| - 1]) + Units(text[|text| - 1])
  }

  lemma {:induction false} LengthsConcat(a: string, b: string)
    ensures ByteLength(a + b) == ByteLength(a) + ByteLength(b)
    ensures UnitLength(a + b) == UnitLength(a) + UnitLength(b)
    decreases |b|
  {
    if b == "" {
      assert a + b == a;
    } else {
      LengthsConcat(a, b[..|b| - 1]);
      assert (a + b)[..|a + b| - 1] == a + b[..|b| - 1];
    }
  }

  /** Characters never outnumber UTF-16 units, nor units bytes. */
  lemma {:induction false} LengthsOrdered(text: string)
    ensures |text| <= UnitLength(text) <= ByteLength(text)
  {
    if text != "" {
      LengthsOrdered(text[..|text| - 1]);
    }
  }

  // ---------- truncation ----------

  const MAX := 4096
  const ELLIPSIS := "..."

  /**
   Characters in the shortest prefix of at least `n` bytes, as `str::ceil_char_boundary`; the whole text if
   there is none.
   */
  function CeilBoundary(text: string, n: nat): (k: nat)
    ensures k <= |text|
    decreases |text|
  {
    if text == "" || ByteLength(text[..|text| - 1]) < n then |text| else CeilBoundary(text[..|text| - 1], n)
  }

  lemma {:induction false} BoundaryIsLeast(text: string, n: nat)
    requires n <= ByteLength(text)
    ensures var k := CeilBoundary(text, n);
            ByteLength(text[..k]) >= n && (k > 0 ==> ByteLength(text[..k - 1]) < n)
    decreases |text|
  {
    if text != "" {
      var front := text[..|text| - 1];
      if ByteLength(front) >= n {
        BoundaryIsLeast(front, n);
        var k := CeilBoundary(front, n);
        assert front[..k] == text[..k];
        if k > 0 {
          assert front[..k - 1] == text[..k - 1];
        }
      } else {
        assert text[..|text|] == text;
      }
    }
  }

  /** `truncate_for_telegram`. */
  function Truncate(text: string): string {
    if ByteLength(text) <= MAX then text else text[..CeilBoundary(text, MAX - 4)] + ELLIPSIS
  }

  lemma EllipsisLengths()
    ensures |ELLIPSIS| == 3 && ByteLength(ELLIPSIS) == 3 && UnitLength(ELLIPSIS) == 3
  {
    assert ELLIPSIS == "." + ("." + ".");
    LengthsConcat(".", "." + ".");
    LengthsConcat(".", ".");
    assert "."[..0] == "";
  }

  /** The cut of a text that is too long: a prefix of 4092 to 4095 bytes, no shorter one reaching 4092. */
  lemma Cut(text: string)
    requires ByteLength(text) > MAX
    ensures var k := CeilBoundary(text, MAX - 4);
            0 < k <= |text| && ByteLength(text[..k - 1]) < MAX - 4 <= ByteLength(text[..k]) < MAX
            && UnitLength(text[..k]) <= MAX - 3
  {
    hide Bytes, Units, CeilBoundary;
    BoundaryIsLeast(text, MAX - 4);
    var k := CeilBoundary(text, MAX - 4);
    LastCharacter(text, k);
    LengthsOrdered(text[..k - 1]);
  }

  lemma LastCharacter(text: string, k: nat)
    requires k <= |text|
    ensures k == 0 ==> ByteLength(text[..k]) == 0
    ensures k > 0 ==> ByteLength(text[..k]) <= ByteLength(text[..k - 1]) + 4
    ensures k > 0 ==> UnitLength(text[..k]) <= UnitLength(text[..k - 1]) + 2
  {
    if k > 0 {
      assert text[..k][..k - 1] == text[..k - 1];
    }
  }

  /**
   Any text comes out whole, or as a prefix of it and an ellipsis; never over 4096 characters nor 4096
   UTF-16 units, though it may be up to 4098 bytes.
   */
  lemma TruncationFits(text: string)
    ensures |Truncate(text)| <= MAX && UnitLength(Truncate(text)) <= MAX && ByteLength(Truncate(text)) <= MAX + 2
    ensures Truncate(text) == text || exists k :: 0 <= k <= |text| && Truncate(text) == text[..k] + ELLIPSIS
    ensures ByteLength(text) <= MAX ==> Truncate(text) == text
  {
    hide CeilBoundary, Bytes, Units, ELLIPSIS;
    LengthsOrdered(text);
    LengthsOrdered(Truncate(text));
    if ByteLength(text) > MAX {
      var k := CeilBoundary(text, MAX - 4);
      Cut(text);
      EllipsisLengths();
      LengthsConcat(text[..k], ELLIPSIS);
    }
  }

  /**
   The byte limit is exceeded exactly when a character straddles it: one that starts before byte 4092 and ends
   after 4093.
   */
  lemma OverlongExactly(text: string)
    ensures ByteLength(Truncate(text)) > MAX <==>
            ByteLength(text) > MAX
            && exists k :: 0 < k <= |text| && ByteLength(text[..k - 1]) < MAX - 4 && ByteLength(text[..k]) > MAX - 3
  {
    hide CeilBoundary, Bytes, Units, ELLIPSIS;
    if ByteLength(text) > MAX {
      var c := CeilBoundary(text, MAX - 4);
      Cut(text);
      EllipsisLengths();
      LengthsConcat(text[..c], ELLIPSIS);
      forall k | 0 < k <= |text| && ByteLength(text[..k - 1]) < MAX - 4 && ByteLength(text[..k]) > MAX - 3
        ensures k == c
      {
        SameCut(text, k, c);
      }
    }
  }

  lemma PrefixLength(text: string, a: nat, b: nat)
    requires a <= b <= |text|
    ensures ByteLength(text[..a]) <= ByteLength(text[..b])
  {
    LengthsConcat(text[..a], text[a..b]);
    assert text[..a] + text[a..b] == text[..b];
  }

  /** At most one prefix reaches 4092 bytes while the next shorter one does not. */
  lemma SameCut(text: string, k: nat, c: nat)
    requires 0 < k <= |text| && 0 < c <= |text|
    requires ByteLength(text[..k - 1]) < MAX - 4 <= ByteLength(text[..k])
    requires ByteLength(text[..c - 1]) < MAX - 4 <= ByteLength(text[..c])
    ensures k == c
  {
    hide ByteLength;
    if k < c {
      PrefixLength(text, k, c - 1);
    } else if c < k {
      PrefixLength(text, c, k - 1);
    }
  }

  function Letters(n: nat): string {
    if n == 0 then "" else Letters(n - 1) + "a"
  }

  lemma {:induction false} LettersLength(n: nat)
    ensures |Letters(n)| == n && ByteLength(Letters(n)) == n
  {
    if n > 0 {
      LettersLength(n - 1);
      assert Letters(n)[..n - 1] == Letters(n - 1);
    }
  }

  /** The two bytes to spare are needed: 4091 letters, a four-byte character and more text come out at 4098 bytes. */
  lemma TruncationReaches4098()
    ensures ByteLength(Truncate(Letters(4091) + "\U{1F600}" + Letters(5))) == MAX + 2
  {
    hide CeilBoundary, ELLIPSIS, Letters;
    var head := Letters(4091) + "\U{1F600}";
    var text := head + Letters(5);
    LettersLength(4091);
    LettersLength(5);
    LengthsConcat(head, Letters(5));
    assert text[..4092] == head && text[..4091] == Letters(4091) && head[..4091] == Letters(4091);
    Cut(text);
    SameCut(text, 4092, CeilBoundary(text, MAX - 4));
    EllipsisLengths();
    LengthsConcat(head, ELLIPSIS);
  }

  /** Truncating again changes nothing, even for a result that is over the byte limit. */
  lemma TruncationIsIdempotent(text: string)
    ensures Truncate(Truncate(text)) == Truncate(text)
  {
    hide CeilBoundary, Bytes, Units, ELLIPSIS;
    var once := Truncate(text);
    if ByteLength(text) > MAX && ByteLength(once) > MAX {
      var k, c := CeilBoundary(text, MAX - 4), CeilBoundary(once, MAX - 4);
      Cut(text);
      Cut(once);
      assert once[..k] == text[..k] && once[..k - 1] == text[..k - 1];
      SameCut(once, k, c);
    }
  }

  // ---------- the pages of the session list ----------

  datatype PageState = PageState(page: nat, start: nat, end: nat, totalPages: nat)

  /** A slice holds at most `isize::MAX` elements. */
  const MAX_LENGTH := 0x7FFF_FFFF_FFFF_FFFF
  const USIZE_LIMIT := 0x1_0000_0000_0000_0000

  function DivCeil(a: nat, b: nat): nat
    requires b > 0
  {
    if a % b == 0 then a / b else a / b + 1
  }

  function Min(a: nat, b: nat): nat {
    if a < b then a else b
  }

  /** `paginate_sessions`, of a list of the given length. */
  function Paginate(length: nat, requested: nat, pageSize: nat): PageState {
    if length == 0 || pageSize == 0 then PageState(0, 0, 0, 1)
    else
      var total := DivCeil(length, pageSize);
      var page := Min(requested, total - 1);
      var start := page * pageSize;
      PageState(page, start, Min(start + pageSize, length), total)
  }

  lemma PageCount(length: nat, pageSize: nat)
    requires length > 0 && pageSize > 0
    ensures var n := DivCeil(length, pageSize);
            n > 0 && (n - 1) * pageSize < length <= n * pageSize
  {
    var q, r := length / pageSize, length % pageSize;
    assert length == q * pageSize + r;
    assert (q + 1) * pageSize == q * pageSize + pageSize;
    if r == 0 {
      assert q > 0;
      assert (q - 1) * pageSize == q * pageSize - pageSize;
    }
  }

  lemma Times(a: nat, b: nat, c: nat)
    requires a <= b
    ensures a * c <= b * c
  {
  }

  /** Any requested page lands on one that exists and is not empty, without overflow. */
  lemma PageInRange(length: nat, requested: nat, pageSize: nat)
    requires 0 < length <= MAX_LENGTH && 0 < pageSize < USIZE_LIMIT
    ensures var p := Paginate(length, requested, pageSize);
            && p.page < p.totalPages && p.start < p.end <= length && p.end - p.start <= pageSize
            && (requested < p.totalPages ==> p.page == requested)
            && p.start + pageSize < USIZE_LIMIT
  {
    var p := Paginate(length, requested, pageSize);
    PageCount(length, pageSize);
    Times(p.page, p.totalPages - 1, pageSize);
    if p.page > 0 {
      Times(1, p.page, pageSize);
    }
  }

  /** The first `n` pages of a list, one after another. */
  function Pages<T>(list: seq<T>, pageSize: nat, n: nat): seq<T>
    requires list != [] && 0 < pageSize && n <= DivCeil(|list|, pageSize)
  {
    if n == 0 then []
    else
      var p := Paginate(|list|, n - 1, pageSize);
      assert p.start <= p.end by {
        PageCount(|list|, pageSize);
        Times(n - 1, DivCeil(|list|, pageSize) - 1, pageSize);
      }
      Pages(list, pageSize, n - 1) + list[p.start..p.end]
  }

  /** The pages put the list back together, each starting where the one before ends. */
  lemma {:induction false} PagesPartition<T>(list: seq<T>, pageSize: nat, n: nat)
    requires list != [] && 0 < pageSize && n <= DivCeil(|list|, pageSize)
    ensures Pages(list, pageSize, n) == list[..Min(n * pageSize, |list|)]
    ensures n == DivCeil(|list|, pageSize) ==> Pages(list, pageSize, n) == list
  {
    PageCount(|list|, pageSize);
    if n > 0 {
      PagesPartition(list, pageSize, n - 1);
      Times(n - 1, DivCeil(|list|, pageSize) - 1, pageSize);
      assert (n - 1) * pageSize + pageSize == n * pageSize;
      var start, end := (n - 1) * pageSize, Min(n * pageSize, |list|);
      assert list[..start] + list[start..end] == list[..end];
    }
    assert list[..|list|] == list;
  }

  // ---------- the keyboard ----------

  /** A button shows a text and carries the data its press sends back. */
  datatype Button = Button(text: string, data: string)

  datatype SessionSummary = SessionSummary(sessionId: string, name: string)

  function Label(s: SessionSummary, active: Option<string>): string {
    (if active == Some(s.sessionId) then "✅ " else "") + s.name
  }

  function SessionRows(sessions: seq<SessionSummary>, active: Option<string>, page: nat): seq<seq<Button>> {
    if sessions == [] then []
    else
      var last := sessions[|sessions| - 1];
      SessionRows(sessions[..|sessions| - 1], active, page)
          + [[Button(Label(last, active), Encode(SelectSession(last.sessionId, page)))]]
  }

  function Pager(p: PageState): seq<Button> {
    (if p.page > 0 then [Button("Prev", Encode(ShowPage(p.page - 1)))] else [])
    + (if p.page + 1 < p.totalPages then [Button("Next", Encode(ShowPage(p.page + 1)))] else [])
  }

  /** `build_sessions_markup`. */
  method BuildSessionsMarkup(sessions: seq<SessionSummary>, active: Option<string>, requested: nat, pageSize: nat)
    returns (keyboard: Option<seq<seq<Button>>>)
    ensures keyboard.None? <==> sessions == []
    ensures sessions != [] ==>
              var p := Paginate(|sessions|, requested, pageSize);
              && p.start <= p.end <= |sessions|
              && keyboard.value == SessionRows(sessions[p.start..p.end], active, p.page)
                                   + (if Pager(p) == [] then [] else [Pager(p)])
  {
    if sessions == [] {
      return None;
    }
    var p := Paginate(|sessions|, requested, pageSize);
    if pageSize > 0 {
      PageCount(|sessions|, pageSize);
      Times(p.page, p.totalPages - 1, pageSize);
    }
    var shown := sessions[p.start..p.end];
    var rows: seq<seq<Button>> := [];
    for i := 0 to |shown|
      invariant rows == SessionRows(shown[..i], active, p.page)
    {
      assert shown[..i + 1][..i] == shown[..i];
      rows := rows + [[Button(Label(shown[i], active), Encode(SelectSession(shown[i].sessionId, p.page)))]];
    }
    assert shown[..|shown|] == shown;
    var pagerRow: seq<Button> := [];
    if p.page > 0 {
      pagerRow := pagerRow + [Button("Prev", Encode(ShowPage(p.page - 1)))];
    }
    if p.page + 1 < p.totalPages {
      pagerRow := pagerRow + [Button("Next", Encode(ShowPage(p.page + 1)))];
    }
    assert pagerRow == Pager(p) && rows + [] == rows;
    if pagerRow != [] {
      rows := rows + [pagerRow];
    }
    keyboard := Some(rows);
  }

  /** Pressing a pager button of one page asks for another. */
  predicate Leads(length: nat, pageSize: nat, from: nat, to: nat) {
    exists b :: b in Pager(Paginate(length, from, pageSize)) && Decode(b.data) == Ok(ShowPage(to))
  }

  /** A walk over the pages: each step presses a pager button of the page it stands on. */
  predicate Walk(length: nat, pageSize: nat, pages: seq<nat>) {
    forall i :: 0 <= i < |pages| - 1 ==> Leads(length, pageSize, pages[i], pages[i + 1])
  }

  function Distance(a: nat, b: nat): nat {
    if a < b then b - a else a - b
  }

  /** One page at a time from `a` to `b`. */
  function Toward(a: nat, b: nat): seq<nat>
    decreases Distance(a, b)
  {
    if a == b then [a] else [a] + Toward(if a < b then a + 1 else a - 1, b)
  }

  /** From any page the pager reaches any other, in as many presses as they are apart. */
  lemma {:induction false} EveryPageIsReached(length: nat, pageSize: nat, a: nat, b: nat)
    requires 0 < length <= MAX_LENGTH && pageSize > 0 && a < DivCeil(length, pageSize) && b < DivCeil(length, pageSize)
    ensures var walk := Toward(a, b);
            |walk| == 1 + Distance(a, b) && walk[0] == a && walk[|walk| - 1] == b && Walk(length, pageSize, walk)
    decreases Distance(a, b)
  {
    hide Leads, DivCeil;
    if a != b {
      var next := if a < b then a + 1 else a - 1;
      var rest := Toward(next, b);
      EveryPageIsReached(length, pageSize, next, b);
      PagerLeads(length, pageSize, a, next);
      forall i | 0 < i < |rest|
        ensures Leads(length, pageSize, ([a] + rest)[i], ([a] + rest)[i + 1])
      {
        assert Leads(length, pageSize, rest[i - 1], rest[i]);
      }
    }
  }

  lemma PagerLeads(length: nat, pageSize: nat, from: nat, to: nat)
    requires 0 < length <= MAX_LENGTH && pageSize > 0 && from < DivCeil(length, pageSize)
             && to < DivCeil(length, pageSize)
    requires to == from + 1 || to + 1 == from
    ensures Leads(length, pageSize, from, to)
  {
    hide DivCeil, Decode, Encode;
    PageCount(length, pageSize);
    Times(1, pageSize, DivCeil(length, pageSize) - 1);
    ButtonMeansItsAction(ShowPage(to));
    assert Button(if to > from then "Next" else "Prev",
                  Encode(ShowPage(to))) in Pager(Paginate(length, from, pageSize));
  }
}
