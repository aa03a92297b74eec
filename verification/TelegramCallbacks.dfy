/** The callback data of the bot's session buttons: how an action is written on a button and read back. */
module TelegramCallbacks {
  import opened Prelude
  import opened Json

  datatype Action =
    | SelectSession(sessionId: string, page: nat)
    | ShowPage(page: nat)
    | DeleteConfirm(sessionId: string)
    | DeleteCancel

  datatype CallbackError = InvalidCallbackData | UnsupportedCallbackAction

  function Encode(a: Action): string {
    match a
    case SelectSession(id, page) => "sc" + (":" + ("s" + (":" + (Decimal(page) + (":" + id)))))
    case ShowPage(page) => "sc" + (":" + ("p" + (":" + Decimal(page))))
    case DeleteConfirm(id) => "sc" + (":" + ("d" + (":" + id)))
    case DeleteCancel => "sc" + (":" + "c")
  }

  /** Length of the part before the first colon. */
  function PartLength(s: string): (n: nat)
    ensures n <= |s| && ':' !in s[..n] && (n < |s| ==> s[n] == ':')
  {
    if s == "" || s[0] == ':' then 0
    else
      var n := PartLength(s[1..]);
      assert s[..1 + n] == [s[0]] + s[1..][..n];
      1 + n
  }

  /** `str::splitn` at colons: at most `n` parts, the last one keeping its colons. */
  function SplitN(s: string, n: nat): (parts: seq<string>)
    requires n > 0
    ensures 0 < |parts| <= n
  {
    if n == 1 || PartLength(s) == |s| then [s] else [s[..PartLength(s)]] + SplitN(s[PartLength(s) + 1..], n - 1)
  }

  /** `str::parse::<usize>`: an optional plus sign and digits, within 64 bits. */
  function ParsePage(s: string): Option<nat> {
    var digits := if "+" <= s then s[1..] else s;
    if digits == "" || DigitRun(digits) < |digits| || DigitsValue(digits) >= U64_LIMIT then None
    else Some(DigitsValue(digits))
  }

  /** `parse_session_callback_data`. */
  function Decode(data: string): Result<Action, CallbackError> {
    var parts := SplitN(data, 4);
    if parts[0] != "sc" || |parts| == 1 then Err(InvalidCallbackData)
    else if parts[1] == "s" then
      var page := if |parts| > 2 then ParsePage(parts[2]) else None;
      if page.None? || |parts| < 4 || Trim(parts[3]) == "" then Err(InvalidCallbackData)
      else Ok(SelectSession(parts[3], page.value))
    else if parts[1] == "p" then
      var page := if |parts| > 2 then ParsePage(parts[2]) else None;
      if page.None? then Err(InvalidCallbackData) else Ok(ShowPage(page.value))
    else if parts[1] == "d" then
      if |parts| < 3 || Trim(parts[2]) == "" then Err(InvalidCallbackData) else Ok(DeleteConfirm(parts[2]))
    else if parts[1] == "c" then Ok(DeleteCancel)
    else Err(UnsupportedCallbackAction)
  }

  lemma {:induction false} PartLengthOf(part: string, rest: string)
    requires ':' !in part
    ensures PartLength(part + (":" + rest)) == |part| && PartLength(part) == |part|
  {
    if part == "" {
      assert part + (":" + rest) == ":" + rest;
    } else {
      ConcatTail(part, ":" + rest);
      PartLengthOf(part[1..], rest);
    }
  }

  lemma {:induction false} SplitPart(part: string, rest: string, n: nat)
    requires ':' !in part && n > 1
    ensures SplitN(part + (":" + rest), n) == [part] + SplitN(rest, n - 1)
  {
    PartLengthOf(part, rest);
    var s := part + (":" + rest);
    assert s[..|part|] == part && s[|part| + 1..] == rest;
  }

  lemma {:induction false} SplitLast(part: string, n: nat)
    requires n > 0
    ensures ':' !in part ==> SplitN(part, n) == [part]
    ensures ':' in part && n > 1 ==> SplitN(part, n)[0] != part
  {
    assert part[..|part|] == part;
    if ':' !in part {
      PartLengthOf(part, "");
    }
  }

  lemma SplitRest(s: string)
    ensures SplitN(s, 1) == [s]
  {
  }

  lemma {:induction false} Four(a: string, b: string, c: string, d: string)
    ensures [a] + ([b] + ([c] + [d])) == [a, b, c, d] && [a] + ([b] + [c]) == [a, b, c] && [a] + [b] == [a, b]
  {
  }

  lemma PageRoundTrip(page: nat)
    ensures ':' !in Decimal(page)
    ensures ParsePage(Decimal(page)) == if page < U64_LIMIT then Some(page) else None
  {
    var digits := Decimal(page);
    DecimalIsDigits(page);
    DigitRunStops(digits, "");
    assert digits + "" == digits && IsDigit(digits[0]);
  }

  /**
   The actions that survive the way through a button: an id must not be blank, nor hold a colon where none is
   expected.
   */
  predicate Carried(a: Action) {
    match a
    case SelectSession(id, page) => page < U64_LIMIT && Trim(id) != ""
    case ShowPage(page) => page < U64_LIMIT
    case DeleteConfirm(id) => ':' !in id && Trim(id) != ""
    case DeleteCancel => true
  }

  lemma SelectParts(id: string, page: nat)
    ensures SplitN(Encode(SelectSession(id, page)), 4) == ["sc", "s", Decimal(page), id]
  {
    hide SplitN, Decimal, ParsePage;
    PageRoundTrip(page);
    SplitPart("sc", "s" + (":" + (Decimal(page) + (":" + id))), 4);
    SplitPart("s", Decimal(page) + (":" + id), 3);
    SplitPart(Decimal(page), id, 2);
    SplitRest(id);
    Four("sc", "s", Decimal(page), id);
  }

  lemma PageParts(page: nat)
    ensures SplitN(Encode(ShowPage(page)), 4) == ["sc", "p", Decimal(page)]
  {
    hide SplitN, Decimal, ParsePage;
    PageRoundTrip(page);
    SplitPart("sc", "p" + (":" + Decimal(page)), 4);
    SplitPart("p", Decimal(page), 3);
    SplitLast(Decimal(page), 2);
    Four("sc", "p", Decimal(page), "");
  }

  lemma DeleteParts(id: string)
    ensures SplitN(Encode(DeleteConfirm(id)), 4) == ["sc", "d"] + SplitN(id, 2)
    ensures SplitN(Encode(DeleteCancel), 4) == ["sc", "c"]
  {
    hide SplitN;
    SplitPart("sc", "d" + (":" + id), 4);
    SplitPart("d", id, 3);
    SplitPart("sc", "c", 4);
    SplitLast("c", 3);
    assert ["sc"] + (["d"] + SplitN(id, 2)) == ["sc", "d"] + SplitN(id, 2);
  }

  /**
   Writing and reading callback data, as functions of any id: what is read back is what was written exactly for
   the actions that are carried.
   */
  lemma ButtonMeansItsAction(a: Action)
    ensures Decode(Encode(a)) == Ok(a) <==> Carried(a)
  {
    hide Encode, SplitN, ParsePage, Trim;
    match a
    case SelectSession(id, page) =>
      SelectParts(id, page);
      PageRoundTrip(page);
    case ShowPage(page) =>
      PageParts(page);
      PageRoundTrip(page);
    case DeleteConfirm(id) =>
      DeleteParts(id);
      SplitLast(id, 2);
    case DeleteCancel => DeleteParts("");
  }

  /** The ids the session store makes: a time in milliseconds and a counter. */
  function GeneratedId(millis: string, counter: string): string {
    "session-" + (millis + ("-" + counter))
  }

  lemma {:induction false} TrimEndKeepsStart(s: string)
    requires s != "" && !IsWhitespace(s[0])
    ensures TrimEnd(s) != ""
    decreases |s|
  {
    if IsWhitespace(s[|s| - 1]) {
      TrimEndKeepsStart(s[..|s| - 1]);
    }
  }

  /** So for every session the store names itself, all buttons mean what is written on them. */
  lemma GeneratedIdsAreCarried(millis: string, counter: string, page: nat)
    requires forall c :: c in millis || c in counter ==> IsDigit(c)
    ensures var id := GeneratedId(millis, counter);
            && Decode(Encode(DeleteConfirm(id))) == Ok(DeleteConfirm(id))
            && (page < U64_LIMIT ==> Decode(Encode(SelectSession(id, page))) == Ok(SelectSession(id, page)))
  {
    hide Encode, Decode, SplitN;
    var id := GeneratedId(millis, counter);
    assert id[0] == 's';
    assert ':' !in "session-" && ':' !in millis && ':' !in "-" + counter;
    TrimEndKeepsStart(id);
    ButtonMeansItsAction(DeleteConfirm(id));
    ButtonMeansItsAction(SelectSession(id, page));
  }

  /** An id with a colon, which only another caller of these functions could bring, is cut: `a:b` is read as `a`. */
  lemma DeleteReadsPrefix()
    ensures Decode(Encode(DeleteConfirm("a:b"))) == Ok(DeleteConfirm("a"))
  {
    hide Encode, SplitN, Trim;
    DeleteParts("a:b");
    assert "a:b" == "a" + (":" + "b");
    SplitPart("a", "b", 2);
    SplitRest("b");
    assert Trim("a") == "a" by { LetterIsTrimmed(); }
  }

  lemma LetterIsTrimmed()
    ensures Trim("a") == "a"
  {
    assert !IsWhitespace('a');
  }
}
