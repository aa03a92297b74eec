/**
 The part of JSON (RFC 8259) that the session log uses: the printer's string escaping and decimal
 numbers, and a parser for one flat object of strings, unsigned integers and nulls that takes its
 members in any order and with any insignificant whitespace.
 */
module Json {
  import opened Prelude

  const U64_LIMIT := 0x1_0000_0000_0000_0000

  type u64 = n: nat | n < U64_LIMIT

  datatype Json = JString(text: string) | JNat(number: u64) | JNull

  type Members = seq<(string, Json)>

  /** A parser either fails or yields a value and the text it did not consume. */
  datatype Parsed<+T> = Fail | Done(value: T, rest: string)

  // ---------- printing ----------

  const HEX: string := "0123456789abcdef"

  /** Escaping of one character: section 7 of RFC 8259, with the short forms where they exist. */
  function EscapeChar(c: char): string {
    var u := c as int;
    if c == '\"' then "\\\""
    else if c == '\\' then "\\\\"
    else if u == 8 then "\\b"
    else if u == 9 then "\\t"
    else if u == 10 then "\\n"
    else if u == 12 then "\\f"
    else if u == 13 then "\\r"
    else if u < 0x20 then "\\u00" + [HEX[u / 16], HEX[u % 16]]
    else [c]
  }

  function Escape(s: string): string {
    if s == "" then "" else EscapeChar(s[0]) + Escape(s[1..])
  }

  function Quote(s: string): string {
    "\"" + Escape(s) + "\""
  }

  function Digit(d: nat): char
    requires d < 10
  {
    HEX[d]
  }

  function Decimal(n: nat): string {
    if n < 10 then [Digit(n)] else Decimal(n / 10) + [Digit(n % 10)]
  }

  // ---------- parsing ----------

  predicate IsJsonSpace(c: char) {
    c == ' ' || c == '\t' || c == '\n' || c == '\r'
  }

  function SkipSpace(s: string): (r: string)
    ensures |r| <= |s|
  {
    if s != "" && IsJsonSpace(s[0]) then SkipSpace(s[1..]) else s
  }

  function HexValue(c: char): Option<nat> {
    if '0' <= c <= '9' then Some(c as int - '0' as int)
    else if 'a' <= c <= 'f' then Some(c as int - 'a' as int + 10)
    else if 'A' <= c <= 'F' then Some(c as int - 'A' as int + 10)
    else None
  }

  /** Four hexadecimal digits: one UTF-16 code unit. */
  function ParseHex4(s: string): (r: Parsed<nat>)
    ensures r.Done? ==> r.value < 0x10000 && |r.rest| + 4 == |s|
  {
    if |s| < 4 then Fail
    else
      match (HexValue(s[0]), HexValue(s[1]), HexValue(s[2]), HexValue(s[3]))
      case (Some(a), Some(b), Some(c), Some(d)) =>
        assert a < 16 && b < 16 && c < 16 && d < 16;
        Done(a * 4096 + b * 256 + c * 16 + d, s[4..])
      case _ => Fail
  }

  /** What follows `\u`: a scalar value, or a surrogate pair; a lone surrogate is an error. */
  function ParseUnicode(s: string): (r: Parsed<char>)
    ensures r.Done? ==> |r.rest| < |s|
  {
    match ParseHex4(s)
    case Fail => Fail
    case Done(unit, rest) =>
      if 0xDC00 <= unit <= 0xDFFF then Fail
      else if 0xD800 <= unit <= 0xDBFF then
        if |rest| < 2 || rest[0] != '\\' || rest[1] != 'u' then Fail
        else
          match ParseHex4(rest[2..])
          case Fail => Fail
          case Done(low, rest') =>
            if 0xDC00 <= low <= 0xDFFF
            then Done((0x10000 + (unit - 0xD800) * 1024 + (low - 0xDC00)) as char, rest')
            else Fail
      else Done(unit as char, rest)
  }

  /** What follows a backslash. */
  function ParseEscape(s: string): (r: Parsed<char>)
    ensures r.Done? ==> |r.rest| < |s|
  {
    if s == "" then Fail
    else
      match s[0]
      case '\"' => Done('\"', s[1..])
      case '\\' => Done('\\', s[1..])
      case '/' => Done('/', s[1..])
      case 'b' => Done(8 as char, s[1..])
      case 'f' => Done(12 as char, s[1..])
      case 'n' => Done('\n', s[1..])
      case 'r' => Done('\r', s[1..])
      case 't' => Done('\t', s[1..])
      case 'u' => ParseUnicode(s[1..])
      case _ => Fail
  }

  /** The characters of a string up to and including its closing quote. */
  function ParseChars(s: string): (r: Parsed<string>)
    ensures r.Done? ==> |r.rest| < |s|
    decreases |s|
  {
    if s == "" || s[0] as int < 0x20 then Fail
    else if s[0] == '\"' then Done("", s[1..])
    else
      match if s[0] == '\\' then ParseEscape(s[1..]) else Done(s[0], s[1..])
      case Fail => Fail
      case Done(c, rest) =>
        match ParseChars(rest)
        case Fail => Fail
        case Done(tail, rest') => Done([c] + tail, rest')
  }

  function ParseString(s: string): (r: Parsed<string>)
    ensures r.Done? ==> |r.rest| < |s|
  {
    if s == "" || s[0] != '\"' then Fail else ParseChars(s[1..])
  }

  predicate IsDigit(c: char) {
    '0' <= c <= '9'
  }

  /** How many leading characters are decimal digits. */
  function DigitRun(s: string): (n: nat)
    ensures n <= |s| && forall i :: 0 <= i < n ==> IsDigit(s[i])
  {
    if s == "" || !IsDigit(s[0]) then 0
    else
      var n := 1 + DigitRun(s[1..]);
      assert forall i :: 1 <= i < n ==> s[i] == s[1..][i - 1];
      n
  }

  function DigitsValue(s: string): nat
    requires forall i :: 0 <= i < |s| ==> IsDigit(s[i])
  {
    if s == "" then 0
    else
      assert IsDigit(s[|s| - 1]);
      DigitsValue(s[..|s| - 1]) * 10 + (s[|s| - 1] as int - '0' as int)
  }

  /** An unsigned integer: no leading zero, and within 64 bits. */
  function ParseNat(s: string): (r: Parsed<u64>)
    ensures r.Done? ==> |r.rest| < |s|
  {
    var n := DigitRun(s);
    if n == 0 || (n > 1 && s[0] == '0') || DigitsValue(s[..n]) >= U64_LIMIT then Fail
    else Done(DigitsValue(s[..n]), s[n..])
  }

  function ParseValue(s: string): (r: Parsed<Json>)
    ensures r.Done? ==> |r.rest| < |s|
  {
    if "null" <= s then Done(JNull, s[4..])
    else if s != "" && s[0] == '\"' then
      match ParseString(s)
      case Fail => Fail
      case Done(text, rest) => Done(JString(text), rest)
    else
      match ParseNat(s)
      case Fail => Fail
      case Done(number, rest) => Done(JNat(number), rest)
  }

  /** One `"key": value` member, leading and inner whitespace skipped. */
  function ParseMember(s: string): (r: Parsed<(string, Json)>)
    ensures r.Done? ==> |r.rest| < |s|
  {
    match ParseString(SkipSpace(s))
    case Fail => Fail
    case Done(key, rest) =>
      var colon := SkipSpace(rest);
      if colon == "" || colon[0] != ':' then Fail
      else
        match ParseValue(SkipSpace(colon[1..]))
        case Fail => Fail
        case Done(value, rest') => Done((key, value), rest')
  }

  /** Members up to and including the closing brace; a trailing comma is an error. */
  function ParseMembers(s: string): (r: Parsed<Members>)
    ensures r.Done? ==> |r.rest| < |s|
    decreases |s|
  {
    match ParseMember(s)
    case Fail => Fail
    case Done(member, rest) =>
      var next := SkipSpace(rest);
      if next == "" then Fail
      else if next[0] == '}' then Done([member], next[1..])
      else if next[0] != ',' then Fail
      else
        match ParseMembers(next[1..])
        case Fail => Fail
        case Done(members, rest') => Done([member] + members, rest')
  }

  function ParseObject(s: string): Parsed<Members> {
    if s == "" || s[0] != '{' then Fail
    else
      var body := SkipSpace(s[1..]);
      if body != "" && body[0] == '}' then Done([], body[1..]) else ParseMembers(s[1..])
  }

  /** A whole text that is one object, surrounded by nothing but whitespace. */
  function ParseDocument(s: string): Option<Members> {
    match ParseObject(SkipSpace(s))
    case Fail => None
    case Done(members, rest) => if SkipSpace(rest) == "" then Some(members) else None
  }

  // ---------- the parser undoes the printer ----------

  predicate HexEscaped(c: char) {
    c as int < 0x20 && c as int !in {8, 9, 10, 12, 13}
  }

  lemma ParseUnicodeUndoesHex(c: char, rest: string)
    requires HexEscaped(c)
    ensures ParseUnicode("00" + [HEX[c as int / 16], HEX[c as int % 16]] + rest) == Done(c, rest)
  {
    var u := c as int;
    assert HexValue('0') == Some(0);
    assert HexValue(HEX[u / 16]) == Some(u / 16) && HexValue(HEX[u % 16]) == Some(u % 16);
    assert ("00" + [HEX[u / 16], HEX[u % 16]] + rest)[4..] == rest;
  }

  lemma ParseEscapeUndoesEscapeChar(c: char, rest: string)
    requires EscapeChar(c)[0] == '\\'
    ensures ParseEscape(EscapeChar(c)[1..] + rest) == Done(c, rest)
  {
    hide ParseUnicode, HexValue;
    var e := EscapeChar(c)[1..] + rest;
    assert e[0] == EscapeChar(c)[1];
    if HexEscaped(c) {
      var hex := "00" + [HEX[c as int / 16], HEX[c as int % 16]];
      ParseUnicodeUndoesHex(c, rest);
      assert EscapeChar(c)[1..] == "u" + hex;
      Assoc("u", hex, rest);
      ConcatTail("u", hex + rest);
      assert "u"[1..] + (hex + rest) == hex + rest;
    } else {
      assert e[1..] == rest;
    }
  }

  /** One step of the string parser reads back one escaped character. */
  lemma ParseCharsStep(c: char, tail: string)
    ensures ParseChars(EscapeChar(c) + tail) ==
            match ParseChars(tail) case Fail => Fail case Done(s, rest) => Done([c] + s, rest)
  {
    var e := EscapeChar(c);
    ConcatTail(e, tail);
    if e[0] == '\\' {
      ParseEscapeUndoesEscapeChar(c, tail);
    } else {
      assert e == [c] && e[1..] + tail == tail;
    }
  }

  lemma {:induction false} ParseCharsUndoesEscape(s: string, rest: string)
    ensures ParseChars(Escape(s) + ("\"" + rest)) == Done(s, rest)
  {
    var tail := "\"" + rest;
    if s == "" {
      assert Escape(s) + tail == tail && tail[1..] == rest;
    } else {
      hide EscapeChar, ParseChars;
      Assoc(EscapeChar(s[0]), Escape(s[1..]), tail);
      ParseCharsStep(s[0], Escape(s[1..]) + tail);
      ParseCharsUndoesEscape(s[1..], rest);
      assert [s[0]] + s[1..] == s;
    }
  }

  lemma QuoteThen(body: string, rest: string)
    ensures ("\"" + body + "\"" + rest)[0] == '\"'
    ensures ("\"" + body + "\"" + rest)[1..] == body + ("\"" + rest)
  {
  }

  /** Section 7 of RFC 8259: a quoted string parses back to the string, whatever follows it. */
  lemma ParseStringUndoesQuote(s: string, rest: string)
    ensures ParseString(Quote(s) + rest) == Done(s, rest)
  {
    ParseCharsUndoesEscape(s, rest);
    QuoteThen(Escape(s), rest);
  }

  lemma {:induction false} DecimalIsDigits(n: nat)
    ensures forall i :: 0 <= i < |Decimal(n)| ==> IsDigit(Decimal(n)[i])
    ensures DigitsValue(Decimal(n)) == n
    ensures |Decimal(n)| > 0 && (Decimal(n)[0] == '0' ==> n == 0)
  {
    if n >= 10 {
      DecimalIsDigits(n / 10);
      assert Decimal(n)[..|Decimal(n)| - 1] == Decimal(n / 10);
    }
  }

  lemma {:induction false} DigitRunStops(digits: string, rest: string)
    requires forall i :: 0 <= i < |digits| ==> IsDigit(digits[i])
    requires rest == "" || !IsDigit(rest[0])
    ensures DigitRun(digits + rest) == |digits|
  {
    if digits == "" {
      assert digits + rest == rest;
    } else {
      assert (digits + rest)[1..] == digits[1..] + rest;
      DigitRunStops(digits[1..], rest);
    }
  }

  /** A printed number parses back to the number when a non-digit follows it. */
  lemma ParseNatUndoesDecimal(n: u64, rest: string)
    requires rest == "" || !IsDigit(rest[0])
    ensures ParseNat(Decimal(n) + rest) == Done(n, rest)
  {
    DecimalIsDigits(n);
    DigitRunStops(Decimal(n), rest);
    assert (Decimal(n) + rest)[..|Decimal(n)|] == Decimal(n);
    assert (Decimal(n) + rest)[|Decimal(n)|..] == rest;
    if n < 10 {
      assert |Decimal(n)| == 1;
    }
  }

  // ---------- a successful parse does not depend on what follows ----------

  lemma {:induction false} SkipSpaceExtends(s: string, t: string)
    requires SkipSpace(s) != ""
    ensures SkipSpace(s + t) == SkipSpace(s) + t
  {
    ConcatTail(s, t);
    if IsJsonSpace(s[0]) {
      SkipSpaceExtends(s[1..], t);
    }
  }

  lemma DropOfConcat(s: string, t: string, n: nat)
    requires n <= |s|
    ensures (s + t)[n..] == s[n..] + t && forall i :: 0 <= i < n ==> (s + t)[i] == s[i]
  {
  }

  lemma ParseHex4Extends(s: string, t: string)
    requires ParseHex4(s).Done?
    ensures ParseHex4(s + t) == Done(ParseHex4(s).value, ParseHex4(s).rest + t)
  {
    hide HexValue;
    DropOfConcat(s, t, 4);
  }

  lemma ParseUnicodeExtends(s: string, t: string)
    requires ParseUnicode(s).Done?
    ensures ParseUnicode(s + t) == Done(ParseUnicode(s).value, ParseUnicode(s).rest + t)
  {
    hide ParseHex4;
    ParseHex4Extends(s, t);
    var unit, rest := ParseHex4(s).value, ParseHex4(s).rest;
    if 0xD800 <= unit <= 0xDBFF {
      DropOfConcat(rest, t, 2);
      ParseHex4Extends(rest[2..], t);
    }
  }

  lemma ParseEscapeExtends(s: string, t: string)
    requires ParseEscape(s).Done?
    ensures ParseEscape(s + t) == Done(ParseEscape(s).value, ParseEscape(s).rest + t)
  {
    hide ParseUnicode;
    ConcatTail(s, t);
    if s[0] == 'u' {
      ParseUnicodeExtends(s[1..], t);
    }
  }

  lemma {:induction false} ParseCharsExtends(s: string, t: string)
    requires ParseChars(s).Done?
    ensures ParseChars(s + t) == Done(ParseChars(s).value, ParseChars(s).rest + t)
    decreases |s|
  {
    ConcatTail(s, t);
    if s[0] == '\\' {
      ParseEscapeExtends(s[1..], t);
      ParseCharsExtends(ParseEscape(s[1..]).rest, t);
    } else if s[0] != '\"' {
      ParseCharsExtends(s[1..], t);
    }
  }

  lemma {:induction false} DigitRunExtends(s: string, t: string)
    requires DigitRun(s) < |s|
    ensures DigitRun(s + t) == DigitRun(s)
  {
    ConcatTail(s, t);
    if IsDigit(s[0]) {
      DigitRunExtends(s[1..], t);
    }
  }

  lemma ParseValueExtends(s: string, t: string)
    requires ParseValue(s).Done? && ParseValue(s).rest != ""
    ensures ParseValue(s + t) == Done(ParseValue(s).value, ParseValue(s).rest + t)
  {
    ConcatTail(s, t);
    if "null" <= s {
      assert (s + t)[4..] == s[4..] + t;
    } else if s[0] == '\"' {
      ParseCharsExtends(s[1..], t);
    } else {
      var n := DigitRun(s);
      assert s[n..] != "";
      DigitRunExtends(s, t);
      assert (s + t)[..n] == s[..n] && (s + t)[n..] == s[n..] + t;
    }
  }

  lemma ParseMemberExtends(s: string, t: string)
    requires ParseMember(s).Done? && ParseMember(s).rest != ""
    ensures ParseMember(s + t) == Done(ParseMember(s).value, ParseMember(s).rest + t)
  {
    SkipSpaceExtends(s, t);
    var quoted := SkipSpace(s);
    ConcatTail(quoted, t);
    ParseCharsExtends(quoted[1..], t);
    var rest := ParseString(quoted).rest;
    SkipSpaceExtends(rest, t);
    var colon := SkipSpace(rest);
    ConcatTail(colon, t);
    SkipSpaceExtends(colon[1..], t);
    ParseValueExtends(SkipSpace(colon[1..]), t);
  }

  lemma {:induction false} ParseMembersExtends(s: string, t: string)
    requires ParseMembers(s).Done?
    ensures ParseMembers(s + t) == Done(ParseMembers(s).value, ParseMembers(s).rest + t)
    decreases |s|
  {
    var rest := ParseMember(s).rest;
    var next := SkipSpace(rest);
    ParseMemberExtends(s, t);
    SkipSpaceExtends(rest, t);
    ConcatTail(next, t);
    if next[0] == ',' {
      ParseMembersExtends(next[1..], t);
    }
  }

  /** An object that parses as a prefix of a text parses the same when more text follows. */
  lemma ParseObjectExtends(s: string, t: string)
    requires ParseObject(s).Done?
    ensures ParseObject(s + t) == Done(ParseObject(s).value, ParseObject(s).rest + t)
  {
    ConcatTail(s, t);
    var body := SkipSpace(s[1..]);
    if body != "" {
      SkipSpaceExtends(s[1..], t);
      ConcatTail(body, t);
      if body[0] != '}' {
        ParseMembersExtends(s[1..], t);
      }
    }
  }

  /** No proper prefix of a document that ends with its closing brace is itself a document. */
  lemma NoProperPrefixIsDocument(s: string, p: string)
    requires s != "" && s[0] == '{' && ParseObject(s).Done? && ParseObject(s).rest == ""
    requires p <= s && p != s
    ensures ParseDocument(p).None?
  {
    if p != "" {
      assert SkipSpace(p) == p;
      if ParseObject(p).Done? {
        var t := s[|p|..];
        assert p + t == s;
        ParseObjectExtends(p, t);
      }
    }
  }
}
