/**
 Printing of flat JSON objects as `serde_json::to_string` prints a struct, its round trip through
 the parser, and exactly when the printed text holds a given quoted word as a raw substring.
 */
module JsonObject {
  import opened Prelude
  import opened Json

  function RenderValue(v: Json): string {
    match v
    case JString(text) => Quote(text)
    case JNat(number) => Decimal(number)
    case JNull => "null"
  }

  /** The members after the opening brace, with the closing brace. */
  function RenderMembers(ms: Members): string
    requires ms != []
    decreases |ms|, 1
  {
    Quote(ms[0].0) + (":" + (RenderValue(ms[0].1) + RenderTail(ms)))
  }

  /** What follows the first member's value. */
  function RenderTail(ms: Members): string
    requires ms != []
    decreases |ms|, 0
  {
    if |ms| == 1 then "}" else "," + RenderMembers(ms[1..])
  }

  function RenderObject(ms: Members): string
    requires ms != []
  {
    "{" + RenderMembers(ms)
  }

  // ---------- round trip ----------

  lemma TailStartsWithPunctuation(ms: Members)
    requires ms != []
    ensures RenderTail(ms) != "" && RenderTail(ms)[0] in {',', '}'}
  {
  }

  lemma ParseValueUndoesRender(v: Json, rest: string)
    requires rest != "" && rest[0] in {',', '}'}
    ensures ParseValue(RenderValue(v) + rest) == Done(v, rest)
  {
    match v
    case JNull =>
      assert ("null" + rest)[4..] == rest;
    case JString(text) =>
      ParseStringUndoesQuote(text, rest);
      assert (Quote(text) + rest)[0] == '\"';
    case JNat(number) =>
      ParseNatUndoesDecimal(number, rest);
      DecimalIsDigits(number);
      assert IsDigit((Decimal(number) + rest)[0]);
  }

  lemma ValueIsNotSpaced(v: Json, rest: string)
    ensures SkipSpace(RenderValue(v) + rest) == RenderValue(v) + rest
  {
    if v.JNat? { DecimalIsDigits(v.number); }
    assert (RenderValue(v) + rest)[0] == RenderValue(v)[0];
  }

  lemma ParseMemberOf(key: string, value: Json, rest: string)
    requires rest != "" && rest[0] in {',', '}'}
    ensures ParseMember(Quote(key) + (":" + (RenderValue(value) + rest))) == Done((key, value), rest)
  {
    var afterColon := RenderValue(value) + rest;
    var colon := ":" + afterColon;
    var s := Quote(key) + colon;
    assert s[0] == '\"' && colon[0] == ':' && colon[1..] == afterColon;
    ParseStringUndoesQuote(key, colon);
    ParseValueUndoesRender(value, rest);
    ValueIsNotSpaced(value, rest);
    assert SkipSpace(s) == s && SkipSpace(colon) == colon;
  }

  lemma ParseLastMember(key: string, value: Json, rest: string)
    ensures ParseMembers(Quote(key) + (":" + (RenderValue(value) + ("}" + rest)))) == Done([(key, value)], rest)
  {
    hide ParseMember, RenderValue, Quote;
    var next := "}" + rest;
    ParseMemberOf(key, value, next);
    NotSpaced(next);
    assert next[1..] == rest;
  }

  lemma ParseOneMoreMember(key: string, value: Json, more: string, ms: Members, rest: string)
    requires ParseMembers(more) == Done(ms, rest)
    ensures ParseMembers(Quote(key) + (":" + (RenderValue(value) + ("," + more)))) == Done([(key, value)] + ms, rest)
  {
    hide ParseMember, RenderValue, Quote;
    var next := "," + more;
    ParseMemberOf(key, value, next);
    NotSpaced(next);
    assert next[1..] == more;
  }

  lemma NotSpaced(s: string)
    requires s != "" && !IsJsonSpace(s[0])
    ensures SkipSpace(s) == s
  {
  }

  lemma FourParts(a: string, b: string, c: string, d: string, rest: string)
    ensures (a + (b + (c + d))) + rest == a + (b + (c + (d + rest)))
  {
  }

  lemma TailPastComma(ms: Members, rest: string)
    requires |ms| > 1
    ensures RenderTail(ms) + rest == "," + (RenderMembers(ms[1..]) + rest)
  {
    Assoc(",", RenderMembers(ms[1..]), rest);
  }

  lemma {:induction false} ParseMembersUndoesRender(ms: Members, rest: string)
    requires ms != []
    ensures ParseMembers(RenderMembers(ms) + rest) == Done(ms, rest)
    decreases |ms|
  {
    hide Quote, RenderValue, ParseMembers;
    var key, value := ms[0].0, ms[0].1;
    FourParts(Quote(key), ":", RenderValue(value), RenderTail(ms), rest);
    if |ms| == 1 {
      ParseLastMember(key, value, rest);
      assert [(key, value)] == ms;
    } else {
      var more := RenderMembers(ms[1..]) + rest;
      TailPastComma(ms, rest);
      ParseMembersUndoesRender(ms[1..], rest);
      ParseOneMoreMember(key, value, more, ms[1..], rest);
      assert [(key, value)] + ms[1..] == ms;
    }
  }

  /** A printed object parses back to its members, in order, and is consumed to its last character. */
  lemma ObjectRoundTrip(ms: Members)
    requires ms != []
    ensures ParseObject(RenderObject(ms)) == Done(ms, "")
    ensures ParseDocument(RenderObject(ms)) == Some(ms)
  {
    ParseMembersUndoesRender(ms, "");
    assert RenderMembers(ms) + "" == RenderMembers(ms);
    assert RenderObject(ms)[1..] == RenderMembers(ms);
  }

  // ---------- one line of printable text ----------

  predicate OneLine(s: string) {
    forall i :: 0 <= i < |s| ==> s[i] as int >= 0x20
  }

  lemma {:induction false} EscapeIsOneLine(s: string)
    ensures OneLine(Escape(s))
  {
    if s != "" {
      EscapeCharIsOneLine(s[0]);
      EscapeIsOneLine(s[1..]);
      OneLineConcat(EscapeChar(s[0]), Escape(s[1..]));
    }
  }

  lemma EscapeCharIsOneLine(c: char)
    ensures OneLine(EscapeChar(c))
  {
    assert forall k :: 0 <= k < |HEX| ==> HEX[k] as int >= 0x20;
  }

  lemma OneLineConcat(a: string, b: string)
    requires OneLine(a) && OneLine(b)
    ensures OneLine(a + b)
  {
  }

  lemma RenderValueIsOneLine(v: Json)
    ensures OneLine(RenderValue(v))
  {
    if v.JString? { EscapeIsOneLine(v.text); }
    if v.JNat? {
      DecimalIsDigits(v.number);
      assert forall i :: 0 <= i < |Decimal(v.number)| ==> IsDigit(Decimal(v.number)[i]);
    }
  }

  lemma {:induction false} RenderMembersIsOneLine(ms: Members)
    requires ms != []
    ensures OneLine(RenderMembers(ms)) && LastIs(RenderMembers(ms), '}')
    decreases |ms|
  {
    var key, value, tail := ms[0].0, ms[0].1, RenderTail(ms);
    EscapeIsOneLine(key);
    assert OneLine(Quote(key));
    RenderValueIsOneLine(value);
    if |ms| > 1 {
      RenderMembersIsOneLine(ms[1..]);
      OneLineConcat(",", RenderMembers(ms[1..]));
      LastOfConcat(",", RenderMembers(ms[1..]), '}');
    }
    OneLineConcat(RenderValue(value), tail);
    LastOfConcat(RenderValue(value), tail, '}');
    OneLineConcat(":", RenderValue(value) + tail);
    LastOfConcat(":", RenderValue(value) + tail, '}');
    OneLineConcat(Quote(key), ":" + (RenderValue(value) + tail));
    LastOfConcat(Quote(key), ":" + (RenderValue(value) + tail), '}');
  }

  predicate LastIs(s: string, c: char) {
    s != "" && s[|s| - 1] == c
  }

  lemma LastOfConcat(a: string, b: string, c: char)
    requires LastIs(b, c)
    ensures LastIs(a + b, c)
  {
  }

  /** A printed object is one line between braces. */
  lemma ObjectShape(ms: Members)
    requires ms != []
    ensures OneLine(RenderObject(ms)) && RenderObject(ms)[0] == '{' && LastIs(RenderObject(ms), '}')
  {
    RenderMembersIsOneLine(ms);
    OneLineConcat("{", RenderMembers(ms));
    LastOfConcat("{", RenderMembers(ms), '}');
  }

  // ---------- raw substring tests on a printed object ----------

  /** A word that is printed as itself and begins with a letter or underscore. */
  predicate PlainWord(w: string) {
    && w != ""
    && (forall i :: 0 <= i < |w| ==> 'a' <= w[i] <= 'z' || w[i] == '_')
  }

  function Needle(w: string, after: string): string {
    "\"" + w + "\"" + after
  }

  /** A string whose printed form, closing quote included, ends with `"w"`. */
  predicate Hits(s: string, w: string) {
    s == w || EndsWith(s, "\"" + w)
  }

  predicate AnyHit(ms: Members, w: string, after: string) {
    exists i :: 0 <= i < |ms| && MemberHits(ms[i], w, after)
  }

  predicate MemberHits(m: (string, Json), w: string, after: string) {
    Hits(m.0, w) || (after == "" && m.1.JString? && Hits(m.1.text, w))
  }

  /** An occurrence in a concatenation begins in the first part or lies in the second. */
  lemma ContainsSplit(a: string, b: string, needle: string)
    ensures Contains(a + b, needle) <==>
            (exists i :: 0 <= i < |a| && OccursAt(a + b, needle, i)) || Contains(b, needle)
  {
    forall j | 0 <= j <= |b|
      ensures OccursAt(b, needle, j) <==> OccursAt(a + b, needle, |a| + j)
    {
      assert (a + b)[|a| + j..] == b[j..];
    }
    if Contains(b, needle) {
      var j :| 0 <= j <= |b| && OccursAt(b, needle, j);
      assert OccursAt(a + b, needle, |a| + j);
    }
    if Contains(a + b, needle) {
      var i :| 0 <= i <= |a + b| && OccursAt(a + b, needle, i);
      if i >= |a| {
        assert OccursAt(b, needle, i - |a|);
      }
    }
  }

  /** No occurrence begins in a part without quotes. */
  lemma ContainsPastUnquoted(a: string, b: string, w: string, after: string)
    requires forall i :: 0 <= i < |a| ==> a[i] != '\"'
    ensures Contains(a + b, Needle(w, after)) <==> Contains(b, Needle(w, after))
  {
    ContainsSplit(a, b, Needle(w, after));
    forall i | 0 <= i < |a|
      ensures !OccursAt(a + b, Needle(w, after), i)
    {
      assert (a + b)[i..][0] == a[i] && Needle(w, after)[0] == '\"';
    }
  }

  /** A printed string body begins with a plain word and a quote only if it is that word. */
  lemma {:induction false} WordThenQuote(w: string, s: string, rest: string, after: string)
    requires forall i :: 0 <= i < |w| ==> 'a' <= w[i] <= 'z' || w[i] == '_'
    ensures w + ("\"" + after) <= Escape(s) + ("\"" + rest) <==> s == w && after <= rest
  {
    var text := Escape(s) + ("\"" + rest);
    if w == "" {
      assert w + ("\"" + after) == "\"" + after;
      if s == "" {
        assert text == "\"" + rest;
        assert ("\"" + after <= "\"" + rest) <==> after <= rest by { PrefixPastFirst('\"', after, rest); }
      } else {
        assert text[0] == EscapeChar(s[0])[0] != '\"';
      }
    } else if s == "" {
      assert text[0] == '\"' && (w + ("\"" + after))[0] == w[0];
    } else {
      assert text[0] == EscapeChar(s[0])[0];
      assert (w + ("\"" + after))[0] == w[0];
      if s[0] == w[0] {
        WordThenQuote(w[1..], s[1..], rest, after);
        assert w == [w[0]] + w[1..] && s == [s[0]] + s[1..] && Escape(s) == [s[0]] + Escape(s[1..]);
        SameFirst(w[0], w[1..], "\"" + after, Escape(s[1..]), "\"" + rest);
      } else {
        assert EscapeChar(s[0])[0] != w[0];
      }
    }
  }

  lemma SameFirst(c: char, a: string, x: string, b: string, y: string)
    ensures ([c] + a) + x <= ([c] + b) + y <==> a + x <= b + y
  {
    Assoc([c], a, x);
    Assoc([c], b, y);
    PrefixPastFirst(c, a + x, b + y);
  }

  lemma PrefixPastFirst(c: char, a: string, b: string)
    ensures [c] + a <= [c] + b <==> a <= b
  {
    assert ([c] + a)[1..] == a && ([c] + b)[1..] == b;
    if a <= b {
      assert [c] + b == [c] + a + b[|a|..];
    }
    if [c] + a <= [c] + b {
      assert ([c] + b)[..|[c] + a|] == [c] + a;
      assert b[..|a|] == ([c] + b)[1..|[c] + a|];
    }
  }

  /** An occurrence that begins inside one escaped character begins at its escaped quote. */
  lemma OccurrenceInEscape(c: char, s: string, rest: string, w: string, after: string, i: nat)
    requires PlainWord(w) && i < |EscapeChar(c)|
    ensures OccursAt(EscapeChar(c) + (Escape(s) + ("\"" + rest)), Needle(w, after), i) <==>
            c == '\"' && i == 1 && s == w && after <= rest
  {
    hide Escape;
    var tail := Escape(s) + ("\"" + rest);
    var text := EscapeChar(c) + tail;
    assert text[i..][0] == EscapeChar(c)[i];
    if c == '\"' && i == 1 {
      assert text[1..] == "\"" + tail;
      assert Needle(w, after) == "\"" + (w + ("\"" + after));
      PrefixPastFirst('\"', w + ("\"" + after), tail);
      WordThenQuote(w, s, rest, after);
    } else {
      QuoteOnlyEscaped(c, i);
    }
  }

  lemma QuoteOnlyEscaped(c: char, i: nat)
    requires i < |EscapeChar(c)|
    ensures EscapeChar(c)[i] == '\"' <==> c == '\"' && i == 1
  {
    assert forall k :: 0 <= k < |HEX| ==> HEX[k] != '\"';
  }

  /** Where `"w"after` can begin inside a printed string body. */
  lemma {:induction false} ContainsInBody(s: string, rest: string, w: string, after: string)
    requires PlainWord(w)
    ensures Contains(Escape(s) + ("\"" + rest), Needle(w, after)) <==>
            (EndsWith(s, "\"" + w) && after <= rest) || Contains("\"" + rest, Needle(w, after))
  {
    if s == "" {
      assert Escape(s) + ("\"" + rest) == "\"" + rest;
    } else {
      var e, tail := EscapeChar(s[0]), Escape(s[1..]) + ("\"" + rest);
      assert Escape(s) + ("\"" + rest) == e + tail;
      ContainsSplit(e, tail, Needle(w, after));
      ContainsInBody(s[1..], rest, w, after);
      EndsWithStep(s, "\"" + w);
      forall i | 0 <= i < |e|
        ensures OccursAt(e + tail, Needle(w, after), i) <==>
                s[0] == '\"' && i == 1 && s[1..] == w && after <= rest
      {
        OccurrenceInEscape(s[0], s[1..], rest, w, after, i);
      }
      assert s == "\"" + w <==> s[0] == '\"' && s[1..] == w by { assert s == [s[0]] + s[1..]; }
      if s[0] == '\"' && s[1..] == w && after <= rest {
        assert OccursAt(e + tail, Needle(w, after), 1);
      }
    }
  }

  lemma EndsWithStep(s: string, suffix: string)
    requires s != ""
    ensures EndsWith(s, suffix) <==> s == suffix || EndsWith(s[1..], suffix)
  {
    if |suffix| < |s| {
      assert s[|s| - |suffix|..] == s[1..][|s[1..]| - |suffix|..];
    }
  }

  lemma ContainsPastQuote(text: string, w: string, after: string)
    ensures Contains("\"" + text, Needle(w, after)) <==>
            w + ("\"" + after) <= text || Contains(text, Needle(w, after))
  {
    ContainsSplit("\"", text, Needle(w, after));
    assert Needle(w, after) == "\"" + (w + ("\"" + after));
    assert ("\"" + text)[0..] == "\"" + text;
    PrefixPastFirst('\"', w + ("\"" + after), text);
    assert OccursAt("\"" + text, Needle(w, after), 0) <==> w + ("\"" + after) <= text;
  }

  /** A quoted string followed by punctuation holds `"w"after` only by ending with it. */
  lemma ContainsInQuoted(s: string, rest: string, w: string, after: string)
    requires PlainWord(w) && rest != "" && rest[0] in {':', ',', '}'}
    ensures Contains(Quote(s) + rest, Needle(w, after)) <==>
            (Hits(s, w) && after <= rest) || Contains(rest, Needle(w, after))
  {
    var body := Escape(s) + ("\"" + rest);
    assert Quote(s) + rest == "\"" + body;
    ContainsPastQuote(body, w, after);
    WordThenQuote(w, s, rest, after);
    ContainsInBody(s, rest, w, after);
    ContainsPastQuote(rest, w, after);
    assert (w + ("\"" + after))[0] == w[0] != rest[0];
  }

  lemma ContainsInValue(v: Json, rest: string, w: string, after: string)
    requires PlainWord(w) && rest != "" && rest[0] in {',', '}'} && after in {"", ":"}
    ensures Contains(RenderValue(v) + rest, Needle(w, after)) <==>
            (after == "" && v.JString? && Hits(v.text, w)) || Contains(rest, Needle(w, after))
  {
    match v
    case JString(text) => ContainsInQuoted(text, rest, w, after);
    case JNull => ContainsPastUnquoted("null", rest, w, after);
    case JNat(number) =>
      DecimalIsDigits(number);
      assert forall i :: 0 <= i < |Decimal(number)| ==> IsDigit(Decimal(number)[i]);
      ContainsPastUnquoted(Decimal(number), rest, w, after);
  }

  lemma {:induction false} ContainsInMembers(ms: Members, w: string, after: string)
    requires ms != [] && PlainWord(w) && after in {"", ":"}
    ensures Contains(RenderMembers(ms), Needle(w, after)) <==> AnyHit(ms, w, after)
    decreases |ms|
  {
    var (key, value) := ms[0];
    var tail := RenderTail(ms);
    TailStartsWithPunctuation(ms);
    ContainsInQuoted(key, ":" + (RenderValue(value) + tail), w, after);
    ContainsPastUnquoted(":", RenderValue(value) + tail, w, after);
    ContainsInValue(value, tail, w, after);
    assert ms[0] == (key, value);
    if |ms| == 1 {
      ContainsPastUnquoted("}", "", w, after);
      assert "}" + "" == "}";
      assert !Contains("", Needle(w, after));
    } else {
      ContainsPastUnquoted(",", RenderMembers(ms[1..]), w, after);
      ContainsInMembers(ms[1..], w, after);
      assert AnyHit(ms, w, after) <==> MemberHits(ms[0], w, after) || AnyHit(ms[1..], w, after) by {
        assert forall i :: 1 <= i < |ms| ==> ms[i] == ms[1..][i - 1];
      }
    }
  }

  /**
   The raw text `"w":` occurs in a printed object exactly when some member's key is `w` or ends
   with `"w`; the raw text `"w"` also when some string value does. Nothing else a value holds can
   produce it.
   */
  lemma RawTextIsKeyOrValue(ms: Members, w: string, after: string)
    requires ms != [] && PlainWord(w) && after in {"", ":"}
    ensures Contains(RenderObject(ms), Needle(w, after)) <==> AnyHit(ms, w, after)
  {
    ContainsPastUnquoted("{", RenderMembers(ms), w, after);
    ContainsInMembers(ms, w, after);
  }
}
