/** Small datatypes and text helpers shared by every module. */
module Prelude {
  datatype Option<+T> = None | Some(value: T)

  datatype Result<+T, +E> = Ok(value: T) | Err(error: E)

  /** Raw substring test, as Rust's `str::contains`. */
  predicate Contains(text: string, needle: string) {
    exists i :: 0 <= i <= |text| && OccursAt(text, needle, i)
  }

  predicate OccursAt(text: string, needle: string, i: nat)
    requires i <= |text|
  {
    needle <= text[i..]
  }

  predicate EndsWith(text: string, suffix: string) {
    |suffix| <= |text| && text[|text| - |suffix|..] == suffix
  }

  /** A name that stays inside the directory it is looked up in. */
  predicate IsSafeName(name: string) {
    name != "" && '/' !in name && '\\' !in name && !Contains(name, "..") && name[0] != '.'
  }

  /** The separator goes between the parts, never after the last one. */
  function Join(parts: seq<string>, separator: string): string {
    if parts == [] then "" else if |parts| == 1 then parts[0]
    else parts[0] + separator + Join(parts[1..], separator)
  }

  /** The Unicode White_Space property, which Rust's `str::trim` strips. */
  predicate IsWhitespace(c: char) {
    var u := c as int;
    || 0x9 <= u <= 0xD || u == 0x20 || u == 0x85 || u == 0xA0 || u == 0x1680
    || 0x2000 <= u <= 0x200A || u == 0x2028 || u == 0x2029 || u == 0x202F || u == 0x205F || u == 0x3000
  }

  function TrimStart(s: string): string {
    if s != "" && IsWhitespace(s[0]) then TrimStart(s[1..]) else s
  }

  function TrimEnd(s: string): string {
    if s != "" && IsWhitespace(s[|s| - 1]) then TrimEnd(s[..|s| - 1]) else s
  }

  function Trim(s: string): string {
    TrimEnd(TrimStart(s))
  }

  /** Trimming the end of a text gives back one of its prefixes. */
  lemma {:induction false} TrimEndIsPrefix(s: string)
    ensures TrimEnd(s) <= s
  {
    if s != "" && IsWhitespace(s[|s| - 1]) {
      TrimEndIsPrefix(s[..|s| - 1]);
    }
  }

  /** UTF-8 length of a code point (section 3 of RFC 3629). */
  function Bytes(c: char): nat {
    var u := c as int;
    if u < 0x80 then 1 else if u < 0x800 then 2 else if u < 0x1_0000 then 3 else 4
  }

  function ByteLength(text: string): nat {
    if text == "" then 0 else ByteLength(text[..|text| - 1]) + Bytes(text[|text| - 1])
  }

  lemma {:induction false} BytesConcat(a: string, b: string)
    ensures ByteLength(a + b) == ByteLength(a) + ByteLength(b)
    decreases |b|
  {
    if b == "" {
      assert a + b == a;
    } else {
      BytesConcat(a, b[..|b| - 1]);
      assert (a + b)[..|a + b| - 1] == a + b[..|b| - 1];
    }
  }

  lemma {:induction false} BytesOfTail(text: string)
    requires text != ""
    ensures ByteLength(text) == Bytes(text[0]) + ByteLength(text[1..])
  {
    BytesConcat([text[0]], text[1..]);
    assert text == [text[0]] + text[1..];
    assert [text[0]][..0] == "";
  }

  lemma Assoc(a: string, b: string, c: string)
    ensures (a + b) + c == a + (b + c)
  {
  }

  lemma {:induction false} ConcatTail(a: string, b: string)
    requires a != ""
    ensures (a + b)[1..] == a[1..] + b && (a + b)[0] == a[0]
  {
  }
}
