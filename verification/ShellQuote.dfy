/**
 Rendering of an argument vector as one shell command line, and the shell's reading of it:
 recognition of words and quote removal after section 2.2 (Quoting) and section 2.3 (Token
 Recognition) of the Shell Command Language volume of IEEE Std 1003.1.
 */
module ShellQuote {
  import opened Prelude

  // ---------- rendering ----------

  /** Characters that are printed bare. */
  predicate IsPlain(c: char) {
    || 'a' <= c <= 'z' || 'A' <= c <= 'Z' || '0' <= c <= '9'
    || c in {'.', '/', '-', '_', ':'}
  }

  const ESCAPED_QUOTE: string := "'\"'\"'"

  /** Every single quote is replaced by a closing quote, a double-quoted quote and an opening quote. */
  function ReplaceQuotes(value: string): string {
    if value == "" then ""
    else (if value[0] == '\'' then ESCAPED_QUOTE else [value[0]]) + ReplaceQuotes(value[1..])
  }

  function Quoted(value: string): string {
    if value == "" then "''"
    else if forall i :: 0 <= i < |value| ==> IsPlain(value[i]) then value
    else "'" + ReplaceQuotes(value) + "'"
  }

  function QuotedAll(argv: seq<string>): (words: seq<string>)
    ensures |words| == |argv|
  {
    if argv == [] then [] else [Quoted(argv[0])] + QuotedAll(argv[1..])
  }

  function RenderCommandPreview(argv: seq<string>): string {
    Join(QuotedAll(argv), " ")
  }

  // ---------- the shell's reading ----------

  /** Where the reader is: between words, or in a word, quoted or not. */
  datatype Mode = Between | Bare | Single | Double | AfterBackslash(inWord: bool) | DoubleBackslash

  /**
   Characters with a meaning of their own outside quotes: operators, expansions, patterns, comment
   and assignment marks, and the newline that ends a command. The reader gives up on an unquoted
   one, so a reading exists only for texts in which nothing but words is recognised.
   */
  predicate IsSpecial(c: char) {
    c in {'|', '&', ';', '<', '>', '(', ')', '$', '`', '*', '?', '[', ']', '#', '~', '=', '%', '!', '{', '}', '\n'}
  }

  predicate IsBlank(c: char) {
    c == ' ' || c == '\t'
  }

  /** The words of a text, quotes removed; `None` for an unterminated quote or an unquoted special character. */
  function Read(s: string, mode: Mode, word: string): Option<seq<string>>
    decreases |s|, 0
  {
    if s == "" then
      match mode
      case Between => Some([])
      case Bare => Some([word])
      case _ => None
    else
      var c, rest := s[0], s[1..];
      match mode
      case Between =>
        if IsBlank(c) then Read(rest, Between, "") else ReadBare(c, rest, false, "")
      case Bare =>
        if IsBlank(c) then Prepend(word, Read(rest, Between, "")) else ReadBare(c, rest, true, word)
      case Single =>
        if c == '\'' then Read(rest, Bare, word) else Read(rest, Single, word + [c])
      case Double =>
        if c == '\"' then Read(rest, Bare, word)
        else if c == '\\' then Read(rest, DoubleBackslash, word)
        else if c in {'$', '`'} then None
        else Read(rest, Double, word + [c])
      case AfterBackslash(inWord) =>
        if c == '\n' then Read(rest, if inWord then Bare else Between, word) else Read(rest, Bare, word + [c])
      case DoubleBackslash =>
        if c == '\n' then Read(rest, Double, word)
        else if c in {'$', '`', '\"', '\\'} then Read(rest, Double, word + [c])
        else Read(rest, Double, word + ['\\', c])
  }

  /** An unquoted character that is no blank. */
  function ReadBare(c: char, rest: string, inWord: bool, word: string): Option<seq<string>>
    decreases |rest|, 1
  {
    if c == '\'' then Read(rest, Single, word)
    else if c == '\"' then Read(rest, Double, word)
    else if c == '\\' then Read(rest, AfterBackslash(inWord), word)
    else if IsSpecial(c) then None
    else Read(rest, Bare, word + [c])
  }

  function Prepend(word: string, words: Option<seq<string>>): Option<seq<string>> {
    match words case None => None case Some(ws) => Some([word] + ws)
  }

  function Words(s: string): Option<seq<string>> {
    Read(s, Between, "")
  }

  // ---------- reading undoes rendering ----------

  lemma {:induction false} ReadPlain(value: string, rest: string, word: string)
    requires forall i :: 0 <= i < |value| ==> IsPlain(value[i])
    ensures Read(value + rest, Bare, word) == Read(rest, Bare, word + value)
  {
    if value == "" {
      assert value + rest == rest && word + value == word;
    } else {
      ConcatTail(value, rest);
      ReadPlain(value[1..], rest, word + [value[0]]);
      assert word + [value[0]] + value[1..] == word + value;
    }
  }

  lemma ReadEscapedQuote(rest: string, word: string)
    ensures Read(ESCAPED_QUOTE + rest, Single, word) == Read(rest, Single, word + "'")
  {
    var s := ESCAPED_QUOTE + rest;
    assert s == ['\'', '\"', '\'', '\"', '\''] + rest;
    assert s[1..] == ['\"', '\'', '\"', '\''] + rest;
    assert s[2..] == ['\'', '\"', '\''] + rest == s[1..][1..];
    assert s[3..] == ['\"', '\''] + rest == s[2..][1..];
    assert s[4..] == ['\''] + rest == s[3..][1..];
    assert s[5..] == rest == s[4..][1..];
    assert Read(s, Single, word) == Read(s[1..], Bare, word);
    assert Read(s[1..], Bare, word) == Read(s[2..], Double, word);
    assert Read(s[2..], Double, word) == Read(s[3..], Double, word + ['\'']);
    assert Read(s[3..], Double, word + ['\'']) == Read(s[4..], Bare, word + ['\'']);
    assert Read(s[4..], Bare, word + ['\'']) == Read(s[5..], Single, word + ['\'']);
  }

  lemma {:induction false} ReadReplaced(value: string, rest: string, word: string)
    ensures Read(ReplaceQuotes(value) + rest, Single, word) == Read(rest, Single, word + value)
  {
    hide Read, ESCAPED_QUOTE;
    if value == "" {
      assert ReplaceQuotes(value) + rest == rest && word + value == word;
    } else {
      var c, more := value[0], ReplaceQuotes(value[1..]) + rest;
      ReadReplaced(value[1..], rest, word + [c]);
      assert word + [c] + value[1..] == word + value;
      if c == '\'' {
        Assoc(ESCAPED_QUOTE, ReplaceQuotes(value[1..]), rest);
        ReadEscapedQuote(more, word);
      } else {
        Assoc([c], ReplaceQuotes(value[1..]), rest);
        ReadInSingle(c, more, word);
      }
    }
  }

  lemma ReadInSingle(c: char, rest: string, word: string)
    requires c != '\''
    ensures Read([c] + rest, Single, word) == Read(rest, Single, word + [c])
  {
    assert ([c] + rest)[1..] == rest;
  }

  lemma ReadQuotes(rest: string)
    ensures Read("''" + rest, Between, "") == Read(rest, Bare, "")
  {
    var s := "''" + rest;
    assert s[1..] == "'" + rest && s[1..][1..] == rest;
    assert Read(s, Between, "") == Read(s[1..], Single, "");
  }

  lemma ReadOpening(rest: string)
    ensures Read("'" + rest, Between, "") == Read(rest, Single, "")
  {
    assert ("'" + rest)[1..] == rest;
  }

  lemma ReadClosing(rest: string, word: string)
    ensures Read("'" + rest, Single, word) == Read(rest, Bare, word)
  {
    assert ("'" + rest)[1..] == rest;
  }

  lemma ReadFirstPlain(c: char, rest: string)
    requires IsPlain(c)
    ensures Read([c] + rest, Between, "") == Read(rest, Bare, [c])
  {
    assert ([c] + rest)[1..] == rest && "" + [c] == [c];
  }

  lemma ReadPlainWord(value: string, rest: string)
    requires value != "" && forall i :: 0 <= i < |value| ==> IsPlain(value[i])
    ensures Read(value + rest, Between, "") == Read(rest, Bare, value)
  {
    hide Read;
    var c, more := value[0], value[1..];
    assert [c] + more == value;
    Assoc([c], more, rest);
    ReadFirstPlain(c, more + rest);
    ReadPlain(more, rest, [c]);
  }

  /** Reading one rendered argument leaves the reader in a word that is exactly the argument. */
  lemma ReadQuoted(value: string, rest: string)
    ensures Read(Quoted(value) + rest, Between, "") == Read(rest, Bare, value)
  {
    hide Read;
    if value == "" {
      ReadQuotes(rest);
    } else if forall i :: 0 <= i < |value| ==> IsPlain(value[i]) {
      ReadPlainWord(value, rest);
    } else {
      var body := ReplaceQuotes(value) + ("'" + rest);
      assert "'" + ReplaceQuotes(value) + "'" + rest == "'" + body;
      ReadOpening(body);
      ReadReplaced(value, "'" + rest, "");
      ReadClosing(rest, "" + value);
      assert "" + value == value;
    }
  }

  lemma ReadSpace(rest: string, word: string)
    ensures Read(" " + rest, Bare, word) == Prepend(word, Read(rest, Between, ""))
    ensures Read("", Bare, word) == Some([word])
  {
    assert (" " + rest)[1..] == rest;
  }

  /**
   Splitting a rendered command line into words and removing the quotes gives back exactly the
   argument vector: empty arguments, quotes, newlines and all.
   */
  lemma {:induction false} WordsOfPreview(argv: seq<string>)
    ensures Words(RenderCommandPreview(argv)) == Some(argv)
  {
    hide Quoted, Read;
    if argv == [] {
      assert Read("", Between, "") == Some([]) by { ReadNothing(); }
    } else if |argv| == 1 {
      assert QuotedAll(argv) == [Quoted(argv[0])] && argv == [argv[0]];
      assert Quoted(argv[0]) + "" == Quoted(argv[0]);
      ReadQuoted(argv[0], "");
      ReadSpace("", argv[0]);
    } else {
      var rest := RenderCommandPreview(argv[1..]);
      assert QuotedAll(argv)[1..] == QuotedAll(argv[1..]);
      assert RenderCommandPreview(argv) == Quoted(argv[0]) + (" " + rest);
      ReadQuoted(argv[0], " " + rest);
      ReadSpace(rest, argv[0]);
      WordsOfPreview(argv[1..]);
      assert [argv[0]] + argv[1..] == argv;
    }
  }

  lemma ReadNothing()
    ensures Read("", Between, "") == Some([])
  {
  }

  /** Different argument vectors are never shown as the same command line. */
  lemma PreviewIsInjective(a: seq<string>, b: seq<string>)
    requires RenderCommandPreview(a) == RenderCommandPreview(b)
    ensures a == b
  {
    WordsOfPreview(a);
    WordsOfPreview(b);
  }
}
