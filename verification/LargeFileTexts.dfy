/** Texts, steps and journals that differ in nothing but the messages of large files, and how far those show. */
module LargeFileTexts {
  import opened Prelude
  import Json
  import opened WorkingMemory

  // ---------- cutting at bytes ----------

  /** A prefix within the limit is kept, and what is left of the limit goes to the rest. */
  lemma {:induction false} PrefixOfJoined(a: string, b: string, max: nat)
    ensures ByteLength(a) <= max ==> Prefix(a + b, max) == a + Prefix(b, max - ByteLength(a))
    ensures ByteLength(a) >= max ==> Prefix(a + b, max) == Prefix(a, max)
  {
    hide ByteLength, Bytes;
    if a == "" {
      assert a + b == b;
      NoBytes();
      if max == 0 {
        NothingFits(b);
      }
    } else {
      BytesOfTail(a);
      assert (a + b)[1..] == a[1..] + b;
      if Bytes(a[0]) <= max {
        PrefixOfJoined(a[1..], b, max - Bytes(a[0]));
      }
    }
  }

  lemma NoBytes()
    ensures ByteLength("") == 0
  {
  }

  lemma NothingFits(text: string)
    ensures Prefix(text, 0) == ""
  {
  }

  lemma {:induction false} PrefixIsPrefix(text: string, max: nat)
    ensures Prefix(text, max) <= text
  {
    if text != "" && Bytes(text[0]) <= max {
      PrefixIsPrefix(text[1..], max - Bytes(text[0]));
    }
  }

  // ---------- texts ----------

  /** The second message begins with another character than the first, and a short one. */
  predicate OpensOtherwise(a: string, b: string) {
    a != "" && b != "" && Bytes(b[0]) == 1 && a[0] != b[0]
  }

  /**
   Two texts with a message of a large file at the same place, if at all, and nothing different before it; if the
   messages are `apart`, the texts differ right there.
   */
  predicate Like(a: Text, b: Text, apart: bool) {
    && a.opensAt == b.opensAt
    && if a.opensAt.None? then a == b
       else
         var p := a.opensAt.value;
         && p <= |a.chars| && p <= |b.chars| && a.chars[..p] == b.chars[..p]
         && (apart ==>
               p < |a.chars| && p < |b.chars| && Bytes(b.chars[p]) == 1 && a.chars[p] != b.chars[p])
  }

  /** The same of texts that may have been cut off, so that the first message may be gone where the second is not. */
  predicate LikeCut(a: Text, b: Text, apart: bool) {
    && a.opensAt == b.opensAt
    && if a.opensAt.None? then a == b
       else
         var p := a.opensAt.value;
         && 0 < p <= |a.chars| && p <= |b.chars| && a.chars[..p] == b.chars[..p]
         && (apart ==>
               p < |b.chars| && Bytes(b.chars[p]) == 1 && (p < |a.chars| ==> a.chars[p] != b.chars[p]))
  }

  lemma {:induction false} JoinedLike(a: Text, b: Text, c: Text, d: Text, apart: bool)
    requires Like(a, b, apart) && Like(c, d, apart)
    ensures Like(Joined(a, c), Joined(b, d), apart)
  {
    var x, y := Joined(a, c), Joined(b, d);
    if a.opensAt.Some? {
      var p := a.opensAt.value;
      assert x.chars[..p] == a.chars[..p] && y.chars[..p] == b.chars[..p];
    } else if c.opensAt.Some? {
      var p := |a.chars| + c.opensAt.value;
      assert x.chars[..p] == a.chars + c.chars[..c.opensAt.value];
      assert y.chars[..p] == b.chars + d.chars[..c.opensAt.value];
    }
  }

  lemma {:induction false} JoinedLikeCut(a: Text, b: Text, c: Text, d: Text, apart: bool)
    requires Like(a, b, apart) && LikeCut(c, d, apart) && (a.opensAt.Some? ==> a.opensAt.value > 0)
    ensures LikeCut(Joined(a, c), Joined(b, d), apart)
  {
    var x, y := Joined(a, c), Joined(b, d);
    if a.opensAt.Some? {
      var p := a.opensAt.value;
      assert x.chars[..p] == a.chars[..p] && y.chars[..p] == b.chars[..p];
    } else if c.opensAt.Some? {
      var p := |a.chars| + c.opensAt.value;
      assert x.chars[..p] == a.chars + c.chars[..c.opensAt.value];
      assert y.chars[..p] == b.chars + d.chars[..c.opensAt.value];
    }
  }

  /** Of a text cut off at some bytes the message is either gone on both sides, or shows in the second still. */
  lemma {:induction false} CappedLike(a: Text, b: Text, max: nat, apart: bool)
    requires LikeCut(a, b, apart)
    ensures LikeCut(Capped(a, max), Capped(b, max), apart)
  {
    if a.opensAt.Some? {
      var p := a.opensAt.value;
      var before, x, y := a.chars[..p], a.chars[p..], b.chars[p..];
      assert a.chars == before + x && b.chars == before + y;
      PrefixOfJoined(before, x, max);
      PrefixOfJoined(before, y, max);
      if ByteLength(before) < max {
        var rest := max - ByteLength(before);
        PrefixIsPrefix(x, rest);
        assert (before + Prefix(x, rest))[..p] == before && (before + Prefix(y, rest))[..p] == before;
      }
    }
  }

  lemma LikeIsLikeCut(a: Text, b: Text, apart: bool)
    requires Like(a, b, apart) && (a.opensAt.Some? ==> a.opensAt.value > 0)
    ensures LikeCut(a, b, apart)
  {
  }

  // ---------- steps ----------

  predicate MessagesLike(a: string, b: string, isLargeFile: bool, apart: bool) {
    if isLargeFile then a != "" && b != "" && (apart ==> OpensOtherwise(a, b)) else a == b
  }

  predicate OutcomesLike(o: StepOutcome, q: StepOutcome, apart: bool) {
    match o
    case ToolRan(ok, message, isLargeFile) =>
      && q == ToolRan(ok, if q.ToolRan? then q.message else "", isLargeFile)
      && MessagesLike(message, q.message, isLargeFile, apart)
    case AskedUser(message, isLargeFile) =>
      && q == AskedUser(if q.AskedUser? then q.message else "", isLargeFile)
      && MessagesLike(message, q.message, isLargeFile, apart)
    case _ => q == o
  }

  predicate StepLike(a: Step, b: Step, apart: bool) {
    b == a.(outcome := b.outcome) && OutcomesLike(a.outcome, b.outcome, apart)
  }

  predicate StepsLike(a: seq<Step>, b: seq<Step>, apart: bool) {
    |a| == |b| && forall i :: 0 <= i < |a| ==> StepLike(a[i], b[i], apart)
  }

  lemma ShortenOpens(a: string, b: string, max: nat)
    requires OpensOtherwise(a, b) && max >= 4
    ensures OpensOtherwise(Shorten(a, max), Shorten(b, max))
  {
  }

  lemma DetailLike(a: string, b: string, isLargeFile: bool, max: nat, apart: bool)
    requires MessagesLike(a, b, isLargeFile, apart) && max >= 4
    ensures Like(Detail(a, isLargeFile, max), Detail(b, isLargeFile, max), apart)
  {
    hide Shorten;
    if isLargeFile && apart {
      ShortenOpens(a, b, max);
    }
  }

  lemma OutcomeLike(o: StepOutcome, q: StepOutcome, max: nat, apart: bool)
    requires OutcomesLike(o, q, apart) && max >= 4
    ensures Like(OutcomeText(o, max), OutcomeText(q, max), apart)
  {
    hide Detail, Joined, Like;
    if o.ToolRan? || o.AskedUser? {
      DetailLike(o.message, q.message, o.isLargeFile, max, apart);
      forall title: string
        ensures Like(Joined(Plain(title), Detail(o.message, o.isLargeFile, max)),
                     Joined(Plain(title), Detail(q.message, o.isLargeFile, max)), apart)
      {
        PlainLike(title, apart);
        JoinedLike(Plain(title), Plain(title), Detail(o.message, o.isLargeFile, max),
                   Detail(q.message, o.isLargeFile, max), apart);
      }
    }
    PlainLike(OutcomeText(o, max).chars, apart);
  }

  lemma PlainLike(s: string, apart: bool)
    ensures Like(Plain(s), Plain(s), apart)
  {
  }

  lemma LineLike(a: Step, b: Step, apart: bool)
    requires StepLike(a, b, apart)
    ensures Like(StepLine(a), StepLine(b), apart)
  {
    hide OutcomeText, Like, Joined, Shorten, ReasonText;
    OutcomeLike(a.outcome, b.outcome, 100, apart);
    var title := "\nStep " + Json.Decimal(a.index) + ": " + ToolNameOf(a) + " — "
                 + Shorten(ReasonText(a.reason), 80) + " — ";
    PlainLike(title, apart);
    JoinedLike(Plain(title), Plain(title), OutcomeText(a.outcome, 100), OutcomeText(b.outcome, 100), apart);
  }

  lemma {:induction false} LinesLike(a: seq<Step>, b: seq<Step>, apart: bool)
    requires StepsLike(a, b, apart)
    ensures Like(StepLines(a), StepLines(b), apart)
    decreases |a|
  {
    hide StepLine, Like, Joined, StepLike;
    if a == [] {
      PlainLike("", apart);
    } else {
      var n := |a| - 1;
      LinesLike(a[..n], b[..n], apart);
      LineLike(a[n], b[n], apart);
      JoinedLike(StepLines(a[..n]), StepLines(b[..n]), StepLine(a[n]), StepLine(b[n]), apart);
    }
  }

  /** The digest of discarded steps: a message never opens it. */
  lemma DigestLike(a: seq<Step>, b: seq<Step>, apart: bool)
    requires StepsLike(a, b, apart)
    ensures Like(Digest(a), Digest(b), apart)
    ensures Digest(a).opensAt.Some? ==> Digest(a).opensAt.value > 0
  {
    hide StepLines, Like, StepLike, Json.Decimal;
    LinesLike(a, b, apart);
    var title := "[Compact summary — " + Json.Decimal(|a|) + " steps discarded]";
    assert |title| > 0;
    PlainLike(title, apart);
    JoinedLike(Plain(title), Plain(title), StepLines(a), StepLines(b), apart);
  }

  // ---------- journals ----------

  predicate JournalsLike(j: Journal, k: Journal, apart: bool) {
    StepsLike(j.steps, k.steps, apart) && LikeCut(j.summary, k.summary, apart)
  }

  lemma FreshSummaryLike(c: Compaction, a: seq<Step>, b: seq<Step>, apart: bool)
    requires StepsLike(a, b, apart)
    ensures Like(FreshSummary(c, a), FreshSummary(c, b), apart)
    ensures FreshSummary(c, a).opensAt.Some? ==> FreshSummary(c, a).opensAt.value > 0
  {
    hide Digest, StepLike, Trim;
    DigestLike(a, b, apart);
  }

  lemma WithSummaryLike(j: Journal, k: Journal, newest: Text, other: Text, max: nat, apart: bool)
    requires JournalsLike(j, k, apart) && Like(newest, other, apart)
    requires newest.opensAt.Some? ==> newest.opensAt.value > 0
    ensures LikeCut(WithSummary(j, newest, max), WithSummary(k, other, max), apart)
  {
    hide Capped, StepsLike;
    LikeIsLikeCut(newest, other, apart);
    PlainLike("\n\n", apart);
    JoinedLike(newest, other, Plain("\n\n"), Plain("\n\n"), apart);
    JoinedLikeCut(Joined(newest, Plain("\n\n")), Joined(other, Plain("\n\n")), j.summary, k.summary, apart);
    var x := if j.summary.chars == "" then newest else Joined(Joined(newest, Plain("\n\n")), j.summary);
    var y := if k.summary.chars == "" then other else Joined(Joined(other, Plain("\n\n")), k.summary);
    CappedLike(x, y, max, apart);
  }

  /** Folding keeps journals alike, whatever the summarizer answers. */
  lemma FoldedLike(j: Journal, k: Journal, c: Compaction, index: nat, tail: nat, max: nat, apart: bool)
    requires JournalsLike(j, k, apart)
    ensures JournalsLike(Folded(j, c, index, tail, max), Folded(k, c, index, tail, max), apart)
  {
    hide WithSummary, FreshSummary, LikeCut, StepLike;
    var a, b := Discarded(j, tail), Discarded(k, tail);
    assert StepsLike(a, b, apart);
    assert forall s :: StepLike(Boundary(index, s), Boundary(index, s), apart) by { BoundariesLike(index, apart); }
    FreshSummaryLike(c, a, b, apart);
    WithSummaryLike(j, k, FreshSummary(c, a), FreshSummary(c, b), max, apart);
    SeededLike(HistoryCompacted(j, c, index, tail, max), HistoryCompacted(k, c, index, tail, max), c, index, apart);
  }

  lemma BoundariesLike(index: nat, apart: bool)
    ensures forall s :: StepLike(Boundary(index, s), Boundary(index, s), apart)
  {
  }

  lemma SeededLike(j: Journal, k: Journal, c: Compaction, index: nat, apart: bool)
    requires JournalsLike(j, k, apart)
    ensures JournalsLike(Seeded(j, c, index), Seeded(k, c, index), apart)
  {
    hide StepLike;
    BoundariesLike(index, apart);
  }

  // ---------- what is told ----------

  predicate ToldLike(a: Told, b: Told, apart: bool) {
    b == a.(text := b.text) && Like(a.text, b.text, apart)
  }

  lemma {:induction false} ShownLike(a: seq<Step>, b: seq<Step>, apart: bool)
    requires StepsLike(a, b, apart)
    ensures var x, y := ShownSteps(a), ShownSteps(b);
            |x| == |y| && forall i :: 0 <= i < |x| ==> ToldLike(x[i], y[i], apart)
    decreases |a|
  {
    hide OutcomeText, Shorten, ReasonText, Like, StepLike;
    if a != [] {
      var n := |a| - 1;
      ShownLike(a[..n], b[..n], apart);
      OneShownLike(a[n], b[n], apart);
    }
  }

  lemma OneShownLike(a: Step, b: Step, apart: bool)
    requires StepLike(a, b, apart)
    ensures ToolNameOf(a) == ToolNameOf(b) && a.index == b.index && a.reason == b.reason
    ensures Like(OutcomeText(a.outcome, 150), OutcomeText(b.outcome, 150), apart)
  {
    OutcomeLike(a.outcome, b.outcome, 150, apart);
  }
}
