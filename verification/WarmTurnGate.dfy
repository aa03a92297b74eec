/**
 The cache-utilization gate: collecting warm-turn samples from trace lines and failing when their
 median falls below a threshold. Ratios are real numbers.
 */
module WarmTurnGate {
  import opened Prelude

  /** A field of a decoded event; a Python bool is an int. */
  datatype Field = Absent | Number(n: int) | Truth(b: bool) | Other

  datatype Event = Event(
    isTokenUsage: bool,
    isCompaction: bool,
    hasModelId: bool,
    step: Field,
    promptTokens: Field,
    cacheRead: Field)

  /**
   A line of a trace: blank, refused by the decoder (no JSON, or a number too long for it), nested too
   deep for it, decoded to something that is not an object, or an event.
   */
  datatype Line = Blank | Malformed | TooDeep | NotAnObject | Object(event: Event)

  /** A rejected trace ends the script with 2, an uncaught exception with 1. */
  datatype Failure = Rejected | Crashed

  datatype Reading = Skipped | Drift | Sample(ratio: real) | Overflow

  const WARM_TURN_FLOOR := 2
  const DEFAULT_THRESHOLD := 0.5
  const DEFAULT_MIN_SAMPLES := 3

  function IntOf(f: Field): Option<int> {
    match f
    case Number(n) => Some(n)
    case Truth(b) => Some(if b then 1 else 0)
    case _ => None
  }

  predicate AtLeast(f: Field, low: int) {
    IntOf(f).Some? && IntOf(f).value >= low
  }

  function Power(base: nat, n: nat): nat {
    if n == 0 then 1 else base * Power(base, n - 1)
  }

  /** The least quotient that rounds past the largest double: halfway from there to the next power of two. */
  const FLOAT_LIMIT: int := Power(2, 1024) - Power(2, 970)

  /** Python's division of two integers raises an exception if the quotient is too large for a double. */
  predicate Overflows(a: int, b: int) {
    a >= b * FLOAT_LIMIT
  }

  function Read(e: Event): Reading {
    if !e.isTokenUsage || e.isCompaction then Skipped
    else if !e.hasModelId || e.cacheRead.Absent? || e.step.Absent? || e.promptTokens.Absent? then Drift
    else if AtLeast(e.step, WARM_TURN_FLOOR) && AtLeast(e.promptTokens, 1) && AtLeast(e.cacheRead, 0) then
      var read, prompt := IntOf(e.cacheRead).value, IntOf(e.promptTokens).value;
      if Overflows(read, prompt) then Overflow else Sample(read as real / prompt as real)
    else Skipped
  }

  function ReadLine(l: Line): Reading {
    if l.Object? then Read(l.event) else Skipped
  }

  function FailureOf(l: Line, strict: bool): Option<Failure> {
    match l
    case Malformed => Some(Rejected)
    case TooDeep => Some(Crashed)
    case NotAnObject => Some(Crashed)
    case Object(e) =>
      if Read(e).Overflow? then Some(Crashed) else if strict && Read(e).Drift? then Some(Rejected) else None
    case Blank => None
  }

  function Samples(lines: seq<Line>): seq<real> {
    if lines == [] then []
    else
      var last := ReadLine(lines[|lines| - 1]);
      Samples(lines[..|lines| - 1]) + (if last.Sample? then [last.ratio] else [])
  }

  function Missing(lines: seq<Line>): nat {
    if lines == [] then 0
    else Missing(lines[..|lines| - 1]) + (if ReadLine(lines[|lines| - 1]).Drift? then 1 else 0)
  }

  function FirstFailure(lines: seq<Line>, strict: bool): Option<Failure> {
    if lines == [] then None
    else
      var earlier := FirstFailure(lines[..|lines| - 1], strict);
      if earlier.Some? then earlier else FailureOf(lines[|lines| - 1], strict)
  }

  function Flatten(traces: seq<seq<Line>>): seq<Line> {
    if traces == [] then [] else Flatten(traces[..|traces| - 1]) + traces[|traces| - 1]
  }

  function Collected(lines: seq<Line>, strict: bool): Result<(seq<real>, nat), Failure> {
    var failure := FirstFailure(lines, strict);
    if failure.Some? then Err(failure.value) else Ok((Samples(lines), Missing(lines)))
  }

  lemma Snoc(lines: seq<Line>, l: Line, strict: bool)
    ensures Samples(lines + [l]) == Samples(lines) + (if ReadLine(l).Sample? then [ReadLine(l).ratio] else [])
    ensures Missing(lines + [l]) == Missing(lines) + (if ReadLine(l).Drift? then 1 else 0)
    ensures FirstFailure(lines + [l], strict) ==
            if FirstFailure(lines, strict).Some? then FirstFailure(lines, strict) else FailureOf(l, strict)
  {
    assert (lines + [l])[..|lines|] == lines;
  }

  lemma {:induction false} Concat(a: seq<Line>, b: seq<Line>, strict: bool)
    ensures Samples(a + b) == Samples(a) + Samples(b)
    ensures FirstFailure(a + b, strict) ==
            if FirstFailure(a, strict).Some? then FirstFailure(a, strict) else FirstFailure(b, strict)
    decreases |b|
  {
    hide FailureOf, ReadLine;
    if b == [] {
      assert a + b == a;
    } else {
      var front, last := b[..|b| - 1], b[|b| - 1];
      Concat(a, front, strict);
      assert a + b == (a + front) + [last] && b == front + [last];
      Snoc(a + front, last, strict);
      Snoc(front, last, strict);
    }
  }

  lemma {:induction false} FlattenPrefix(traces: seq<seq<Line>>, i: nat)
    requires i <= |traces|
    ensures Flatten(traces[..i]) <= Flatten(traces)
    decreases |traces|
  {
    if i < |traces| {
      var front := traces[..|traces| - 1];
      FlattenPrefix(front, i);
      assert front[..i] == traces[..i];
    } else {
      assert traces[..i] == traces;
    }
  }

  /** The failure of a prefix is the failure of the whole. */
  lemma FailureStays(a: seq<Line>, whole: seq<Line>, strict: bool)
    requires a <= whole && FirstFailure(a, strict).Some?
    ensures FirstFailure(whole, strict) == FirstFailure(a, strict)
  {
    Concat(a, whole[|a|..], strict);
    assert a + whole[|a|..] == whole;
  }

  /** `collect_warm_turn_samples`: the first bad line decides, and nothing after it is read. */
  method CollectWarmTurnSamples(traces: seq<seq<Line>>, strict: bool) returns (r: Result<(seq<real>, nat), Failure>)
    ensures r == Collected(Flatten(traces), strict)
  {
    hide Read, FailureOf, Samples, Missing, FirstFailure;
    var samples, missing := [], 0;
    Nothing(strict);
    for i := 0 to |traces|
      invariant samples == Samples(Flatten(traces[..i])) && missing == Missing(Flatten(traces[..i]))
      invariant FirstFailure(Flatten(traces[..i]), strict).None?
    {
      ghost var done := Flatten(traces[..i]);
      var trace := traces[i];
      assert done + trace[..0] == done;
      for j := 0 to |trace|
        invariant samples == Samples(done + trace[..j]) && missing == Missing(done + trace[..j])
        invariant FirstFailure(done + trace[..j], strict).None?
      {
        var line := trace[j];
        Snoc(done + trace[..j], line, strict);
        assert (done + trace[..j]) + [line] == done + trace[..j + 1];
        var failure := FailureOf(line, strict);
        if failure.Some? {
          assert traces[..i + 1][..i] == traces[..i];
          FlattenPrefix(traces, i + 1);
          FailureStays(done + trace[..j + 1], Flatten(traces), strict);
          return Err(failure.value);
        }
        match ReadLine(line) {
          case Sample(ratio) => samples := samples + [ratio];
          case Drift => missing := missing + 1;
          case _ =>
        }
      }
      assert trace[..|trace|] == trace && traces[..i + 1][..i] == traces[..i];
    }
    assert traces[..|traces|] == traces;
    r := Ok((samples, missing));
  }

  lemma Nothing(strict: bool)
    ensures Samples(Flatten([])) == [] && Missing(Flatten([])) == 0 && FirstFailure(Flatten([]), strict).None?
  {
  }

  // ---------- the median ----------

  function Insert(x: real, s: seq<real>): seq<real> {
    if s == [] || x <= s[0] then [x] + s else [s[0]] + Insert(x, s[1..])
  }

  function Sort(s: seq<real>): seq<real> {
    if s == [] then [] else Insert(s[0], Sort(s[1..]))
  }

  predicate Ascending(s: seq<real>) {
    forall i, j :: 0 <= i < j < |s| ==> s[i] <= s[j]
  }

  function CountLe(s: seq<real>, x: real): nat {
    if s == [] then 0 else (if s[0] <= x then 1 else 0) + CountLe(s[1..], x)
  }

  lemma {:induction false} InsertSorts(x: real, s: seq<real>)
    requires Ascending(s)
    ensures Ascending(Insert(x, s)) && |Insert(x, s)| == |s| + 1
    ensures forall y :: y in Insert(x, s) <==> y == x || y in s
    ensures forall y :: CountLe(Insert(x, s), y) == (if x <= y then 1 else 0) + CountLe(s, y)
  {
    if s == [] || x <= s[0] {
      assert ([x] + s)[1..] == s;
    } else {
      var rest := Insert(x, s[1..]);
      InsertSorts(x, s[1..]);
      assert s == [s[0]] + s[1..];
      assert ([s[0]] + rest)[1..] == rest;
      assert forall i :: 0 <= i < |rest| ==> rest[i] in rest;
    }
  }

  lemma {:induction false} SortSorts(s: seq<real>)
    ensures Ascending(Sort(s)) && |Sort(s)| == |s|
    ensures forall x :: CountLe(Sort(s), x) == CountLe(s, x)
  {
    if s != [] {
      SortSorts(s[1..]);
      InsertSorts(s[0], Sort(s[1..]));
    }
  }

  /** In an ascending list the entry at `k` is at most `x` exactly when more than `k` entries are. */
  lemma {:induction false} RankOf(s: seq<real>, k: nat, x: real)
    requires Ascending(s) && k < |s|
    ensures s[k] <= x <==> CountLe(s, x) > k
  {
    if s[0] > x {
      NoneBelow(s, x);
    } else if k > 0 {
      RankOf(s[1..], k - 1, x);
    }
  }

  lemma {:induction false} NoneBelow(s: seq<real>, x: real)
    requires forall i :: 0 <= i < |s| ==> s[i] > x
    ensures CountLe(s, x) == 0
  {
    if s != [] {
      NoneBelow(s[1..], x);
    }
  }

  /** Python's `statistics.median`. */
  function Median(s: seq<real>): real
    requires s != []
  {
    SortSorts(s);
    var sorted, n := Sort(s), |s|;
    if n % 2 == 1 then sorted[n / 2] else (sorted[n / 2 - 1] + sorted[n / 2]) / 2.0
  }

  /** Lists of one length, the second with no more entries below any bound: its sorted entries are no smaller. */
  ghost predicate NoLower(a: seq<real>, b: seq<real>) {
    |a| == |b| && forall x :: CountLe(b, x) <= CountLe(a, x)
  }

  lemma SortedEntries(a: seq<real>, b: seq<real>, k: nat)
    requires NoLower(a, b) && k < |a|
    ensures |Sort(a)| == |Sort(b)| == |a| && Sort(a)[k] <= Sort(b)[k]
  {
    hide Sort, CountLe;
    SortSorts(a);
    SortSorts(b);
    var x := Sort(b)[k];
    RankOf(Sort(b), k, x);
    RankOf(Sort(a), k, x);
  }

  lemma MedianMonotone(a: seq<real>, b: seq<real>)
    requires NoLower(a, b) && a != []
    ensures Median(a) <= Median(b)
  {
    hide Sort, CountLe, NoLower;
    assert |a| == |b| by { Lengths(a, b); }
    SortedEntries(a, b, |a| / 2);
    if |a| % 2 == 0 {
      SortedEntries(a, b, |a| / 2 - 1);
    }
  }

  lemma Lengths(a: seq<real>, b: seq<real>)
    requires NoLower(a, b)
    ensures |a| == |b|
  {
  }

  // ---------- the verdict ----------

  /** `evaluate`. */
  function Evaluate(samples: seq<real>, threshold: real, minSamples: int): nat {
    if samples == [] || |samples| < minSamples || Median(samples) >= threshold then 0 else 1
  }

  /** The exit code over the lines of all traces, in order. */
  function ExitCode(lines: seq<Line>, threshold: real, minSamples: int): nat {
    match FirstFailure(lines, false)
    case Some(Rejected) => 2
    case Some(Crashed) => 1
    case None => Evaluate(Samples(lines), threshold, minSamples)
  }

  /** `run_check`; a missing directory counts as no samples. */
  method RunCheck(directory: Option<seq<seq<Line>>>, threshold: real, minSamples: int) returns (code: nat)
    ensures code == ExitCode(if directory.Some? then Flatten(directory.value) else [], threshold, minSamples)
  {
    hide Samples, Median, FirstFailure, Flatten, Missing;
    Nothing(false);
    if directory.None? {
      NoLines(threshold, minSamples);
      return Evaluate([], threshold, minSamples);
    }
    var collected := CollectWarmTurnSamples(directory.value, false);
    match collected {
      case Err(Rejected) => code := 2;
      case Err(Crashed) => code := 1;
      case Ok(r) => code := Evaluate(r.0, threshold, minSamples);
    }
  }

  lemma NoLines(threshold: real, minSamples: int)
    ensures ExitCode([], threshold, minSamples) == Evaluate([], threshold, minSamples) == 0
  {
  }

  lemma VerdictMonotone(a: seq<real>, b: seq<real>, threshold: real, minSamples: int)
    requires NoLower(a, b) && Evaluate(a, threshold, minSamples) == 0
    ensures Evaluate(b, threshold, minSamples) == 0
  {
    hide Median, NoLower;
    Lengths(a, b);
    if a != [] {
      MedianMonotone(a, b);
    }
  }

  // ---------- inserting compaction events ----------

  /** An event of the summarizer, anywhere in the traces, leaves the exit code alone. */
  lemma CompactionIsIgnored(before: seq<Line>, e: Event, after: seq<Line>, threshold: real, minSamples: int)
    requires e.isCompaction
    ensures ExitCode(before + [Object(e)] + after, threshold, minSamples) ==
            ExitCode(before + after, threshold, minSamples)
  {
    hide Evaluate, Samples, FirstFailure;
    Around(before, Object(e), after);
    Concat(before, after, false);
    assert Samples(before) + [] == Samples(before);
  }

  // ---------- reordering ----------

  function Count(lines: seq<Line>, p: Line -> bool): nat {
    if lines == [] then 0 else Count(lines[..|lines| - 1], p) + (if p(lines[|lines| - 1]) then 1 else 0)
  }

  lemma {:induction false} CountConcat(a: seq<Line>, b: seq<Line>, p: Line -> bool)
    ensures Count(a + b, p) == Count(a, p) + Count(b, p)
    decreases |b|
  {
    if b == [] {
      assert a + b == a;
    } else {
      CountConcat(a, b[..|b| - 1], p);
      assert (a + b)[..|a + b| - 1] == a + b[..|b| - 1];
    }
  }

  lemma {:induction false} CountOfPermutation(a: seq<Line>, b: seq<Line>, p: Line -> bool)
    requires multiset(a) == multiset(b)
    ensures Count(a, p) == Count(b, p)
    decreases |a|
  {
    assert |multiset(a)| == |a| && |multiset(b)| == |b|;
    if a == [] {
      assert b == [];
    } else {
      var front, last := a[..|a| - 1], a[|a| - 1];
      assert a == front + [last];
      var i := Position(b, last, multiset(front));
      CountOfPermutation(front, b[..i] + b[i + 1..], p);
      CountWithout(b, i, p);
    }
  }

  lemma Position(b: seq<Line>, l: Line, rest: multiset<Line>) returns (i: nat)
    requires multiset(b) == rest + multiset{l}
    ensures i < |b| && b[i] == l && multiset(b[..i] + b[i + 1..]) == rest
  {
    assert l in multiset(b);
    i :| 0 <= i < |b| && b[i] == l;
    WithOneMore(b, i);
    assert rest == multiset(b) - multiset{l};
  }

  lemma WithOneMore(b: seq<Line>, i: nat)
    requires i < |b|
    ensures multiset(b) == multiset(b[..i] + b[i + 1..]) + multiset{b[i]}
  {
    assert b == b[..i] + [b[i]] + b[i + 1..];
  }

  lemma CountWithout(b: seq<Line>, i: nat, p: Line -> bool)
    requires i < |b|
    ensures Count(b, p) == Count(b[..i] + b[i + 1..], p) + (if p(b[i]) then 1 else 0)
  {
    hide Count;
    assert b == b[..i] + ([b[i]] + b[i + 1..]);
    CountConcat(b[..i], [b[i]] + b[i + 1..], p);
    CountConcat([b[i]], b[i + 1..], p);
    CountConcat(b[..i], b[i + 1..], p);
    One(b[i], p);
  }

  lemma One(l: Line, p: Line -> bool)
    ensures Count([l], p) == if p(l) then 1 else 0
  {
    assert [l][..0] == [];
  }

  function IsSample(): Line -> bool {
    (l: Line) => ReadLine(l).Sample?
  }

  function IsSampleUpTo(x: real): Line -> bool {
    (l: Line) => ReadLine(l).Sample? && ReadLine(l).ratio <= x
  }

  lemma {:induction false} CountLeSnoc(s: seq<real>, y: real, x: real)
    ensures CountLe(s + [y], x) == CountLe(s, x) + (if y <= x then 1 else 0)
  {
    if s == [] {
      assert s + [y] == [y];
    } else {
      CountLeSnoc(s[1..], y, x);
      assert (s + [y])[1..] == s[1..] + [y];
    }
  }

  lemma {:induction false} SamplesAreCounted(lines: seq<Line>, x: real)
    ensures |Samples(lines)| == Count(lines, IsSample()) && CountLe(Samples(lines), x) == Count(lines, IsSampleUpTo(x))
  {
    hide ReadLine;
    if lines != [] {
      var front, last := lines[..|lines| - 1], ReadLine(lines[|lines| - 1]);
      SamplesAreCounted(front, x);
      if last.Sample? {
        CountLeSnoc(Samples(front), last.ratio, x);
      } else {
        assert Samples(front) + [] == Samples(front);
      }
    }
  }

  lemma SamplesOfPermutation(a: seq<Line>, b: seq<Line>)
    requires multiset(a) == multiset(b)
    ensures NoLower(Samples(a), Samples(b))
  {
    hide Samples, Count, CountLe, IsSample, IsSampleUpTo;
    CountOfPermutation(a, b, IsSample());
    SamplesAreCounted(a, 0.0);
    SamplesAreCounted(b, 0.0);
    forall x: real
      ensures CountLe(Samples(b), x) <= CountLe(Samples(a), x)
    {
      CountOfPermutation(a, b, IsSampleUpTo(x));
      SamplesAreCounted(a, x);
      SamplesAreCounted(b, x);
    }
  }

  /** Some line of the traces, by itself, ends the script so. */
  predicate Holds(lines: seq<Line>, failure: Failure) {
    exists i :: 0 <= i < |lines| && FailureOf(lines[i], false) == Some(failure)
  }

  lemma {:induction false} SomeFailure(lines: seq<Line>)
    ensures FirstFailure(lines, false).None? <==> !Holds(lines, Rejected) && !Holds(lines, Crashed)
    ensures FirstFailure(lines, false).Some? ==> Holds(lines, FirstFailure(lines, false).value)
  {
    hide FailureOf;
    if lines != [] {
      var n := |lines| - 1;
      SomeFailure(lines[..n]);
      assert forall i :: 0 <= i < n ==> lines[..n][i] == lines[i];
      assert forall f :: Holds(lines, f) <==> Holds(lines[..n], f) || FailureOf(lines[n], false) == Some(f);
      var last := FailureOf(lines[n], false);
      assert last.Some? ==> last.value == Rejected || last.value == Crashed;
    }
  }

  lemma SameFailures(a: seq<Line>, b: seq<Line>, failure: Failure)
    requires multiset(a) == multiset(b) && Holds(a, failure)
    ensures Holds(b, failure)
  {
    hide FailureOf;
    var i :| 0 <= i < |a| && FailureOf(a[i], false) == Some(failure);
    assert a[i] in multiset(b);
    var j :| 0 <= j < |b| && b[j] == a[i];
  }

  /** Every order of the lines of `lines` gives the exit code of `lines`. */
  ghost predicate OrderIndependent(lines: seq<Line>, threshold: real, minSamples: int) {
    forall other :: multiset(other) == multiset(lines) ==>
                      ExitCode(other, threshold, minSamples) == ExitCode(lines, threshold, minSamples)
  }

  lemma SameVerdict(a: seq<Line>, b: seq<Line>, threshold: real, minSamples: int)
    requires multiset(a) == multiset(b) && !(Holds(a, Rejected) && Holds(a, Crashed))
    ensures ExitCode(a, threshold, minSamples) == ExitCode(b, threshold, minSamples)
  {
    hide FirstFailure, Samples, Evaluate, NoLower, Holds;
    SomeFailure(a);
    SomeFailure(b);
    SameFailure(a, b);
    SamplesOfPermutation(a, b);
    SamplesOfPermutation(b, a);
    if Evaluate(Samples(a), threshold, minSamples) == 0 {
      VerdictMonotone(Samples(a), Samples(b), threshold, minSamples);
    } else {
      TwoVerdicts(Samples(a), threshold, minSamples);
      TwoVerdicts(Samples(b), threshold, minSamples);
      if Evaluate(Samples(b), threshold, minSamples) == 0 {
        VerdictMonotone(Samples(b), Samples(a), threshold, minSamples);
      }
    }
  }

  lemma SameFailure(a: seq<Line>, b: seq<Line>)
    requires multiset(a) == multiset(b)
    ensures forall f :: Holds(a, f) <==> Holds(b, f)
  {
    hide Holds;
    forall f
      ensures Holds(a, f) <==> Holds(b, f)
    {
      if Holds(a, f) {
        SameFailures(a, b, f);
      }
      if Holds(b, f) {
        SameFailures(b, a, f);
      }
    }
  }

  lemma TwoVerdicts(samples: seq<real>, threshold: real, minSamples: int)
    ensures Evaluate(samples, threshold, minSamples) == 0 || Evaluate(samples, threshold, minSamples) == 1
  {
  }

  lemma MovedToFront(lines: seq<Line>, failure: Failure) returns (other: seq<Line>)
    requires Holds(lines, failure)
    ensures multiset(other) == multiset(lines) && other != [] && FailureOf(other[0], false) == Some(failure)
  {
    hide FailureOf;
    var i :| 0 <= i < |lines| && FailureOf(lines[i], false) == Some(failure);
    other := [lines[i]] + (lines[..i] + lines[i + 1..]);
    WithOneMore(lines, i);
  }

  lemma FrontDecides(lines: seq<Line>, threshold: real, minSamples: int)
    requires lines != [] && FailureOf(lines[0], false).Some?
    ensures ExitCode(lines, threshold, minSamples) == if FailureOf(lines[0], false).value.Rejected? then 2 else 1
  {
    hide Evaluate, FailureOf;
    assert lines == [lines[0]] + lines[1..];
    assert [lines[0]][..0] == [];
    Concat([lines[0]], lines[1..], false);
  }

  /**
   The exit code does not depend on the order of events or traces, exactly when the traces do not hold
   both a line that is rejected and one that crashes the script: the first is reported as a bad trace,
   the second raises an exception nobody catches, and the earlier one wins.
   */
  lemma OrderMattersOnlyForBadTraces(lines: seq<Line>, threshold: real, minSamples: int)
    ensures OrderIndependent(lines, threshold, minSamples) <==> !(Holds(lines, Rejected) && Holds(lines, Crashed))
  {
    hide ExitCode, Holds;
    if Holds(lines, Rejected) && Holds(lines, Crashed) {
      var rejected := MovedToFront(lines, Rejected);
      var crashed := MovedToFront(lines, Crashed);
      FrontDecides(rejected, threshold, minSamples);
      FrontDecides(crashed, threshold, minSamples);
      assert ExitCode(rejected, threshold, minSamples) != ExitCode(crashed, threshold, minSamples);
    } else {
      forall other | multiset(other) == multiset(lines)
        ensures ExitCode(other, threshold, minSamples) == ExitCode(lines, threshold, minSamples)
      {
        SameVerdict(lines, other, threshold, minSamples);
      }
    }
  }

  /** Which lines those are: what the decoder refuses; and what it cannot nest, no object, or too large a quotient. */
  lemma BadLines(l: Line)
    ensures FailureOf(l, false) == Some(Rejected) <==> l.Malformed?
    ensures FailureOf(l, false) == Some(Crashed) <==>
            || l.TooDeep? || l.NotAnObject?
            || (l.Object? && !Read(l.event).Drift? && l.event.isTokenUsage && !l.event.isCompaction
                && AtLeast(l.event.step, WARM_TURN_FLOOR) && AtLeast(l.event.promptTokens, 1)
                && AtLeast(l.event.cacheRead, 0)
                && Overflows(IntOf(l.event.cacheRead).value, IntOf(l.event.promptTokens).value))
  {
    hide Overflows;
  }

  // ---------- raising a cache read ----------

  /** The digits of the longest integer that Python takes from a text, unless it is told otherwise. */
  const MAX_DIGITS: nat := 4300

  predicate Decodes(n: int) {
    n < Power(10, MAX_DIGITS) && -n < Power(10, MAX_DIGITS)
  }

  predicate FieldDecodes(f: Field) {
    f.Number? ==> Decodes(f.n)
  }

  /** An event's line, as the decoder finds it: refused if it holds an integer too long for it. */
  function LineOf(e: Event): Line {
    if FieldDecodes(e.step) && FieldDecodes(e.promptTokens) && FieldDecodes(e.cacheRead) then Object(e) else Malformed
  }

  function Raised(e: Event, value: int): Event {
    e.(cacheRead := Number(value))
  }

  /** All of an event but its cache read qualifies it as a sample. */
  predicate Qualifies(e: Event) {
    && e.isTokenUsage && !e.isCompaction && e.hasModelId
    && AtLeast(e.step, WARM_TURN_FLOOR) && AtLeast(e.promptTokens, 1)
  }

  lemma {:induction false} PowerGrows(base: nat, m: nat, n: nat)
    requires base >= 2 && m < n
    ensures 0 < Power(base, m) < Power(base, n)
  {
    if m + 1 < n {
      PowerGrows(base, m, n - 1);
    } else {
      PowerPositive(base, m);
    }
    assert base * Power(base, n - 1) >= 2 * Power(base, n - 1);
  }

  lemma {:induction false} PowerPositive(base: nat, n: nat)
    requires base > 0
    ensures Power(base, n) > 0
  {
    if n > 0 {
      PowerPositive(base, n - 1);
    }
  }

  lemma LimitIsPositive()
    ensures FLOAT_LIMIT > 0
  {
    hide Power;
    PowerGrows(2, 970, 1024);
  }

  lemma NegativesDoNotOverflow(a: int, b: int)
    requires b >= 1
    ensures Overflows(a, b) ==> a >= 0
  {
    LimitIsPositive();
    assert b * FLOAT_LIMIT >= 0;
  }

  /** What an integer cache read makes of an event that qualifies, and that no other event is affected by it. */
  lemma ReadRaised(e: Event, value: int)
    ensures var r := Read(Raised(e, value));
            if !Qualifies(e) then r.Skipped? || r.Drift?
            else
              var prompt := IntOf(e.promptTokens).value;
              if value < 0 then r.Skipped?
              else if Overflows(value, prompt) then r.Overflow?
              else r == Sample(value as real / prompt as real)
    ensures !Qualifies(e) && e.cacheRead.Number? ==> Read(e) == Read(Raised(e, value))
  {
    hide Overflows;
  }

  lemma RatioMonotone(a: int, b: int, d: int)
    requires a <= b && d > 0
    ensures a as real / d as real <= b as real / d as real
  {
    var x, y, r := a as real / d as real, b as real / d as real, d as real;
    assert x * r == a as real && y * r == b as real;
    assert (y - x) * r >= 0.0;
  }

  lemma {:induction false} CountLeConcat(a: seq<real>, b: seq<real>, x: real)
    ensures CountLe(a + b, x) == CountLe(a, x) + CountLe(b, x)
  {
    if a == [] {
      assert a + b == b;
    } else {
      CountLeConcat(a[1..], b, x);
      assert (a + b)[1..] == a[1..] + b;
    }
  }

  lemma {:induction false} OneHigher(a: seq<real>, low: real, high: real, b: seq<real>)
    requires low <= high
    ensures NoLower(a + [low] + b, a + [high] + b)
  {
    hide CountLe;
    forall x: real
      ensures CountLe(a + [high] + b, x) <= CountLe(a + [low] + b, x)
    {
      CountLeConcat(a + [high], b, x);
      CountLeConcat(a + [low], b, x);
      CountLeSnoc(a, high, x);
      CountLeSnoc(a, low, x);
    }
  }

  lemma Around(before: seq<Line>, l: Line, after: seq<Line>)
    requires FailureOf(l, false).None?
    ensures Samples(before + [l] + after) ==
            Samples(before) + (if ReadLine(l).Sample? then [ReadLine(l).ratio] else []) + Samples(after)
    ensures FirstFailure(before + [l] + after, false) == FirstFailure(before + after, false)
  {
    hide ReadLine, FailureOf;
    Snoc(before, l, false);
    Concat(before + [l], after, false);
    Concat(before, after, false);
  }

  /**
   Three ways in which raising an integer cache read can go wrong, on a line that is good before: the number
   becomes too long for the decoder, whatever the event; it makes a sample out of an event that a negative value
   had kept out; or the quotient becomes too large for a double.
   */
  predicate RaiseIsRisky(e: Event, value: int) {
    && e.cacheRead.Number? && LineOf(e).Object? && !Read(e).Overflow?
    && (|| !Decodes(value)
        || (Qualifies(e) && (e.cacheRead.n < 0 <= value || Overflows(value, IntOf(e.promptTokens).value))))
  }

  /** Raising one cache read, all else fixed, never turns a pass into a failure, but for those three cases. */
  lemma RaiseIsSafe(before: seq<Line>, e: Event, value: int, after: seq<Line>, threshold: real, minSamples: int)
    requires e.cacheRead.Number? && e.cacheRead.n < value && !RaiseIsRisky(e, value)
    requires ExitCode(before + [LineOf(e)] + after, threshold, minSamples) == 0
    ensures ExitCode(before + [LineOf(Raised(e, value))] + after, threshold, minSamples) == 0
  {
    hide Evaluate, Samples, FirstFailure, Read, Overflows, Decodes;
    var raised := Raised(e, value);
    assert Raised(e, e.cacheRead.n) == e;
    ReadRaised(e, e.cacheRead.n);
    ReadRaised(e, value);
    if FailureOf(LineOf(e), false).Some? {
      BadLineFails(before, LineOf(e), after, threshold, minSamples);
    } else {
      assert LineOf(e) == Object(e) && LineOf(raised) == Object(raised);
      Around(before, Object(e), after);
      Around(before, Object(raised), after);
      if Read(e).Sample? {
        RatioMonotone(e.cacheRead.n, value, IntOf(e.promptTokens).value);
        OneHigher(Samples(before), Read(e).ratio, Read(raised).ratio, Samples(after));
        VerdictMonotone(Samples(before + [Object(e)] + after), Samples(before + [Object(raised)] + after),
                        threshold, minSamples);
      }
    }
  }

  lemma BadLineFails(before: seq<Line>, l: Line, after: seq<Line>, threshold: real, minSamples: int)
    requires FailureOf(l, false).Some?
    ensures ExitCode(before + [l] + after, threshold, minSamples) != 0
  {
    hide Evaluate, Samples, FailureOf;
    Snoc(before, l, false);
    Concat(before + [l], after, false);
  }

  /** In no surroundings does raising the event's cache read turn a pass of the default gate into a failure. */
  ghost predicate RaiseAlwaysSafe(e: Event, value: int) {
    forall before, after ::
      ExitCode(before + [LineOf(e)] + after, DEFAULT_THRESHOLD, DEFAULT_MIN_SAMPLES) == 0
      ==> ExitCode(before + [LineOf(Raised(e, value))] + after, DEFAULT_THRESHOLD, DEFAULT_MIN_SAMPLES) == 0
  }

  /** A warm turn that read nothing from the cache. */
  const MISS := Object(Event(true, false, true, Number(WARM_TURN_FLOOR), Number(1), Number(0)))

  lemma TwoMisses(l: Line)
    requires FailureOf(l, false).None?
    ensures Samples([MISS, MISS] + [l] + []) == [0.0, 0.0] + (if ReadLine(l).Sample? then [ReadLine(l).ratio] else [])
    ensures FirstFailure([MISS, MISS] + [l] + [], false).None?
  {
    hide Samples, FirstFailure, ReadLine, FailureOf;
    assert ReadLine(MISS) == Sample(0.0) && FailureOf(MISS, false).None? by { MissIsSample(); }
    Nil();
    Snoc([], MISS, false);
    Snoc([MISS], MISS, false);
    assert [] + [MISS] == [MISS] && [MISS] + [MISS] == [MISS, MISS];
    assert Samples([MISS, MISS]) == [0.0, 0.0];
    Around([MISS, MISS], l, []);
    assert [MISS, MISS] + [] == [MISS, MISS];
  }

  lemma MissIsSample()
    ensures ReadLine(MISS) == Sample(0.0) && FailureOf(MISS, false).None?
  {
    LimitIsPositive();
  }

  lemma Nil()
    ensures Samples([]) == [] && FirstFailure([], false).None?
  {
  }

  lemma MedianOfMisses(r: real)
    requires r >= 0.0
    ensures Median([0.0, 0.0, r]) == 0.0
  {
    assert [0.0, 0.0, r][1..] == [0.0, r] && [0.0, r][1..] == [r] && [r][1..] == [];
    assert Sort([r]) == [r];
    assert Sort([0.0, r]) == [0.0, r];
    assert Sort([0.0, 0.0, r]) == [0.0, 0.0, r];
  }

  /** For the gate as it is configured those three cases are the exact condition. */
  lemma RaiseIsSafeExactly(e: Event, value: int)
    requires e.cacheRead.Number? && e.cacheRead.n < value
    ensures RaiseAlwaysSafe(e, value) <==> !RaiseIsRisky(e, value)
  {
    hide RaiseIsRisky, ExitCode, LineOf;
    if RaiseIsRisky(e, value) {
      RiskyRaiseFails(e, value);
    } else {
      forall before, after | ExitCode(before + [LineOf(e)] + after, DEFAULT_THRESHOLD, DEFAULT_MIN_SAMPLES) == 0
        ensures ExitCode(before + [LineOf(Raised(e, value))] + after, DEFAULT_THRESHOLD, DEFAULT_MIN_SAMPLES) == 0
      {
        RaiseIsSafe(before, e, value, after, DEFAULT_THRESHOLD, DEFAULT_MIN_SAMPLES);
      }
    }
  }

  lemma RiskyRaiseFails(e: Event, value: int)
    requires RaiseIsRisky(e, value)
    ensures !RaiseAlwaysSafe(e, value)
  {
    hide ExitCode, Overflows, LineOf, Decodes, Read;
    if !Decodes(value) {
      RaiseIsRefused(e, value);
    } else if Overflows(value, IntOf(e.promptTokens).value) {
      RaiseOverflows(e, value);
    } else {
      RaiseFails(e, value);
    }
  }

  /** A line by itself is too few samples to fail on, unless it is bad. */
  lemma AloneItPasses(l: Line)
    ensures ExitCode([] + [l] + [], DEFAULT_THRESHOLD, DEFAULT_MIN_SAMPLES) ==
            if FailureOf(l, false).None? then 0 else if FailureOf(l, false).value.Rejected? then 2 else 1
  {
    hide Median, ReadLine, FailureOf;
    Nil();
    Snoc([], l, false);
    assert [] + [l] + [] == [] + [l];
  }

  /** A number too long for the decoder rejects the trace, on whatever event it stands. */
  lemma RaiseIsRefused(e: Event, value: int)
    requires e.cacheRead.Number? && LineOf(e).Object? && !Read(e).Overflow? && !Decodes(value)
    ensures ExitCode([] + [LineOf(e)] + [], DEFAULT_THRESHOLD, DEFAULT_MIN_SAMPLES) == 0
    ensures ExitCode([] + [LineOf(Raised(e, value))] + [], DEFAULT_THRESHOLD, DEFAULT_MIN_SAMPLES) == 2
  {
    hide ExitCode, Read, Decodes;
    AloneItPasses(LineOf(e));
    AloneItPasses(LineOf(Raised(e, value)));
  }

  /** One sample is too few to fail on, but a quotient that is too large ends the script. */
  lemma RaiseOverflows(e: Event, value: int)
    requires e.cacheRead.Number? && LineOf(e).Object? && !Read(e).Overflow? && Decodes(value)
    requires Qualifies(e) && Overflows(value, IntOf(e.promptTokens).value)
    ensures ExitCode([] + [LineOf(e)] + [], DEFAULT_THRESHOLD, DEFAULT_MIN_SAMPLES) == 0
    ensures ExitCode([] + [LineOf(Raised(e, value))] + [], DEFAULT_THRESHOLD, DEFAULT_MIN_SAMPLES) == 1
  {
    hide ExitCode, Read, Decodes, Overflows;
    NegativesDoNotOverflow(value, IntOf(e.promptTokens).value);
    ReadRaised(e, value);
    AloneItPasses(LineOf(e));
    AloneItPasses(LineOf(Raised(e, value)));
  }

  /** Two misses are too few samples to fail on; a third sample, however good, leaves their median at zero. */
  lemma RaiseFails(e: Event, value: int)
    requires e.cacheRead.Number? && LineOf(e).Object? && Decodes(value)
    requires Qualifies(e) && e.cacheRead.n < 0 <= value && !Overflows(value, IntOf(e.promptTokens).value)
    ensures ExitCode([MISS, MISS] + [LineOf(e)] + [], DEFAULT_THRESHOLD, DEFAULT_MIN_SAMPLES) == 0
    ensures ExitCode([MISS, MISS] + [LineOf(Raised(e, value))] + [], DEFAULT_THRESHOLD, DEFAULT_MIN_SAMPLES) == 1
  {
    hide Samples, FirstFailure, Median, Read, Overflows, Decodes;
    assert Raised(e, e.cacheRead.n) == e;
    ReadRaised(e, e.cacheRead.n);
    ReadRaised(e, value);
    assert LineOf(e) == Object(e) && LineOf(Raised(e, value)) == Object(Raised(e, value));
    TwoMisses(Object(e));
    TwoMisses(Object(Raised(e, value)));
    var r := Read(Raised(e, value)).ratio;
    RatioMonotone(0, value, IntOf(e.promptTokens).value);
    MedianOfMisses(r);
    assert [0.0, 0.0] + [r] == [0.0, 0.0, r];
  }

  /** An event of the first turn, which the gate ignores, and of a warm turn; each read one token of one. */
  const COLD := Event(true, false, true, Number(1), Number(1), Number(1))
  const HIT := Event(true, false, true, Number(WARM_TURN_FLOOR), Number(1), Number(1))

  lemma {:induction false} TensOutgrowTwos(n: nat)
    ensures Power(10, n) >= Power(2, 3 * n) > 0
  {
    if n > 0 {
      TensOutgrowTwos(n - 1);
      var m := 3 * (n - 1);
      assert Power(2, m + 3) == 2 * Power(2, m + 2) && Power(2, m + 2) == 2 * Power(2, m + 1);
    }
  }

  lemma SmallDecodes(n: nat, digits: nat)
    requires n <= Power(10, digits) && digits < MAX_DIGITS
    ensures Decodes(n)
  {
    hide Power;
    PowerGrows(10, digits, MAX_DIGITS);
  }

  lemma TenDecodes(n: nat)
    requires n <= 10
    ensures Decodes(n)
  {
    assert Power(10, 0) == 1;
    assert Power(10, 1) == 10;
    SmallDecodes(n, 1);
  }

  lemma OnesAreGood()
    ensures LineOf(HIT).Object? && !Read(HIT).Overflow? && LineOf(COLD).Object? && !Read(COLD).Overflow?
  {
    hide Power, Decodes;
    TenDecodes(1);
    TenDecodes(2);
    LimitExceedsOne();
  }

  /** Such a warm turn raised to a one followed by 400 zeros: a pass becomes a crash. */
  lemma RaiseToTenToThe400()
    ensures ExitCode([] + [LineOf(HIT)] + [], DEFAULT_THRESHOLD, DEFAULT_MIN_SAMPLES) == 0
    ensures ExitCode([] + [LineOf(Raised(HIT, Power(10, 400)))] + [], DEFAULT_THRESHOLD, DEFAULT_MIN_SAMPLES) == 1
  {
    hide Power, ExitCode, LineOf, Read, Decodes;
    TensOutgrowTwos(400);
    PowerGrows(2, 1024, 1200);
    PowerGrows(2, 970, 1024);
    SmallDecodes(Power(10, 400), 400);
    OnesAreGood();
    RaiseOverflows(HIT, Power(10, 400));
  }

  /** Either turn raised to a one followed by 4300 zeros: a pass becomes a rejected trace. */
  lemma RaiseToTenToThe4300(e: Event)
    requires e == COLD || e == HIT
    ensures ExitCode([] + [LineOf(e)] + [], DEFAULT_THRESHOLD, DEFAULT_MIN_SAMPLES) == 0
    ensures ExitCode([] + [LineOf(Raised(e, Power(10, 4300)))] + [], DEFAULT_THRESHOLD, DEFAULT_MIN_SAMPLES) == 2
  {
    hide Power, ExitCode, LineOf, Read;
    OnesAreGood();
    RaiseIsRefused(e, Power(10, 4300));
  }

  lemma TwoToTheFirst()
    ensures Power(2, 1) == 2
  {
    assert Power(2, 0) == 1;
  }

  lemma LimitExceedsOne()
    ensures FLOAT_LIMIT > 1
  {
    hide Power;
    PowerDoubles(1023);
    PowerGrows(2, 970, 1023);
    PowerGrows(2, 1, 1023);
    TwoToTheFirst();
  }

  lemma PowerDoubles(n: nat)
    ensures Power(2, n + 1) == 2 * Power(2, n)
  {
  }
}
