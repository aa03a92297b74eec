/** The in-memory conversation history and its deterministic compaction. */
module Conversation {
  import opened Prelude
  import opened Json
  import opened SessionLog
  import opened Messages

  datatype CompactResult = CompactResult(discarded: nat, retained: nat)

  const RETAIN_TAIL := 6
  const PREVIEW_CHARS := 120

  function SummaryLine(t: Turn): string {
    var preview := if |t.content| > PREVIEW_CHARS then t.content[..PREVIEW_CHARS] else t.content;
    var ellipsis := if |t.content| > PREVIEW_CHARS then "..." else "";
    "- " + RoleName(t.role) + ": " + preview + ellipsis
  }

  function SummaryLines(turns: seq<Turn>): (lines: seq<string>)
    ensures |lines| == |turns|
  {
    if turns == [] then [] else SummaryLines(turns[..|turns| - 1]) + [SummaryLine(turns[|turns| - 1])]
  }

  function Summary(discarded: seq<Turn>): string {
    "[Compacted " + Decimal(|discarded|) + " earlier turns]\n" + Join(SummaryLines(discarded), "\n")
  }

  function Compacted(history: seq<Turn>, now: u64): seq<Turn> {
    if |history| <= RETAIN_TAIL then history
    else
      var splitAt := |history| - RETAIN_TAIL;
      [Turn(System, Summary(history[..splitAt]), now)] + history[splitAt..]
  }

  lemma PairedSuffix(history: seq<Turn>, from: nat)
    requires Paired(history) && from % 2 == 0 && from <= |history|
    ensures Paired(history[from..])
  {
    assert forall i :: 0 <= i < |history| - from ==> history[from..][i] == history[from + i];
  }

  lemma LastSixArePaired(history: seq<Turn>)
    requires Shaped(history) && |history| > RETAIN_TAIL
    ensures Paired(history[|history| - RETAIN_TAIL..])
  {
    hide Paired;
    if Paired(history) {
      PairedIsEven(history);
      PairedSuffix(history, |history| - RETAIN_TAIL);
    } else {
      PairedIsEven(history[1..]);
      PairedSuffix(history[1..], |history| - RETAIN_TAIL - 1);
      assert history[1..][|history| - RETAIN_TAIL - 1..] == history[|history| - RETAIN_TAIL..];
    }
  }

  lemma PairedIsEven(history: seq<Turn>)
    requires Paired(history)
    ensures |history| % 2 == 0
  {
  }

  /** Compaction keeps the shape of a history, the last six turns untouched: the cut falls between two pairs. */
  lemma CompactionKeepsShape(history: seq<Turn>, now: u64)
    requires Shaped(history)
    ensures Shaped(Compacted(history, now))
    ensures |history| > RETAIN_TAIL ==>
              Compacted(history, now)[1..] == history[|history| - RETAIN_TAIL..] && Paired(Compacted(history, now)[1..])
  {
    hide Summary, Paired;
    if |history| > RETAIN_TAIL {
      LastSixArePaired(history);
      assert Compacted(history, now)[1..] == history[|history| - RETAIN_TAIL..];
    }
  }

  /** One recorded exchange keeps the shape of a history. */
  lemma ExchangeKeepsShape(history: seq<Turn>, user: Turn, assistant: Turn)
    requires Shaped(history) && user.role.User? && assistant.role.Assistant?
    ensures Shaped(history + [user, assistant])
  {
    if !Paired(history) {
      assert (history + [user, assistant])[1..] == history[1..] + [user, assistant];
    }
  }

  class History {
    var turns: seq<Turn>

    constructor ()
      ensures turns == []
    {
      turns := [];
    }

    /** Keeps the last six turns and replaces the older ones by one System turn that lists them. */
    method Compact(now: u64) returns (r: Option<CompactResult>)
      modifies this
      ensures turns == Compacted(old(turns), now)
      ensures r == if |old(turns)| <= RETAIN_TAIL then None
                   else Some(CompactResult(|old(turns)| - RETAIN_TAIL, |turns|))
    {
      if |turns| <= RETAIN_TAIL {
        return None;
      }
      var splitAt := |turns| - RETAIN_TAIL;
      var discarded := turns[..splitAt];
      turns := turns[splitAt..];
      var lines: seq<string> := [];
      for i := 0 to |discarded|
        invariant lines == SummaryLines(discarded[..i])
      {
        assert discarded[..i + 1][..i] == discarded[..i];
        var turn := discarded[i];
        var preview := if |turn.content| > PREVIEW_CHARS then turn.content[..PREVIEW_CHARS] else turn.content;
        var ellipsis := if |turn.content| > PREVIEW_CHARS then "..." else "";
        lines := lines + ["- " + RoleName(turn.role) + ": " + preview + ellipsis];
      }
      assert discarded[..|discarded|] == discarded;
      var summary := "[Compacted " + Decimal(|discarded|) + " earlier turns]\n" + Join(lines, "\n");
      turns := [Turn(System, summary, now)] + turns;
      r := Some(CompactResult(|discarded|, |turns|));
    }
  }
}
