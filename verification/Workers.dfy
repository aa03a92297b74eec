/** Dispatch to workers: a registry kept sorted by priority, and the first entry that supports a request. */
module Workers {
  import opened Prelude

  /** A priority is a `u8`; a worker is whatever was registered with it. */
  type Priority = p: nat | p < 256

  datatype Entry<W> = Entry(priority: Priority, worker: W)

  /** A stable sort by descending priority moves the newest entry before every entry of lower priority only. */
  function Placed<W>(entries: seq<Entry<W>>, e: Entry<W>): seq<Entry<W>> {
    if entries == [] || e.priority > entries[0].priority then [e] + entries
    else [entries[0]] + Placed(entries[1..], e)
  }

  /** The registry after a sequence of registrations. */
  function Registry<W>(registered: seq<Entry<W>>): seq<Entry<W>> {
    if registered == [] then [] else Placed(Registry(registered[..|registered| - 1]), registered[|registered| - 1])
  }

  predicate Descending<W>(entries: seq<Entry<W>>) {
    forall i, j :: 0 <= i < j < |entries| ==> entries[i].priority >= entries[j].priority
  }

  /** The entries of one priority, in order. */
  function Of<W>(entries: seq<Entry<W>>, p: Priority): seq<Entry<W>> {
    if entries == [] then [] else (if entries[0].priority == p then [entries[0]] else []) + Of(entries[1..], p)
  }

  lemma {:induction false} SeqAssoc<T>(a: seq<T>, b: seq<T>, c: seq<T>)
    ensures (a + b) + c == a + (b + c)
  {
  }

  lemma {:induction false} OfConcat<W>(a: seq<Entry<W>>, b: seq<Entry<W>>, p: Priority)
    ensures Of(a + b, p) == Of(a, p) + Of(b, p)
  {
    if a == [] {
      assert a + b == b;
    } else {
      OfConcat(a[1..], b, p);
      assert (a + b)[1..] == a[1..] + b && (a + b)[0] == a[0];
      SeqAssoc(if a[0].priority == p then [a[0]] else [], Of(a[1..], p), Of(b, p));
    }
  }

  lemma {:induction false} NoneOf<W>(entries: seq<Entry<W>>, p: Priority)
    requires forall i :: 0 <= i < |entries| ==> entries[i].priority != p
    ensures Of(entries, p) == []
  {
    if entries != [] {
      NoneOf(entries[1..], p);
    }
  }

  lemma {:induction false} PlacedAt<W>(entries: seq<Entry<W>>, e: Entry<W>, i: nat)
    requires i <= |entries| && Descending(entries)
    requires i > 0 ==> entries[i - 1].priority >= e.priority
    requires i < |entries| ==> entries[i].priority < e.priority
    ensures Placed(entries, e) == entries[..i] + [e] + entries[i..]
  {
    if i > 0 {
      assert entries[0].priority >= e.priority;
      PlacedAt(entries[1..], e, i - 1);
      var head, middle, tail := [entries[0]], entries[1..i], entries[i..];
      assert entries[1..][..i - 1] == middle && entries[1..][i - 1..] == tail && entries[..i] == head + middle;
      SeqAssoc(head, middle + [e], tail);
      SeqAssoc(head, middle, [e]);
    } else {
      assert entries[..0] + [e] + entries[0..] == [e] + entries;
    }
  }

  /** The first place from which on every entry has lower priority. */
  lemma {:induction false} Place<W>(entries: seq<Entry<W>>, e: Entry<W>) returns (i: nat)
    requires Descending(entries)
    ensures i <= |entries| && Placed(entries, e) == entries[..i] + [e] + entries[i..]
    ensures forall j :: 0 <= j < i ==> entries[j].priority >= e.priority
    ensures forall j :: i <= j < |entries| ==> entries[j].priority < e.priority
  {
    i := 0;
    while i < |entries| && entries[i].priority >= e.priority
      invariant 0 <= i <= |entries|
      invariant forall j :: 0 <= j < i ==> entries[j].priority >= e.priority
    {
      i := i + 1;
    }
    PlacedAt(entries, e, i);
  }

  lemma {:induction false} PlacedKeepsOrder<W>(entries: seq<Entry<W>>, e: Entry<W>)
    requires Descending(entries)
    ensures Descending(Placed(entries, e))
    ensures forall x :: x in Placed(entries, e) <==> x == e || x in entries
  {
    hide Placed;
    var i := Place(entries, e);
    assert entries == entries[..i] + entries[i..];
  }

  lemma {:induction false} PlacedAppends<W>(entries: seq<Entry<W>>, e: Entry<W>, p: Priority)
    requires Descending(entries)
    ensures Of(Placed(entries, e), p) == Of(entries, p) + (if e.priority == p then [e] else [])
  {
    if entries == [] || e.priority > entries[0].priority {
      assert ([e] + entries)[1..] == entries;
      if e.priority == p {
        NoneOf(entries, p);
        assert [e] + [] == [e] == [] + [e];
      } else {
        assert [] + Of(entries, p) == Of(entries, p) == Of(entries, p) + [];
      }
    } else {
      var rest := Placed(entries[1..], e);
      PlacedAppends(entries[1..], e, p);
      assert ([entries[0]] + rest)[1..] == rest;
      var head, tail := if entries[0].priority == p then [entries[0]] else [], if e.priority == p then [e] else [];
      SeqAssoc(head, Of(entries[1..], p), tail);
    }
  }

  /**
   After any registrations the registry is sorted by descending priority, and within each priority it
   holds exactly the entries registered with it, in registration order.
   */
  lemma {:induction false} RegistryIsSorted<W>(registered: seq<Entry<W>>)
    ensures Descending(Registry(registered))
    ensures forall p :: Of(Registry(registered), p) == Of(registered, p)
  {
    if registered != [] {
      var front, last := registered[..|registered| - 1], registered[|registered| - 1];
      RegistryIsSorted(front);
      PlacedKeepsOrder(Registry(front), last);
      assert registered == front + [last];
      forall p: Priority
        ensures Of(Registry(registered), p) == Of(registered, p)
      {
        PlacedAppends(Registry(front), last, p);
        OfConcat(front, [last], p);
      }
    }
  }

  // ---------- dispatch ----------

  /** The first supporting entry, as `Iterator::find`. */
  function First<W>(entries: seq<Entry<W>>, supports: W -> bool): Option<Entry<W>> {
    if entries == [] then None else if supports(entries[0].worker) then Some(entries[0])
        else First(entries[1..], supports)
  }

  lemma {:induction false} FirstFound<W>(entries: seq<Entry<W>>, supports: W -> bool)
    ensures First(entries, supports).None? <==> forall e :: e in entries ==> !supports(e.worker)
    ensures First(entries, supports).Some? ==>
              var e := First(entries, supports).value; e in entries && supports(e.worker)
  {
    if entries != [] && !supports(entries[0].worker) {
      FirstFound(entries[1..], supports);
      assert entries == [entries[0]] + entries[1..];
    }
  }

  /** In a descending list the first supporting entry is the first of the highest supported priority. */
  lemma {:induction false} FirstIsHighest<W>(entries: seq<Entry<W>>, supports: W -> bool)
    requires Descending(entries)
    ensures First(entries, supports).Some? ==>
              var e := First(entries, supports).value;
              && First(Of(entries, e.priority), supports) == Some(e)
              && forall other :: other in entries && supports(other.worker) ==> other.priority <= e.priority
  {
    if entries != [] {
      assert entries == [entries[0]] + entries[1..];
      if supports(entries[0].worker) {
        assert forall other :: other in entries ==> other.priority <= entries[0].priority;
      } else {
        FirstIsHighest(entries[1..], supports);
        var found := First(entries[1..], supports);
        if found.Some? {
          var rest := Of(entries[1..], found.value.priority);
          assert [] + rest == rest && ([entries[0]] + rest)[1..] == rest;
        }
      }
    }
  }

  lemma {:induction false} SameMembers<W>(registered: seq<Entry<W>>)
    ensures forall x :: x in Registry(registered) <==> x in registered
  {
    if registered != [] {
      var front := registered[..|registered| - 1];
      SameMembers(front);
      RegistryIsSorted(front);
      PlacedKeepsOrder(Registry(front), registered[|registered| - 1]);
      assert registered == front + [registered[|registered| - 1]];
    }
  }

  /**
   Dispatch finds a worker exactly when one that supports the request was ever registered; it has the
   highest priority among them, and is the earliest registered of that priority.
   */
  lemma DispatchPicksBest<W>(registered: seq<Entry<W>>, supports: W -> bool)
    ensures First(Registry(registered), supports).None? <==> forall e :: e in registered ==> !supports(e.worker)
    ensures First(Registry(registered), supports).Some? ==>
              var e := First(Registry(registered), supports).value;
              && First(Of(registered, e.priority), supports) == Some(e)
              && forall other :: other in registered && supports(other.worker) ==> other.priority <= e.priority
  {
    hide Registry, First, Of;
    var registry := Registry(registered);
    RegistryIsSorted(registered);
    SameMembers(registered);
    FirstFound(registry, supports);
    FirstIsHighest(registry, supports);
    var found := First(registry, supports);
    assert found.None? <==> forall e :: e in registry ==> !supports(e.worker);
    assert forall e :: e in registered ==> e in registry;
    assert forall e :: e in registry ==> e in registered;
    if found.Some? {
      assert found.value in registered;
    } else {
      assert forall e :: e in registered ==> !supports(e.worker);
    }
  }

  // ---------- the runtime's registry ----------

  class Runtime<W> {
    var workers: seq<Entry<W>>
    ghost var registered: seq<Entry<W>>

    ghost predicate Valid()
      reads this
    {
      workers == Registry(registered)
    }

    constructor ()
      ensures Valid() && registered == []
    {
      workers, registered := [], [];
    }

    /** `register_worker`: the new entry is pushed and sorted into place, behind its equals. */
    method RegisterWorker(priority: Priority, worker: W)
      requires Valid()
      modifies this
      ensures Valid() && registered == old(registered) + [Entry(priority, worker)]
    {
      var entry := Entry(priority, worker);
      registered := registered + [entry];
      assert registered[..|registered| - 1] == old(registered);
      RegistryIsSorted(old(registered));
      workers := SortInto(workers, entry);
    }

    /** `execute_with_worker`: what the picked worker makes of the request, or nothing. */
    method ExecuteWithWorker<R>(supports: W -> bool, execute: W -> R) returns (result: Option<R>)
      requires Valid()
      ensures var picked := First(Registry(registered), supports);
              result == if picked.Some? then Some(execute(picked.value.worker)) else None
    {
      for i := 0 to |workers|
        invariant First(workers, supports) == First(workers[i..], supports)
      {
        if supports(workers[i].worker) {
          return Some(execute(workers[i].worker));
        }
      }
      result := None;
    }
  }

  /** The insertion a stable sort makes of one new last entry. */
  method SortInto<W>(entries: seq<Entry<W>>, e: Entry<W>) returns (sorted: seq<Entry<W>>)
    requires Descending(entries)
    ensures sorted == Placed(entries, e)
  {
    var i := |entries|;
    while i > 0 && entries[i - 1].priority < e.priority
      invariant 0 <= i <= |entries|
      invariant forall j :: i <= j < |entries| ==> entries[j].priority < e.priority
    {
      i := i - 1;
    }
    PlacedAt(entries, e, i);
    sorted := entries[..i] + [e] + entries[i..];
  }
}
