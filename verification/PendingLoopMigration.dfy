/**
 The read-through store that moves pending-loop snapshots from a prior backend to the primary one
 on first access. Either backend may fail; a failed write leaves it as it was.
 */
module PendingLoopMigration {
  import opened Prelude

  datatype Snapshot = Snapshot(runId: string, loopStateJson: string)

  type Table = map<string, Snapshot>

  datatype Backends = Backends(primary: Table, prior: Table)

  datatype BackendError = PrimaryUnreadable | PriorUnreadable | PrimaryUnwritable

  /** Which of the backend calls of one operation succeed. */
  datatype Faults = Faults(primaryRead: bool, priorRead: bool, primaryWrite: bool, priorClear: bool)

  const RELIABLE := Faults(true, true, true, true)

  function Get(t: Table, id: string): Option<Snapshot> {
    if id in t then Some(t[id]) else None
  }

  function Put(t: Table, id: string, s: Option<Snapshot>): Table {
    match s case Some(v) => t[id := v] case None => t - {id}
  }

  /** What a session's pending loop is: the primary entry, else the prior one. */
  function View(b: Backends, id: string): Option<Snapshot> {
    if id in b.primary then Some(b.primary[id]) else Get(b.prior, id)
  }

  class MigratingBackend {
    var primary: Table
    var prior: Table

    function State(): Backends
      reads this
    {
      Backends(primary, prior)
    }

    constructor (primary: Table, prior: Table)
      ensures this.primary == primary && this.prior == prior
    {
      this.primary, this.prior := primary, prior;
    }

    /**
     A load that succeeds returns the merged view. It moves the view of no other session; its own
     session's view changes exactly when a promotion fails and the clearing that follows succeeds,
     and then the snapshot is lost.
     */
    method Load(id: string, faults: Faults) returns (r: Result<Option<Snapshot>, BackendError>)
      modifies this
      ensures r.Ok? <==> faults.primaryRead && (id in old(primary) || faults.priorRead)
      ensures r.Ok? ==> r.value == View(old(State()), id)
      ensures forall other :: other != id ==> View(State(), other) == View(old(State()), other)
      ensures View(State(), id) == View(old(State()), id) <==>
              !(r.Ok? && id !in old(primary) && id in old(prior) && !faults.primaryWrite && faults.priorClear)
      ensures View(State(), id) != View(old(State()), id) ==> View(State(), id).None?
      ensures State() == Migrated(old(State()), id, r.Ok?, faults)
    {
      if !faults.primaryRead {
        return Err(PrimaryUnreadable);
      }
      if id in primary {
        return Ok(Some(primary[id]));
      }
      if !faults.priorRead {
        return Err(PriorUnreadable);
      }
      var priorSnapshot := Get(prior, id);
      if priorSnapshot.Some? {
        if faults.primaryWrite {
          primary := primary[id := priorSnapshot.value];
        }
        if faults.priorClear {
          prior := prior - {id};
        }
      }
      r := Ok(priorSnapshot);
    }

    /** A save goes to the primary backend alone; saving `None` clears. */
    method Save(id: string, snapshot: Option<Snapshot>, faults: Faults) returns (r: Result<(), BackendError>)
      modifies this
      ensures r.Ok? <==> faults.primaryWrite
      ensures State() == if r.Ok? then Saved(old(State()), id, snapshot) else old(State())
      ensures r.Ok? ==> (View(State(), id) == snapshot <==> snapshot.Some? || id !in old(prior))
      ensures forall other :: other != id ==> View(State(), other) == View(old(State()), other)
    {
      if !faults.primaryWrite {
        return Err(PrimaryUnwritable);
      }
      primary := Put(primary, id, snapshot);
      r := Ok(());
    }
  }

  function Migrated(b: Backends, id: string, read: bool, faults: Faults): Backends {
    if !read || id in b.primary || id !in b.prior then b
    else
      Backends(if faults.primaryWrite then b.primary[id := b.prior[id]] else b.primary,
               if faults.priorClear then b.prior - {id} else b.prior)
  }

  function Saved(b: Backends, id: string, snapshot: Option<Snapshot>): Backends {
    Backends(Put(b.primary, id, snapshot), b.prior)
  }

  // ---------- runs over reliable backends ----------

  datatype Operation = LoadOp(id: string) | SaveOp(id: string, snapshot: Option<Snapshot>)

  function Apply(b: Backends, op: Operation): Backends {
    match op
    case LoadOp(id) => Migrated(b, id, true, RELIABLE)
    case SaveOp(id, snapshot) => Saved(b, id, snapshot)
  }

  function After(b: Backends, ops: seq<Operation>): Backends {
    if ops == [] then b else Apply(After(b, ops[..|ops| - 1]), ops[|ops| - 1])
  }

  /** The one-table specification: the most recent save of a session, else what was there before. */
  function MostRecent(start: Option<Snapshot>, ops: seq<Operation>, id: string): Option<Snapshot> {
    if ops == [] then start
    else
      var last := ops[|ops| - 1];
      if last.SaveOp? && last.id == id then last.snapshot else MostRecent(start, ops[..|ops| - 1], id)
  }

  /** A load after this run would return the most recent save, clears included. */
  predicate Faithful(b: Backends, ops: seq<Operation>, id: string) {
    View(After(b, ops), id) == MostRecent(View(b, id), ops, id)
  }

  /** Nothing ever enters the prior backend, so a session that has left it stays out. */
  lemma {:induction false} PriorOnlyShrinks(b: Backends, ops: seq<Operation>)
    ensures After(b, ops).prior.Keys <= b.prior.Keys
  {
    if ops != [] {
      PriorOnlyShrinks(b, ops[..|ops| - 1]);
    }
  }

  lemma {:induction false} FaithfulOncePriorIsEmpty(b: Backends, ops: seq<Operation>, id: string)
    requires id !in b.prior
    ensures Faithful(b, ops, id)
  {
    if ops != [] {
      FaithfulOncePriorIsEmpty(b, ops[..|ops| - 1], id);
      PriorOnlyShrinks(b, ops[..|ops| - 1]);
    }
  }

  lemma ClearThenLoadResurfaces(b: Backends, id: string)
    requires id in b.prior
    ensures !Faithful(b, [SaveOp(id, None)], id)
    ensures View(After(b, [SaveOp(id, None)]), id) == Some(b.prior[id])
  {
    var ops := [SaveOp(id, None)];
    assert ops[..0] == [] && ops[..|ops| - 1] == [];
    assert After(b, ops) == Saved(b, id, None);
  }

  /**
   The two tables behave as one for a session, in every run, exactly when the prior backend holds
   nothing for it; otherwise a clear followed by a load brings the old snapshot back.
   */
  lemma OneTableIffPriorIsEmpty(b: Backends, id: string)
    ensures (forall ops :: Faithful(b, ops, id)) <==> id !in b.prior
  {
    if id in b.prior {
      ClearThenLoadResurfaces(b, id);
    } else {
      forall ops
        ensures Faithful(b, ops, id)
      {
        FaithfulOncePriorIsEmpty(b, ops, id);
      }
    }
  }

  /**
   Once a session has been loaded while the primary backend held nothing for it, every later load,
   after any further run, returns the most recent save, clears included.
   */
  lemma FaithfulAfterFirstLoad(b: Backends, ops: seq<Operation>, id: string)
    requires id !in b.primary
    ensures Faithful(Apply(b, LoadOp(id)), ops, id)
    ensures View(Apply(b, LoadOp(id)), id) == View(b, id)
  {
    FaithfulOncePriorIsEmpty(Apply(b, LoadOp(id)), ops, id);
  }

  /** A run without clears of a session is faithful to it from any state. */
  lemma {:induction false} FaithfulWithoutClears(b: Backends, ops: seq<Operation>, id: string)
    requires forall i :: 0 <= i < |ops| && ops[i].SaveOp? && ops[i].id == id ==> ops[i].snapshot.Some?
    ensures Faithful(b, ops, id)
  {
    if ops != [] {
      FaithfulWithoutClears(b, ops[..|ops| - 1], id);
    }
  }

  // ---------- the exact condition, run by run ----------

  /** Every load of the session so far found the primary backend occupied, so none has moved the prior entry. */
  predicate NeverMoved(b: Backends, ops: seq<Operation>, id: string) {
    forall j :: 0 <= j < |ops| && ops[j] == LoadOp(id) ==> MostRecent(Get(b.primary, id), ops[..j], id).Some?
  }

  /**
   The `k`-th operation clears the session before its prior entry was moved, and nothing is saved for it
   afterwards.
   */
  predicate Uncovers(ops: seq<Operation>, k: nat, b: Backends, id: string)
    requires k < |ops|
  {
    && ops[k] == SaveOp(id, None) && NeverMoved(b, ops[..k], id)
    && forall j :: k < j < |ops| ==> !(ops[j].SaveOp? && ops[j].id == id)
  }

  lemma {:induction false} PriorEntryStays(b: Backends, ops: seq<Operation>, id: string)
    ensures id in After(b, ops).prior <==> id in b.prior && NeverMoved(b, ops, id)
    ensures id in After(b, ops).prior ==>
              && After(b, ops).prior[id] == b.prior[id]
              && Get(After(b, ops).primary, id) == MostRecent(Get(b.primary, id), ops, id)
  {
    if ops != [] {
      var n := |ops| - 1;
      PriorEntryStays(b, ops[..n], id);
      assert forall j :: 0 <= j < n ==> ops[..n][j] == ops[j] && ops[..n][..j] == ops[..j];
    }
  }

  /**
   The exact condition for any run over reliable backends: a load afterwards returns the most recent save
   unless the last save of the session is a clear that came before any load moved its prior entry.
   */
  lemma {:induction false} FaithfulExactly(b: Backends, ops: seq<Operation>, id: string)
    ensures Faithful(b, ops, id) <==> !(id in b.prior && exists k :: 0 <= k < |ops| && Uncovers(ops, k, b, id))
  {
    if ops != [] {
      var n := |ops| - 1;
      var front, last := ops[..n], ops[n];
      FaithfulExactly(b, front, id);
      PriorEntryStays(b, front, id);
      if last.SaveOp? && last.id == id {
        assert last.snapshot.None? && NeverMoved(b, front, id) ==> Uncovers(ops, n, b, id);
        assert forall k :: 0 <= k < n ==> !Uncovers(ops, k, b, id);
      } else {
        forall k | 0 <= k < n
          ensures Uncovers(ops, k, b, id) <==> Uncovers(front, k, b, id)
        {
          assert front[..k] == ops[..k] && forall j :: k < j < n ==> front[j] == ops[j];
        }
      }
    }
  }

  // ---------- runs over backends that may fail ----------

  /** An operation and which of its backend calls succeed. */
  datatype Call = Call(op: Operation, faults: Faults)

  function ApplyCall(b: Backends, c: Call): Backends {
    match c.op
    case LoadOp(id) => Migrated(b, id, c.faults.primaryRead && (id in b.primary || c.faults.priorRead), c.faults)
    case SaveOp(id, snapshot) => if c.faults.primaryWrite then Saved(b, id, snapshot) else b
  }

  function AfterCalls(b: Backends, calls: seq<Call>): Backends {
    if calls == [] then b else ApplyCall(AfterCalls(b, calls[..|calls| - 1]), calls[|calls| - 1])
  }

  /** A save of the session that succeeds. */
  predicate Saves(c: Call, id: string) {
    c.op.SaveOp? && c.op.id == id && c.faults.primaryWrite
  }

  function MostRecentCall(start: Option<Snapshot>, calls: seq<Call>, id: string): Option<Snapshot> {
    if calls == [] then start
    else
      var last := calls[|calls| - 1];
      if Saves(last, id) then last.op.snapshot else MostRecentCall(start, calls[..|calls| - 1], id)
  }

  /** A load that reads the prior entry, fails to promote it and clears it. */
  predicate Loses(b: Backends, c: Call, id: string) {
    && c.op == LoadOp(id) && id !in b.primary && id in b.prior
    && c.faults.primaryRead && c.faults.priorRead && !c.faults.primaryWrite && c.faults.priorClear
  }

  /** The `k`-th call goes wrong for the session: it clears over a prior entry, or loses what was last saved. */
  predicate GoesWrong(b: Backends, calls: seq<Call>, k: nat, id: string)
    requires k < |calls|
  {
    var before := AfterCalls(b, calls[..k]);
    || (Saves(calls[k], id) && calls[k].op.snapshot.None? && id in before.prior)
    || (Loses(before, calls[k], id) && MostRecentCall(View(b, id), calls[..k], id).Some?)
  }

  /** And no later call saves or loses the session's snapshot. */
  predicate StaysWrong(b: Backends, calls: seq<Call>, k: nat, id: string)
    requires k < |calls|
  {
    && GoesWrong(b, calls, k, id)
    && forall j :: k < j < |calls| ==> !Saves(calls[j], id) && !Loses(AfterCalls(b, calls[..j]), calls[j], id)
  }

  lemma CallChangesView(b: Backends, c: Call, id: string)
    ensures View(ApplyCall(b, c), id) ==
            if Saves(c, id) then (if c.op.snapshot.Some? then c.op.snapshot else Get(b.prior, id))
            else if Loses(b, c, id) then None
            else View(b, id)
  {
  }

  lemma StaysWrongInFront(b: Backends, calls: seq<Call>, k: nat, id: string)
    requires k < |calls| - 1
    requires var last := calls[|calls| - 1];
             !Saves(last, id) && !Loses(AfterCalls(b, calls[..|calls| - 1]), last, id)
    ensures StaysWrong(b, calls, k, id) <==> StaysWrong(b, calls[..|calls| - 1], k, id)
  {
    hide AfterCalls, Saves, Loses, View, MostRecentCall;
    var front := calls[..|calls| - 1];
    assert front[..k] == calls[..k] && front[k] == calls[k];
    assert forall j :: k < j < |front| ==> front[j] == calls[j] && front[..j] == calls[..j];
  }

  /**
   The exact condition for any run whatever fails: a load afterwards would return the most recent save that
   succeeded, unless some call goes wrong and nothing later replaces what it left.
   */
  lemma {:induction false} FaithfulDespiteFaultsExactly(b: Backends, calls: seq<Call>, id: string)
    ensures View(AfterCalls(b, calls), id) == MostRecentCall(View(b, id), calls, id) <==>
            !exists k :: 0 <= k < |calls| && StaysWrong(b, calls, k, id)
  {
    hide ApplyCall, View;
    if calls != [] {
      var n := |calls| - 1;
      var front, last := calls[..n], calls[n];
      FaithfulDespiteFaultsExactly(b, front, id);
      CallChangesView(AfterCalls(b, front), last, id);
      if Saves(last, id) || Loses(AfterCalls(b, front), last, id) {
        assert forall k :: 0 <= k < n ==> !StaysWrong(b, calls, k, id);
        assert StaysWrong(b, calls, n, id) <==> GoesWrong(b, calls, n, id);
      } else {
        assert !GoesWrong(b, calls, n, id);
        forall k | 0 <= k < n
          ensures StaysWrong(b, calls, k, id) <==> StaysWrong(b, front, k, id)
        {
          StaysWrongInFront(b, calls, k, id);
        }
      }
    }
  }
}
