/** Transaction storage as it works: rows deleted and inserted in place, inside a database
    transaction that its caller commits or rolls back. */
module TransactionStores {
  import opened Options
  import opened Sorting
  import opened Records
  import opened Objects
  import opened EnginePass
  import opened Tables

  datatype SaveError =
    | NoCredential
    | BadRevision
    | BlankId
    | StaleClaim
    | AlreadyExists
    | IdentityImmutable
    | StaleRevision
    | DuplicateStepId

  /** The claim and the revision a fenced write is made under. */
  datatype Fence = Fence(revision: nat, queueItem: nat, token: nat)

  function HeaderOf(v: Snapshot, revision: nat, queueItem: Option<nat>, token: nat): Header {
    Header(v.reference, v.identity, v.status, v.retryCount, v.category, v.disposition, v.failureCode, revision, queueItem, token)
  }

  /** The header after a write: a missing row starts at revision 0, and every write adds one. */
  function NextHeader(st: Store, id: nat, v: Snapshot, fence: Option<Fence>): Header {
    var was := if id in st.headers then st.headers[id] else HeaderOf(v, 0, None, 0);
    if fence.Some? then HeaderOf(v, was.revision + 1, Some(fence.value.queueItem), fence.value.token)
    else HeaderOf(v, was.revision + 1, was.queueItem, was.claimToken)
  }

  function HeaderRefusal(st: Store, id: nat, v: Snapshot, fence: Option<Fence>): Option<SaveError> {
    if id in st.headers && st.headers[id].identity != v.identity then Some(IdentityImmutable)
    else if fence.Some? && fence.value.revision != (if id in st.headers then st.headers[id].revision else 0) then Some(StaleRevision)
    else None
  }

  /** Why a write of the listed step rows would be refused. */
  function Refusal(st: Store, id: nat, v: Snapshot, rows: seq<StepRow>, fence: Option<Fence>): Option<SaveError> {
    if HeaderRefusal(st, id, v, fence).Some? then HeaderRefusal(st, id, v, fence)
    else if !DistinctKeys(rows) then Some(DuplicateStepId)
    else None
  }

  class TransactionStore {
    var headers: map<nat, Header>
    var steps: seq<StepRecord>
    var exceptions: seq<ExcRecord>
    var history: map<nat, seq<Entry>>

    constructor ()
      ensures State() == Store(map[], [], [], map[])
    {
      headers, steps, exceptions, history := map[], [], [], map[];
    }

    function State(): Store
      reads this
    {
      Store(headers, steps, exceptions, history)
    }

    method Restore(saved: Store)
      modifies this
      ensures State() == saved
    {
      headers, steps, exceptions, history := saved.headers, saved.steps, saved.exceptions, saved.history;
    }

    method InsertExceptions(id: nat, row: StepRow)
      modifies this`exceptions
      ensures exceptions == old(exceptions) + ExcRecordsOf(id, row)
    {
      for j := 0 to |row.exceptions|
        invariant exceptions == old(exceptions) + ExcRecordsOf(id, row)[..j]
      {
        exceptions := exceptions + [ExcRecord(id, row.name, row.order, row.exceptions[j])];
      }
    }

    /** Insert the steps with their exceptions, one row at a time; a step id must be new. */
    method InsertSteps(id: nat, rows: seq<StepRow>) returns (ok: bool)
      modifies this`steps, this`exceptions
      ensures ok == DistinctKeys(rows)
      ensures ok ==> steps == old(steps) + StepRecords(id, rows)
      ensures ok ==> exceptions == old(exceptions) + ExcRecords(id, rows)
    {
      var ids: set<Key> := {};
      for i := 0 to |rows|
        invariant DistinctKeys(rows[..i])
        invariant ids == set j | 0 <= j < i :: rows[j].StepKey()
        invariant steps == old(steps) + StepRecords(id, rows[..i])
        invariant exceptions == old(exceptions) + ExcRecords(id, rows[..i])
      {
        var row := rows[i];
        NextRow(id, rows, i);
        if row.StepKey() in ids {
          return false;
        }
        ids := ids + {row.StepKey()};
        steps := steps + [StepRecord(id, row.name, row.order, row.status)];
        InsertExceptions(id, row);
      }
      assert rows[..|rows|] == rows;
      ok := true;
    }

    method InsertHistory(id: nat, entries: seq<Entry>)
      modifies this`history
      ensures history == old(history)[id := Merge(StoredHistory(old(State()), id), entries)]
    {
      ghost var was := StoredHistory(State(), id);
      if id !in history {
        history := history[id := []];
      }
      for i := 0 to |entries|
        invariant id in history && history == old(history)[id := Merge(was, entries[..i])]
      {
        assert entries[..i + 1][..i] == entries[..i];
        history := history[id := InsertOrIgnore(history[id], entries[i])];
      }
      assert entries[..|entries|] == entries;
    }

    /** The header row: created if missing, then updated under the expected revision. */
    method WriteHeader(id: nat, v: Snapshot, fence: Option<Fence>) returns (r: Result<nat, SaveError>)
      modifies this`headers
      ensures match HeaderRefusal(old(State()), id, v, fence)
              case Some(e) => r == Failure(e)
              case None =>
                var h := NextHeader(old(State()), id, v, fence);
                r == Success(h.revision) && headers == old(headers)[id := h]
    {
      if id in headers && headers[id].identity != v.identity {
        return Failure(IdentityImmutable);
      }
      if id !in headers {
        headers := headers[id := HeaderOf(v, 0, None, 0)];
      }
      var h := headers[id];
      if fence.Some? && h.revision != fence.value.revision {
        return Failure(StaleRevision);
      }
      var revision := h.revision + 1;
      headers := headers[id := if fence.Some? then HeaderOf(v, revision, Some(fence.value.queueItem), fence.value.token)
                               else HeaderOf(v, revision, h.queueItem, h.claimToken)];
      r := Success(revision);
    }

    /** `_write_transaction_rows`. A refused write may leave half of it behind: the caller
        rolls back. */
    method WriteTransactionRows(id: nat, tx: Transaction, fence: Option<Fence>) returns (r: Result<nat, SaveError>)
      requires this as object != tx
      modifies this
      ensures var v := old(tx.View());
              match Refusal(old(State()), id, v, old(Rows(tx.steps)), fence)
              case Some(e) => r == Failure(e)
              case None =>
                var h := NextHeader(old(State()), id, v, fence);
                r == Success(h.revision) && State() == Write(old(State()), id, h, old(Rows(tx.steps)), v.history)
    {
      var v, rows := tx.View(), Rows(tx.steps);
      r := WriteHeader(id, v, fence);
      if r.Failure? {
        return;
      }
      steps := Filter(steps, StepNotOf(id));
      exceptions := Filter(exceptions, ExcNotOf(id));
      var ok := InsertSteps(id, rows);
      if !ok {
        return Failure(DuplicateStepId);
      }
      InsertHistory(id, v.history);
    }
  }

  lemma NextRow(id: nat, rows: seq<StepRow>, i: nat)
    requires i < |rows|
    ensures DistinctKeys(rows[..i + 1]) <==>
            DistinctKeys(rows[..i]) && forall j :: 0 <= j < i ==> rows[j].StepKey() != rows[i].StepKey()
    ensures StepRecords(id, rows[..i + 1]) ==
            StepRecords(id, rows[..i]) + [StepRecord(id, rows[i].name, rows[i].order, rows[i].status)]
    ensures ExcRecords(id, rows[..i + 1]) == ExcRecords(id, rows[..i]) + ExcRecordsOf(id, rows[i])
    ensures !DistinctKeys(rows[..i + 1]) ==> !DistinctKeys(rows)
  {
    var a, b := rows[..i], rows[..i + 1];
    assert b == a + [rows[i]] && b[..i] == a;
    if DistinctKeys(b) {
      forall j | 0 <= j < i ensures rows[j].StepKey() != rows[i].StepKey() {
        assert b[j].StepKey() != b[i].StepKey();
      }
    } else {
      var j, k :| 0 <= j < k < |b| && b[j].StepKey() == b[k].StepKey();
      assert rows[j].StepKey() == rows[k].StepKey();
    }
  }

  // ---------- The round trip ----------

  lemma {:induction false} InsertRows(s: Step, sorted: seq<Step>)
    ensures Rows(Insert(s, sorted)) == InsertBy(RowOrder, s.Row(), Rows(sorted))
  {
    if sorted != [] {
      var n := |sorted| - 1;
      assert Rows(sorted)[..n] == Rows(sorted[..n]);
      InsertRows(s, sorted[..n]);
    }
  }

  /** Sorting rows is sorting the steps they came from. */
  lemma {:induction false} SortedRows(steps: seq<Step>)
    ensures SortRows(Rows(steps)) == Rows(Sorted(steps))
  {
    if steps != [] {
      var n := |steps| - 1;
      assert Rows(steps)[..n] == Rows(steps[..n]);
      SortedRows(steps[..n]);
      InsertRows(steps[n], Sorted(steps[..n]));
    }
  }

  /** A load after a save returns the saved snapshot exactly when the stored history was a
      prefix of the saved one. */
  lemma RoundTrip(st: Store, id: nat, tx: Transaction, fence: Option<Fence>)
    requires Refusal(st, id, tx.View(), Rows(tx.steps), fence).None?
    requires Numbered(StoredHistory(st, id)) && Numbered(tx.history)
    ensures var after := Write(st, id, NextHeader(st, id, tx.View(), fence), Rows(tx.steps), tx.history);
            Load(after, id) == Some(tx.View()) <==> StoredHistory(st, id) <= tx.history
  {
    var v, h := tx.View(), NextHeader(st, id, tx.View(), fence);
    var after := Write(st, id, h, Rows(tx.steps), tx.history);
    WrittenRows(st, id, h, Rows(tx.steps), tx.history);
    SortedRows(tx.steps);
    MergeFaithfulExactly(StoredHistory(st, id), tx.history);
    assert Load(after, id) == Some(v.(history := Merge(StoredHistory(st, id), tx.history)));
  }
}
