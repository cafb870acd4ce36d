/** The engine as it works: the selectors over step objects, the retry loop around a pass
    and the run as a whole, tied to `EngineSpec.Run`. */
module Engines {
  import opened Options
  import opened Records
  import opened RecoverySpec
  import opened EngineSpec
  import opened EngineRuns
  import opened Objects
  import opened EnginePass

  datatype RunResult = Finished | CheckpointFailed | Invalid

  /** An engine-ready transaction: different step objects with distinct execution orders. */
  ghost predicate Ready(tx: Transaction)
    reads tx
  {
    && DistinctSteps(tx.OrderedSteps())
    && (forall s :: s in tx.OrderedSteps() ==> s in tx.steps)
    && (forall s :: s in tx.steps ==> s in tx.OrderedSteps())
    && (forall i, j :: 0 <= i < j < |tx.OrderedSteps()| ==> tx.OrderedSteps()[i].order < tx.OrderedSteps()[j].order)
  }

  lemma ValidIsReady(tx: Transaction)
    requires ValidForExecution(tx.View())
    ensures Ready(tx) && Wired(tx.steps)
  {
    ValidMeansWired(tx.View(), tx.steps);
    assert DistinctSteps(tx.steps);
    SortedMembers(tx.steps);
    var r := tx.OrderedSteps();
    forall i, j | 0 <= i < j < |r| ensures r[i].order < r[j].order {
      RowAt(r, i);
      RowAt(r, j);
    }
  }

  /** `_business_failed_step_ids`. */
  function BusinessFailedSteps(steps: seq<Step>): set<Step>
    reads steps
  {
    set s | s in steps && s.Row().BusinessFailed()
  }

  lemma BlocksByOrder(tx: Transaction)
    requires Ready(tx)
    ensures SameBlocks(tx.OrderedSteps(), BusinessFailedSteps(tx.steps), BusinessFailedOrders(tx.View().steps))
  {
    var r := tx.OrderedSteps();
    var rows := tx.View().steps;
    forall i | 0 <= i < |r| ensures r[i] in BusinessFailedSteps(tx.steps) <==> r[i].order in BusinessFailedOrders(rows) {
      RowAt(r, i);
      if r[i].order in BusinessFailedOrders(rows) {
        var j: nat :| j < |rows| && rows[j].BusinessFailed() && rows[j].order == r[i].order;
        RowAt(r, j);
      }
    }
  }

  /** `_retryable_failed_steps`, in listed order. */
  method RetryableFailedSteps(tx: Transaction) returns (r: seq<Step>)
    ensures forall s :: s in r <==> s in tx.steps && s.Row().SystemFailed()
    ensures tx.View() == old(tx.View())
  {
    r := [];
    for i := 0 to |tx.steps|
      invariant forall s :: s in r <==> s in tx.steps[..i] && s.Row().SystemFailed()
    {
      if tx.steps[i].Row().SystemFailed() {
        r := r + [tx.steps[i]];
      }
    }
  }

  lemma RetryableMeans(tx: Transaction, retryable: seq<Step>)
    requires Ready(tx) && forall s :: s in retryable <==> s in tx.steps && s.Row().SystemFailed()
    ensures retryable != [] <==> HasRetryable(tx.View().steps)
  {
    var r := tx.OrderedSteps();
    if retryable != [] {
      var s := retryable[0];
      assert s in retryable && s in r;
      var i: nat :| i < |r| && r[i] == s;
      RowAt(r, i);
    }
    if HasRetryable(tx.View().steps) {
      var i: nat :| i < |r| && tx.View().steps[i].SystemFailed();
      RowAt(r, i);
      assert r[i] in r && r[i] in retryable;
    }
  }

  method RearmSteps(tx: Transaction, retryable: seq<Step>)
    requires Ready(tx) && forall s :: s in retryable <==> s in tx.steps && s.Row().SystemFailed()
    modifies tx.OrderedSteps()
    ensures Rows(tx.OrderedSteps()) == Rearmed(old(Rows(tx.OrderedSteps())))
  {
    ghost var r := tx.OrderedSteps();
    ghost var was := Rows(r);
    for i := 0 to |retryable|
      invariant forall s :: s in r ==> s.exceptions == old(s.exceptions)
      invariant forall s :: s in r ==> s.status == if s in retryable[..i] then Pending else old(s.status)
    {
      assert retryable[i] in retryable;
      retryable[i].status := Pending;
    }
    assert retryable[..|retryable|] == retryable;
    forall i: nat | i < |r| ensures Rows(r)[i] == Rearmed(was)[i] {
      assert r[i] in r;
    }
  }

  /** The retry loop's preparation of the next pass. */
  method Rearm(tx: Transaction, retryable: seq<Step>)
    requires Ready(tx) && forall s :: s in retryable <==> s in tx.steps && s.Row().SystemFailed()
    modifies tx`history, tx`retryCount, tx.OrderedSteps()
    ensures tx.View() == Reschedule(old(tx.View()))
    ensures tx.retryCount == old(tx.retryCount) + 1
  {
    ghost var r, t := tx.OrderedSteps(), tx.View();
    RearmSteps(tx, retryable);
    assert Rows(r) == Rearmed(t.steps);
    tx.retryCount := tx.retryCount + 1;
    tx.AppendHistory(RetryScheduled, None);
    assert Rows(r) == Rearmed(t.steps);
  }

  /** `_reset_skipped_steps`. */
  method ResetSkipped(tx: Transaction)
    requires Ready(tx)
    modifies tx.OrderedSteps()
    ensures Rows(tx.OrderedSteps()) ==
            if LastEventIs(old(tx.View()), TransactionResumed) then old(Rows(tx.OrderedSteps()))
            else Unskipped(old(Rows(tx.OrderedSteps())))
  {
    ghost var r := tx.OrderedSteps();
    ghost var was := Rows(r);
    if tx.history != [] && tx.history[|tx.history| - 1].event == TransactionResumed {
      return;
    }
    for i := 0 to |tx.steps|
      invariant forall s :: s in r ==> s.exceptions == old(s.exceptions)
      invariant forall s :: s in r ==> s.status == if s in tx.steps[..i] && old(s.status) == Skipped then Pending else old(s.status)
    {
      assert tx.steps[i] in tx.steps;
      if tx.steps[i].status == Skipped {
        tx.steps[i].status := Pending;
      }
    }
    assert tx.steps[..|tx.steps|] == tx.steps;
    forall i: nat | i < |r| ensures Rows(r)[i] == Unskipped(was)[i] {
      assert r[i] in r;
    }
  }

  /** `_run` sets the outcome fields together and records why. */
  method SetOutcome(tx: Transaction, status: Status, category: Category, disposition: Disposition, code: string, e: Event)
    modifies tx`history, tx`status, tx`category, tx`disposition, tx`failureCode
    ensures tx.View() ==
            Append(old(tx.View()).(status := status, category := category, disposition := disposition, failureCode := code), e, None)
  {
    ghost var r, rows := tx.OrderedSteps(), Rows(tx.OrderedSteps());
    tx.status, tx.category, tx.disposition, tx.failureCode := status, category, disposition, code;
    tx.AppendHistory(e, None);
    assert Rows(r) == rows;
  }

  /** The part of `_run` before its first checkpoint. */
  method Start(tx: Transaction)
    requires Ready(tx)
    modifies tx`history, tx`status, tx`category, tx`disposition, tx`failureCode, tx.OrderedSteps()
    ensures tx.View() == Begin(old(tx.View()))
  {
    ghost var r, t := tx.OrderedSteps(), tx.View();
    ResetSkipped(tx);
    assert Rows(r) == Begin(t).steps;
    SetOutcome(tx, InProgress, UnknownOutcome, UnknownDisposition, "", TransactionStarted);
  }

  lemma {:induction false} FindInOrder(r: seq<Step>, rows: seq<StepRow>, k: Key, n: nat)
    requires rows == Rows(r) && n <= |rows| && InOrder(rows)
    ensures FindStep(rows, k, n).None? ==> forall i :: 0 <= i < n ==> r[i].StepKey() != k
    ensures FindStep(rows, k, n).Some? ==>
              exists i :: 0 <= i < n && r[i].StepKey() == k && FindStep(rows, k, n).value == r[i].Row()
  {
    if n > 0 {
      RowAt(r, n - 1);
      FindInOrder(r, rows, k, n - 1);
    }
  }

  /** A dictionary of the steps' exceptions agrees with searching the rows. */
  ghost predicate LastByKey(steps: seq<StepRow>, byKey: map<Key, seq<Exc>>) {
    forall k :: match FindStep(steps, k, |steps|)
                case None => k !in byKey
                case Some(s) => k in byKey && byKey[k] == s.exceptions
  }

  lemma DictionaryAgrees(tx: Transaction, byKey: map<Key, seq<Exc>>)
    requires Ready(tx) && InOrder(tx.View().steps)
    requires forall s :: s in tx.steps ==> s.StepKey() in byKey && byKey[s.StepKey()] == s.exceptions
    requires forall k :: k in byKey ==> exists s :: s in tx.steps && s.StepKey() == k
    ensures LastByKey(tx.View().steps, byKey)
  {
    var r, rows := tx.OrderedSteps(), tx.View().steps;
    forall k ensures match FindStep(rows, k, |rows|)
                     case None => k !in byKey
                     case Some(s) => k in byKey && byKey[k] == s.exceptions
    {
      FindInOrder(r, rows, k, |rows|);
      if FindStep(rows, k, |rows|).Some? {
        var i :| 0 <= i < |r| && r[i].StepKey() == k && FindStep(rows, k, |rows|).value == r[i].Row();
        assert r[i] in r;
      } else {
        assert forall s :: s in tx.steps ==> s in r;
      }
    }
  }

  method NewestFailure(t: Snapshot, byKey: map<Key, seq<Exc>>) returns (x: Option<Exc>)
    requires LastByKey(t.steps, byKey)
    ensures x == LastFailure(t, |t.history|)
  {
    var n := |t.history|;
    while n > 0
      invariant 0 <= n <= |t.history|
      invariant LastFailure(t, n) == LastFailure(t, |t.history|)
    {
      n := n - 1;
      var entry := t.history[n];
      if entry.event == StepFailed && entry.step.Some? && entry.step.value in byKey {
        var exceptions := byKey[entry.step.value];
        var m := |exceptions|;
        while m > 0
          invariant 0 <= m <= |exceptions|
          invariant NewestOfPass(exceptions, m, entry.retryNumber) == Behind(t, entry)
        {
          m := m - 1;
          if exceptions[m].retryNumber == entry.retryNumber {
            return Some(exceptions[m]);
          }
        }
      }
    }
    x := None;
  }

  /** `_last_failed_exception`: the dictionary first, then history from its end. */
  method LastFailedException(tx: Transaction) returns (x: Option<Exc>)
    requires Ready(tx) && InOrder(tx.View().steps) && Wired(tx.steps)
    ensures x == LastFailure(old(tx.View()), |tx.history|)
  {
    var byKey: map<Key, seq<Exc>> := map[];
    for i := 0 to |tx.steps|
      invariant forall j :: 0 <= j < i ==> tx.steps[j].StepKey() in byKey && byKey[tx.steps[j].StepKey()] == tx.steps[j].exceptions
      invariant forall k :: k in byKey ==> exists s :: s in tx.steps && s.StepKey() == k
    {
      byKey := byKey[tx.steps[i].StepKey() := tx.steps[i].exceptions];
      assert tx.steps[i] in tx.steps;
    }
    DictionaryAgrees(tx, byKey);
    x := NewestFailure(tx.View(), byKey);
  }

  /** The final verdict of `_run`. */
  method Close(tx: Transaction)
    requires Ready(tx) && InOrder(tx.View().steps) && Wired(tx.steps)
    modifies tx`history, tx`status, tx`category, tx`disposition, tx`failureCode
    ensures tx.View() == Complete(old(tx.View()))
  {
    var done := forall s :: s in tx.steps ==> s.status == Successful || s.status == Skipped;
    DoneByRow(tx);
    if done {
      SetOutcome(tx, Successful, SuccessfulOutcome, NotApplicable, "", TransactionCompleted);
    } else {
      ghost var r, rows := tx.OrderedSteps(), Rows(tx.OrderedSteps());
      var x := LastFailedException(tx);
      assert Rows(r) == rows;
      var code := if x.None? then "" else x.value.code;
      if x.Some? && x.value.Business? {
        SetOutcome(tx, Failed, Category.BusinessFailed, NotRequested, code, TransactionCompleted);
      } else {
        SetOutcome(tx, Failed, Category.SystemFailed, RetryExhausted, code, TransactionCompleted);
      }
    }
  }

  lemma DoneByRow(tx: Transaction)
    requires Ready(tx)
    ensures AllDone(tx.View().steps) <==> forall s :: s in tx.steps ==> s.status == Successful || s.status == Skipped
  {
    var r := tx.OrderedSteps();
    forall i: nat | i < |r| ensures tx.View().steps[i].status == r[i].status && r[i] in tx.steps {
      RowAt(r, i);
      assert r[i] in r;
    }
    if AllDone(tx.View().steps) {
      forall s | s in tx.steps ensures s.status == Successful || s.status == Skipped {
        assert s in r;
      }
    }
  }

  class Engine {
    const maxRetries: nat

    constructor (maxRetries: nat)
      ensures this.maxRetries == maxRetries
    {
      this.maxRetries := maxRetries;
    }

    /** One round of the retry loop. */
    method RetryOnce(tx: Transaction, store: CheckpointStore, oracle: Oracle, retryable: seq<Step>,
                     ghost before: seq<Snapshot>, ghost room: nat, ghost r: Trace)
      returns (ok: bool)
      requires Ready(tx) && forall s :: s in retryable <==> s in tx.steps && s.Row().SystemFailed()
      requires Delivered(before, room, store.log, store.room, r, tx.View(), true)
      modifies tx`history, tx`retryCount, tx.OrderedSteps(), store
      ensures tx.retryCount == old(tx.retryCount) + 1
      ensures var b := Reschedule(r.tx);
              Delivered(before, room, store.log, store.room,
                        Checkpoint(PassFrom(r.(tx := b), 0, BusinessFailedOrders(b.steps), oracle)), tx.View(), ok)
    {
      ghost var b := Reschedule(r.tx);
      ghost var u := PassFrom(r.(tx := b), 0, BusinessFailedOrders(b.steps), oracle);
      Rearm(tx, retryable);
      BlocksByOrder(tx);
      ok := ExecutePass(tx, store, BusinessFailedSteps(tx.steps), oracle, BusinessFailedOrders(b.steps), before, room, r.(tx := b));
      if !ok {
        CutShort(before, room, store.log, store.room, u, Checkpoint(u), tx.View());
        return;
      }
      ok := Save(tx, store, tx.OrderedSteps(), before, room, u);
    }

    /** The retry loop of `_run`. */
    method Retry(tx: Transaction, store: CheckpointStore, oracle: Oracle,
                 ghost before: seq<Snapshot>, ghost room: nat, ghost r0: Trace)
      returns (ok: bool)
      requires Ready(tx) && Delivered(before, room, store.log, store.room, r0, tx.View(), true)
      modifies tx`history, tx`retryCount, tx.OrderedSteps(), store
      ensures Delivered(before, room, store.log, store.room, RetryFrom(r0, maxRetries, oracle), tx.View(), ok)
    {
      ghost var r := r0;
      while tx.retryCount < maxRetries
        invariant Delivered(before, room, store.log, store.room, r, tx.View(), true)
        invariant RetryFrom(r, maxRetries, oracle) == RetryFrom(r0, maxRetries, oracle)
      {
        var retryable := RetryableFailedSteps(tx);
        RetryableMeans(tx, retryable);
        if retryable == [] {
          break;
        }
        ghost var b := Reschedule(r.tx);
        ghost var n := Checkpoint(PassFrom(r.(tx := b), 0, BusinessFailedOrders(b.steps), oracle));
        RetryLogGrows(n, maxRetries, oracle);
        ok := RetryOnce(tx, store, oracle, retryable, before, room, r);
        if !ok {
          CutShort(before, room, store.log, store.room, n, RetryFrom(r0, maxRetries, oracle), tx.View());
          return;
        }
        r := n;
      }
      ok := true;
    }

    /** `_initial_blocked_step_ids`; no blocks and blocking nothing are the same. */
    function InitialBlockedSteps(tx: Transaction): set<Step>
      reads tx, tx.steps
    {
      if tx.history != [] && tx.history[|tx.history| - 1].event == TransactionResumed then BusinessFailedSteps(tx.steps) else {}
    }

    /** `_run` up to its first checkpoint. */
    method Opening(tx: Transaction, store: CheckpointStore) returns (ok: bool)
      requires Ready(tx)
      modifies tx, tx.OrderedSteps(), store
      ensures tx.steps == old(tx.steps)
      ensures Delivered(old(store.log), old(store.room), store.log, store.room,
                        Checkpoint(Trace(Begin(old(tx.View())), [])), tx.View(), ok)
    {
      ghost var t, before, room := tx.View(), store.log, store.room;
      Start(tx);
      ok := Save(tx, store, tx.OrderedSteps(), before, room, Trace(Begin(t), []));
    }

    /** `_run` up to the end of the first pass. */
    method FirstPass(tx: Transaction, store: CheckpointStore, oracle: Oracle) returns (ok: bool)
      requires Ready(tx)
      modifies tx, tx.OrderedSteps(), store
      ensures tx.steps == old(tx.steps)
      ensures var t := old(tx.View());
              Delivered(old(store.log), old(store.room), store.log, store.room,
                        PassFrom(Checkpoint(Trace(Begin(t), [])), 0, InitialBlocked(t), oracle), tx.View(), ok)
    {
      ghost var t, before, room := tx.View(), store.log, store.room;
      ghost var orders := InitialBlocked(t);
      ghost var first := Checkpoint(Trace(Begin(t), []));
      PassLogGrows(first, 0, orders, oracle);
      BlocksByOrder(tx);
      var blocked := InitialBlockedSteps(tx);
      assert SameBlocks(tx.OrderedSteps(), blocked, orders);
      ok := Opening(tx, store);
      if !ok {
        CutShort(before, room, store.log, store.room, first, PassFrom(first, 0, orders, oracle), tx.View());
        return;
      }
      ok := ExecutePass(tx, store, blocked, oracle, orders, before, room, first);
    }

    /** `_run` up to its final verdict. */
    method Perform(tx: Transaction, store: CheckpointStore, oracle: Oracle) returns (ok: bool)
      requires Ready(tx)
      modifies tx, tx.OrderedSteps(), store
      ensures tx.steps == old(tx.steps)
      ensures Delivered(old(store.log), old(store.room), store.log, store.room,
                        EngineSpec.Work(old(tx.View()), maxRetries, oracle), tx.View(), ok)
    {
      ghost var t, before, room := tx.View(), store.log, store.room;
      ghost var pass := PassFrom(Checkpoint(Trace(Begin(t), [])), 0, InitialBlocked(t), oracle);
      RetryLogGrows(pass, maxRetries, oracle);
      ok := FirstPass(tx, store, oracle);
      if !ok {
        CutShort(before, room, store.log, store.room, pass, RetryFrom(pass, maxRetries, oracle), tx.View());
        return;
      }
      ok := Retry(tx, store, oracle, before, room, pass);
    }

    /** `_run`: the checkpoints and the final transaction are those of `EngineSpec.Run`; a
        store that stops accepting keeps exactly the first checkpoints. */
    method Run(tx: Transaction, store: CheckpointStore, oracle: Oracle) returns (result: RunResult)
      modifies tx, tx.OrderedSteps(), store
      ensures result == Invalid <==> !ValidForExecution(old(tx.View()))
      ensures result == Invalid ==>
                var t := old(tx.View());
                && tx.View() == t.(status := Failed, category := Category.ValidationFailed, disposition := NotRequested,
                                   failureCode := "rpacore.validation.execution",
                                   history := t.history + [Entry(|t.history| + 1, TransactionCompleted, Failed, t.retryCount, None)])
                && store.log == old(store.log) && store.room == old(store.room)
      ensures result != Invalid ==>
                Delivered(old(store.log), old(store.room), store.log, store.room,
                          EngineSpec.Run(old(tx.View()), maxRetries, oracle), tx.View(), result == Finished)
    {
      ghost var t, before, room := tx.View(), store.log, store.room;
      var valid := tx.Validate();
      if !valid {
        SetOutcome(tx, Failed, Category.ValidationFailed, NotRequested, "rpacore.validation.execution", TransactionCompleted);
        return Invalid;
      }
      ghost var w := EngineSpec.Work(t, maxRetries, oracle);
      ValidIsReady(tx);
      var ok := Perform(tx, store, oracle);
      if !ok {
        CutShort(before, room, store.log, store.room, w, EngineSpec.Run(t, maxRetries, oracle), tx.View());
        return CheckpointFailed;
      }
      Close(tx);
      ok := Save(tx, store, tx.OrderedSteps(), before, room, w.(tx := Complete(w.tx)));
      result := if ok then Finished else CheckpointFailed;
    }
  }
}
