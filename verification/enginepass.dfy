/** A pass as it works: a loop over step objects, changing their status, the transaction's
    history and the checkpoint store in place. Every method is tied to the corresponding
    function of `EngineSpec`. */
module EnginePass {
  import opened Options
  import opened Records
  import opened RecoverySpec
  import opened EngineSpec
  import opened EngineRuns
  import opened Objects

  /** The store went from `before` with `room` to `after` with `left` while the trace was
      followed: all its checkpoints landed, or exactly the first `room` of them did. */
  ghost predicate Delivered(before: seq<Snapshot>, room: nat, after: seq<Snapshot>, left: nat, u: Trace, now: Snapshot, ok: bool) {
    if ok then |u.log| <= room && left == room - |u.log| && after == before + u.log && now == u.tx
    else room < |u.log| && left == 0 && after == before + u.log[..room]
  }

  /** A store that filled up on the way to `r` fills up on the way to anything beyond it. */
  lemma CutShort(before: seq<Snapshot>, room: nat, after: seq<Snapshot>, left: nat, r: Trace, u: Trace, now: Snapshot)
    requires Delivered(before, room, after, left, r, now, false)
    requires r.log <= u.log
    ensures Delivered(before, room, after, left, u, now, false)
  {
  }

  /** Blocking objects is blocking their execution orders. */
  ghost predicate SameBlocks(ordered: seq<Step>, blocked: set<Step>, orders: set<int>) {
    forall i :: 0 <= i < |ordered| ==> (ordered[i] in blocked <==> ordered[i].order in orders)
  }

  lemma RowAt(steps: seq<Step>, i: nat)
    requires i < |steps|
    ensures |Rows(steps)| == |steps| && Rows(steps)[i] == steps[i].Row()
  {
  }

  method SetStatus(tx: Transaction, step: Step, status: Status, e: Event, ghost ordered: seq<Step>, ghost i: nat)
    requires DistinctSteps(ordered) && i < |ordered| && ordered[i] == step
    modifies tx`history, step`status
    ensures step.status == status
    ensures tx.ViewAs(ordered) == Mark(old(tx.ViewAs(ordered)), i, status, e)
  {
    step.status := status;
    tx.AppendHistory(e, Some(step.StepKey()));
    assert Rows(ordered) == old(Rows(ordered))[i := old(step.Row()).(status := status)];
  }

  method RecordFailure(tx: Transaction, step: Step, exc: Exc, ghost ordered: seq<Step>, ghost i: nat)
    requires DistinctSteps(ordered) && i < |ordered| && ordered[i] == step
    modifies tx`history, step`status, step`exceptions
    ensures forall e :: Raised(e, old(tx.retryCount)) == Some(exc) ==>
                          tx.ViewAs(ordered) == Settle(old(tx.ViewAs(ordered)), i, e)
  {
    step.status := Failed;
    step.exceptions := step.exceptions + [exc];
    tx.AppendHistory(StepFailed, Some(step.StepKey()));
    assert Rows(ordered) == old(Rows(ordered))[i := old(step.Row()).(status := Failed, exceptions := old(step.exceptions) + [exc])];
  }

  /** Runs the step's own code and records what came of it. */
  method Execute(tx: Transaction, step: Step, e: Effect, ghost ordered: seq<Step>, ghost i: nat)
    requires DistinctSteps(ordered) && i < |ordered| && ordered[i] == step
    requires step.status == InProgress
    modifies tx`history, step`status, step`exceptions
    ensures tx.ViewAs(ordered) == Settle(old(tx.ViewAs(ordered)), i, e)
  {
    if e.RaisesBusiness? {
      RecordFailure(tx, step, Business(tx.retryCount, e.code, e.halts), ordered, i);
    } else if e.RaisesSystem? {
      RecordFailure(tx, step, System(tx.retryCount, e.code), ordered, i);
    } else if e.RaisesOther? {
      RecordFailure(tx, step, System(tx.retryCount, UNEXPECTED_CODE), ordered, i);
    } else {
      step.Execute(e);
      if step.status != Skipped {
        SetStatus(tx, step, Successful, StepSucceeded, ordered, i);
      } else {
        SetStatus(tx, step, Skipped, StepSkipped, ordered, i);
      }
    }
  }

  /** `_skip_downstream_pending_steps`, without its checkpoint. */
  method SkipDownstream(tx: Transaction, failed: Step, ghost ordered: seq<Step>, ghost p: nat)
    requires tx.OrderedSteps() == ordered && DistinctSteps(ordered) && p < |ordered| && ordered[p] == failed
    modifies tx`history, ordered
    ensures tx.ViewAs(ordered) == SkipFrom(old(tx.ViewAs(ordered)), p + 1)
  {
    var all := tx.OrderedSteps();
    var shouldSkip := false;
    var i := 0;
    while i < |all|
      invariant 0 <= i <= |all|
      invariant shouldSkip <==> i > p
      invariant i <= p ==> tx.ViewAs(ordered) == old(tx.ViewAs(ordered))
      invariant i > p ==> SkipFrom(tx.ViewAs(ordered), i) == SkipFrom(old(tx.ViewAs(ordered)), p + 1)
    {
      var step := all[i];
      RowAt(ordered, i);
      if step == failed {
        shouldSkip := true;
      } else if shouldSkip && step.status == Pending {
        SetStatus(tx, step, Skipped, StepSkipped, ordered, i);
      }
      i := i + 1;
    }
  }

  /** `_checkpoint` with a strict callback. */
  method Save(tx: Transaction, store: CheckpointStore,
                     ghost ordered: seq<Step>, ghost before: seq<Snapshot>, ghost room: nat, ghost r: Trace)
    returns (ok: bool)
    requires tx.OrderedSteps() == ordered
    requires Delivered(before, room, store.log, store.room, r, r.tx, true) && tx.ViewAs(ordered) == r.tx
    modifies store
    ensures Delivered(before, room, store.log, store.room, Checkpoint(r), tx.ViewAs(ordered), ok)
  {
    ok := store.Save(tx);
  }

  /** One step of a pass: started, checkpointed, executed, recorded, checkpointed. */
  method Attempt(tx: Transaction, store: CheckpointStore, step: Step, oracle: Oracle,
                ghost ordered: seq<Step>, ghost i: nat, ghost before: seq<Snapshot>, ghost room: nat, ghost r: Trace)
    returns (ok: bool, e: Effect)
    requires tx.OrderedSteps() == ordered && DistinctSteps(ordered) && i < |ordered| && ordered[i] == step
    requires Delivered(before, room, store.log, store.room, r, tx.ViewAs(ordered), true)
    modifies tx`history, step`status, step`exceptions, store
    ensures |r.tx.steps| == |ordered|
    ensures Delivered(before, room, store.log, store.room, RunStep(r, i, oracle), tx.ViewAs(ordered), ok)
    ensures ok ==> e == EffectOf(StartStep(r, i).tx, i, oracle)
  {
    RowAt(ordered, i);
    ghost var s := StartStep(r, i);
    SetStatus(tx, step, InProgress, StepStarted, ordered, i);
    ok := Save(tx, store, ordered, before, room, r.(tx := s.tx));
    if !ok {
      CutShort(before, room, store.log, store.room, s, RunStep(r, i, oracle), tx.ViewAs(ordered));
      return false, Succeeds;
    }
    e := oracle(step.order, |tx.history|);
    Execute(tx, step, e, ordered, i);
    ok := Save(tx, store, ordered, before, room, s.(tx := Settle(s.tx, i, e)));
  }

  /** The rest of one iteration of the pass: whether to go on, and the downstream skips. */
  method RunOne(tx: Transaction, store: CheckpointStore, step: Step, oracle: Oracle, ghost orders: set<int>,
                ghost ordered: seq<Step>, ghost i: nat, ghost before: seq<Snapshot>, ghost room: nat, ghost r: Trace)
    returns (ok: bool, stop: bool)
    requires tx.OrderedSteps() == ordered && DistinctSteps(ordered) && i < |ordered| && ordered[i] == step
    requires Delivered(before, room, store.log, store.room, r, tx.ViewAs(ordered), true)
    requires Runs(step.Row(), orders)
    modifies tx`history, ordered, store
    ensures |r.tx.steps| == |ordered|
    ensures ok && !stop ==> Delivered(before, room, store.log, store.room, RunStep(r, i, oracle), tx.ViewAs(ordered), true)
    ensures ok && !stop ==> PassFrom(r, i, orders, oracle) == PassFrom(RunStep(r, i, oracle), i + 1, orders, oracle)
    ensures !ok || stop ==>
              Delivered(before, room, store.log, store.room, PassFrom(r, i, orders, oracle), tx.ViewAs(ordered), ok)
  {
    RowAt(ordered, i);
    ghost var n := RunStep(r, i, oracle);
    var e;
    PassGrowsBy(r, i, orders, oracle);
    ok, e := Attempt(tx, store, step, oracle, ordered, i, before, room, r);
    if !ok {
      CutShort(before, room, store.log, store.room, n, PassFrom(r, i, orders, oracle), tx.ViewAs(ordered));
      return false, true;
    }
    stop := StopsPass(e);
    if e.RaisesBusiness? && e.halts {
      SkipDownstream(tx, step, ordered, i);
      ok := Save(tx, store, ordered, before, room, n.(tx := SkipFrom(n.tx, i + 1)));
    }
  }

  /** `_execute_pass`. The ghost arguments say which trace the pass continues. */
  method ExecutePass(tx: Transaction, store: CheckpointStore, blocked: set<Step>, oracle: Oracle,
                     ghost orders: set<int>, ghost before: seq<Snapshot>, ghost room: nat, ghost r0: Trace)
    returns (ok: bool)
    requires DistinctSteps(tx.OrderedSteps()) && SameBlocks(tx.OrderedSteps(), blocked, orders)
    requires Delivered(before, room, store.log, store.room, r0, tx.View(), true)
    modifies tx`history, tx.OrderedSteps(), store
    ensures Delivered(before, room, store.log, store.room, PassFrom(r0, 0, orders, oracle), tx.View(), ok)
  {
    var ordered := tx.OrderedSteps();
    ghost var r := r0;
    var i := 0;
    while i < |ordered|
      invariant 0 <= i <= |ordered| == |r.tx.steps|
      invariant Delivered(before, room, store.log, store.room, r, tx.ViewAs(ordered), true)
      invariant PassFrom(r, i, orders, oracle) == PassFrom(r0, 0, orders, oracle)
    {
      var step := ordered[i];
      RowAt(ordered, i);
      if step.status != Successful && step.status != Skipped && step !in blocked {
        var saved, stop := RunOne(tx, store, step, oracle, orders, ordered, i, before, room, r);
        if !saved || stop {
          return saved;
        }
        r := RunStep(r, i, oracle);
      }
      i := i + 1;
    }
    ok := true;
  }

  /** A pass that runs step `i` writes that step's checkpoints next. */
  lemma PassGrowsBy(r: Trace, i: nat, orders: set<int>, oracle: Oracle)
    requires i < |r.tx.steps| && Runs(r.tx.steps[i], orders)
    ensures StartStep(r, i).log <= RunStep(r, i, oracle).log <= PassFrom(r, i, orders, oracle).log
  {
    if !StopsPass(EffectOf(StartStep(r, i).tx, i, oracle)) {
      PassLogGrows(RunStep(r, i, oracle), i + 1, orders, oracle);
    }
  }
}
