/** What every engine run keeps, for every oracle: proved once for the single moves the
    engine makes and carried over whole runs by one induction principle. */
module EngineLemmas {
  import opened Options
  import opened Records
  import opened EngineSpec

  /** The moves a run is made of. */
  datatype Move =
    | BeginMove
    | StartMove(i: nat)
    | SettleMove(i: nat, e: Effect)
    | SkipMove(j: nat)
    | RescheduleMove
    | CompleteMove

  ghost predicate Enabled(t: Snapshot, m: Move) {
    match m
    case StartMove(i) =>
      i < |t.steps| && t.steps[i].status != Successful && t.steps[i].status != Skipped
    case SettleMove(i, _) => i < |t.steps| && t.steps[i].status == InProgress
    case SkipMove(j) => j < |t.steps| && t.steps[j].status == Pending
    case _ => true
  }

  ghost function Apply(t: Snapshot, m: Move): Snapshot
    requires Enabled(t, m)
  {
    match m
    case BeginMove => Begin(t)
    case StartMove(i) => Mark(t, i, InProgress, StepStarted)
    case SettleMove(i, e) => Settle(t, i, e)
    case SkipMove(j) => Mark(t, j, Skipped, StepSkipped)
    case RescheduleMove => Reschedule(t)
    case CompleteMove => Complete(t)
  }

  /** Kept by the moves of the passes and retries, that is between beginning and completing. */
  ghost predicate KeptByWork(inv: Snapshot -> bool) {
    forall t, m :: Enabled(t, m) && m != BeginMove && m != CompleteMove && inv(t) ==> inv(Apply(t, m))
  }

  /** A settling move records what the step's code did when it was called. */
  ghost predicate Answers(t: Snapshot, m: Move, oracle: Oracle) {
    m.SettleMove? && m.i < |t.steps| ==> m.e == EffectOf(t, m.i, oracle)
  }

  /** Kept by the moves of the passes and retries of a run under this oracle. */
  ghost predicate KeptUnder(oracle: Oracle, inv: Snapshot -> bool) {
    forall t, m :: Enabled(t, m) && m != BeginMove && m != CompleteMove && Answers(t, m, oracle) && inv(t) ==> inv(Apply(t, m))
  }

  ghost predicate Preserved(inv: Snapshot -> bool) {
    forall t, m :: Enabled(t, m) && inv(t) ==> inv(Apply(t, m))
  }

  ghost predicate Throughout(r: Trace, inv: Snapshot -> bool) {
    inv(r.tx) && forall k :: 0 <= k < |r.log| ==> inv(r.log[k])
  }

  lemma {:induction false} SkipKeeps(t: Snapshot, j: nat, oracle: Oracle, inv: Snapshot -> bool)
    requires KeptUnder(oracle, inv) && inv(t) && j <= |t.steps|
    ensures inv(SkipFrom(t, j))
    decreases |t.steps| - j
  {
    if j < |t.steps| {
      if t.steps[j].status == Pending {
        var t' := Apply(t, SkipMove(j));
        SkipKeeps(t', j + 1, oracle, inv);
      } else {
        SkipKeeps(t, j + 1, oracle, inv);
      }
    }
  }

  lemma StepKeeps(r: Trace, i: nat, blocked: set<int>, oracle: Oracle, inv: Snapshot -> bool)
    requires KeptUnder(oracle, inv) && Throughout(r, inv)
    requires i < |r.tx.steps| && Runs(r.tx.steps[i], blocked)
    ensures Throughout(RunStep(r, i, oracle), inv)
  {
    var s := StartStep(r, i);
    assert s.tx == Apply(r.tx, StartMove(i));
    assert inv(s.tx);
    assert Throughout(s, inv);
    var e := EffectOf(s.tx, i, oracle);
    assert Settle(s.tx, i, e) == Apply(s.tx, SettleMove(i, e));
    assert inv(Settle(s.tx, i, e));
  }

  lemma {:induction false} PassKeeps(r: Trace, i: nat, blocked: set<int>, oracle: Oracle, inv: Snapshot -> bool)
    requires KeptUnder(oracle, inv) && Throughout(r, inv) && i <= |r.tx.steps|
    ensures Throughout(PassFrom(r, i, blocked, oracle), inv)
    decreases |r.tx.steps| - i
  {
    if i == |r.tx.steps| {
    } else if !Runs(r.tx.steps[i], blocked) {
      PassKeeps(r, i + 1, blocked, oracle, inv);
    } else {
      var e := EffectOf(StartStep(r, i).tx, i, oracle);
      var s := RunStep(r, i, oracle);
      StepKeeps(r, i, blocked, oracle, inv);
      if StopsPass(e) {
        SkipKeeps(s.tx, i + 1, oracle, inv);
      } else {
        PassKeeps(s, i + 1, blocked, oracle, inv);
      }
    }
  }

  lemma {:induction false} RetryKeeps(r: Trace, maxRetries: nat, oracle: Oracle, inv: Snapshot -> bool)
    requires KeptUnder(oracle, inv) && Throughout(r, inv)
    ensures Throughout(RetryFrom(r, maxRetries, oracle), inv)
    decreases if r.tx.retryCount < maxRetries then maxRetries - r.tx.retryCount else 0
  {
    if r.tx.retryCount < maxRetries && HasRetryable(r.tx.steps) {
      var b := Reschedule(r.tx);
      assert b == Apply(r.tx, RescheduleMove);
      var start := r.(tx := b);
      assert Throughout(start, inv);
      PassKeeps(start, 0, BusinessFailedOrders(b.steps), oracle, inv);
      RetryKeeps(Checkpoint(PassFrom(start, 0, BusinessFailedOrders(b.steps), oracle)), maxRetries, oracle, inv);
    }
  }

  /** What begins true and is kept by every working move holds of the work and its checkpoints. */
  lemma WorkKeeps(t: Snapshot, maxRetries: nat, oracle: Oracle, inv: Snapshot -> bool)
    requires KeptUnder(oracle, inv) || KeptByWork(inv)
    requires inv(Begin(t))
    ensures Throughout(Work(t, maxRetries, oracle), inv)
  {
    assert KeptUnder(oracle, inv);
    var start := Checkpoint(Trace(Begin(t), []));
    assert Throughout(start, inv);
    PassKeeps(start, 0, InitialBlocked(t), oracle, inv);
    RetryKeeps(PassFrom(start, 0, InitialBlocked(t), oracle), maxRetries, oracle, inv);
  }

  /** The induction principle: what every move keeps holds of the final transaction and of
      every checkpoint. */
  lemma RunKeeps(t: Snapshot, maxRetries: nat, oracle: Oracle, inv: Snapshot -> bool)
    requires Preserved(inv) && inv(t)
    ensures Throughout(Run(t, maxRetries, oracle), inv)
  {
    assert Begin(t) == Apply(t, BeginMove);
    WorkKeeps(t, maxRetries, oracle, inv);
    var last := Work(t, maxRetries, oracle);
    assert Complete(last.tx) == Apply(last.tx, CompleteMove);
  }
}
