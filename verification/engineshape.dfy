/** The order of a fresh run: steps settle from the front, whatever their outcomes are. */
module EngineShape {
  import opened Options
  import opened Records
  import opened EngineSpec
  import opened EngineRuns
  import opened RecoverySpec

  ghost predicate PendingFrom(steps: seq<StepRow>, k: nat) {
    forall j :: k <= j < |steps| ==> steps[j].status == Pending
  }

  /** At most one step is in progress or failed for the system's reasons; everything before
      it is settled and nothing after it has been touched. */
  ghost predicate Front(steps: seq<StepRow>, k: nat) {
    && SettledUpTo(steps, k)
    && PendingFrom(steps, k + 1)
    && (k < |steps| ==> steps[k].status == Pending || steps[k].status == InProgress || steps[k].SystemFailed())
  }

  /** Behind a halting failure the steps are all skipped, or all still pending. */
  ghost predicate HaltsCleanly(steps: seq<StepRow>) {
    forall i :: 0 <= i < |steps| && Halting(steps[i]) ==>
      (forall j :: i < j < |steps| ==> steps[j].status == Skipped) || PendingFrom(steps, i + 1)
  }

  ghost predicate Shaped(steps: seq<StepRow>) {
    (exists k: nat :: k <= |steps| && Front(steps, k)) && HaltsCleanly(steps)
  }

  ghost predicate LogShaped(log: seq<Snapshot>) {
    forall k :: 0 <= k < |log| ==> Shaped(log[k].steps)
  }

  ghost predicate NoHaltBefore(steps: seq<StepRow>, k: nat) {
    k <= |steps| && forall j :: 0 <= j < k ==> !Halting(steps[j])
  }

  /** The loop of a pass at position `i` when the first step it may run is `k`. */
  ghost predicate PassAt(steps: seq<StepRow>, i: nat, k: nat, blocked: set<int>) {
    && i <= k <= |steps| && InOrder(steps)
    && SettledUpTo(steps, k) && PendingFrom(steps, k) && NoHaltBefore(steps, k)
    && (forall j :: i <= j < k ==> !Runs(steps[j], blocked))
    && (forall j :: k <= j < |steps| ==> steps[j].order !in blocked)
  }

  /** After a pass: all settled, or stopped at one system failure. */
  ghost predicate PassOver(steps: seq<StepRow>) {
    && InOrder(steps) && HaltsCleanly(steps)
    && (SettledUpTo(steps, |steps|)
        || exists k :: 0 <= k < |steps| && steps[k].SystemFailed() && Front(steps, k) && NoHaltBefore(steps, k))
  }

  lemma PassOverShaped(steps: seq<StepRow>)
    requires PassOver(steps)
    ensures Shaped(steps)
  {
    if SettledUpTo(steps, |steps|) {
      assert Front(steps, |steps|);
    }
  }

  lemma RowShapes(a: seq<StepRow>, k: nat, row: StepRow)
    requires InOrder(a) && k < |a| && SettledUpTo(a, k) && PendingFrom(a, k) && NoHaltBefore(a, k)
    requires row.order == a[k].order
    ensures InOrder(a[k := row])
    ensures row.status == InProgress || row.SystemFailed() ==> Shaped(a[k := row]) && Front(a[k := row], k)
    ensures row.SystemFailed() ==> PassOver(a[k := row])
    ensures row.Settled() ==> Shaped(a[k := row])
    ensures row.Settled() ==> SettledUpTo(a[k := row], k + 1) && PendingFrom(a[k := row], k + 1)
    ensures row.Settled() && !Halting(row) ==> NoHaltBefore(a[k := row], k + 1)
  {
    var b := a[k := row];
    if row.status == InProgress || row.SystemFailed() {
      assert Front(b, k);
      assert HaltsCleanly(b);
    }
    if row.Settled() {
      assert Front(b, k + 1);
      assert HaltsCleanly(b);
    }
  }

  lemma HaltShapes(t: Snapshot, k: nat)
    requires InOrder(t.steps) && k < |t.steps| && SettledUpTo(t.steps, k + 1) && PendingFrom(t.steps, k + 1)
    requires NoHaltBefore(t.steps, k)
    ensures PassOver(SkipFrom(t, k + 1).steps)
  {
    SkipSettles(t, k + 1);
    var u := SkipFrom(t, k + 1).steps;
    assert SettledUpTo(u, |u|);
    assert InOrder(u);
  }

  /** One step of a pass keeps the log shaped, and leaves the next step or the end in order. */
  lemma StepShapes(r: Trace, i: nat, blocked: set<int>, oracle: Oracle)
    requires PassAt(r.tx.steps, i, i, blocked) && i < |r.tx.steps| && LogShaped(r.log)
    ensures var e := EffectOf(StartStep(r, i).tx, i, oracle);
            var s := RunStep(r, i, oracle);
            && LogShaped(s.log) && |s.tx.steps| == |r.tx.steps|
            && (!StopsPass(e) ==> PassAt(s.tx.steps, i + 1, i + 1, blocked))
            && (StopsPass(e) && !e.RaisesBusiness? ==> PassOver(s.tx.steps))
            && (e.RaisesBusiness? && e.halts ==>
                  InOrder(s.tx.steps) && SettledUpTo(s.tx.steps, i + 1) && PendingFrom(s.tx.steps, i + 1) && NoHaltBefore(s.tx.steps, i))
  {
    RunStepRow(r, i, oracle);
    RowShapes(r.tx.steps, i, StartStep(r, i).tx.steps[i]);
    RowShapes(r.tx.steps, i, RunStep(r, i, oracle).tx.steps[i]);
  }

  lemma {:induction false} PassShapes(r: Trace, i: nat, k: nat, blocked: set<int>, oracle: Oracle)
    requires PassAt(r.tx.steps, i, k, blocked) && LogShaped(r.log)
    ensures PassOver(PassFrom(r, i, blocked, oracle).tx.steps)
    ensures LogShaped(PassFrom(r, i, blocked, oracle).log)
    decreases |r.tx.steps| - i
  {
    var a := r.tx.steps;
    if i == |a| {
    } else if i < k {
      PassShapes(r, i + 1, k, blocked, oracle);
    } else {
      var e := EffectOf(StartStep(r, i).tx, i, oracle);
      var s := RunStep(r, i, oracle);
      StepShapes(r, i, blocked, oracle);
      if !StopsPass(e) {
        PassShapes(s, i + 1, i + 1, blocked, oracle);
      } else if e.RaisesBusiness? {
        HaltShapes(s.tx, i);
        PassOverShaped(SkipFrom(s.tx, i + 1).steps);
      }
    }
  }

  lemma RearmedFront(a: seq<StepRow>, k: nat)
    requires InOrder(a) && k < |a| && a[k].SystemFailed() && Front(a, k) && NoHaltBefore(a, k)
    ensures PassAt(Rearmed(a), 0, k, BusinessFailedOrders(Rearmed(a)))
  {
  }

  lemma RescheduleShapes(t: Snapshot) returns (k: nat)
    requires PassOver(t.steps) && HasRetryable(t.steps)
    ensures PassAt(Reschedule(t).steps, 0, k, BusinessFailedOrders(Reschedule(t).steps))
  {
    assert !SettledUpTo(t.steps, |t.steps|);
    k :| 0 <= k < |t.steps| && t.steps[k].SystemFailed() && Front(t.steps, k) && NoHaltBefore(t.steps, k);
    RearmedFront(t.steps, k);
  }

  lemma {:induction false} RetryShapes(r: Trace, maxRetries: nat, oracle: Oracle)
    requires PassOver(r.tx.steps) && LogShaped(r.log)
    ensures PassOver(RetryFrom(r, maxRetries, oracle).tx.steps)
    ensures LogShaped(RetryFrom(r, maxRetries, oracle).log)
    decreases if r.tx.retryCount < maxRetries then maxRetries - r.tx.retryCount else 0
  {
    if r.tx.retryCount < maxRetries && HasRetryable(r.tx.steps) {
      var b := Reschedule(r.tx);
      var k := RescheduleShapes(r.tx);
      var blocked := BusinessFailedOrders(b.steps);
      PassShapes(r.(tx := b), 0, k, blocked, oracle);
      var p := PassFrom(r.(tx := b), 0, blocked, oracle);
      PassOverShaped(p.tx.steps);
      RetryShapes(Checkpoint(p), maxRetries, oracle);
    }
  }

  lemma FreshWorkShaped(t: Snapshot, maxRetries: nat, oracle: Oracle)
    requires InOrder(t.steps) && t.history == [] && PendingFrom(t.steps, 0)
    ensures LogShaped(Work(t, maxRetries, oracle).log) && PassOver(Work(t, maxRetries, oracle).tx.steps)
  {
    var start := Checkpoint(Trace(Begin(t), []));
    assert start.tx.steps == t.steps;
    assert Front(t.steps, 0);
    PassShapes(start, 0, 0, {}, oracle);
    RetryShapes(PassFrom(start, 0, {}, oracle), maxRetries, oracle);
  }

  /** Every checkpoint of a fresh run, for any outcomes and any retry budget, shows settled
      steps first, then at most one step under way or failed, then untouched steps; so no
      step is started while an earlier one is pending or failed for the system's reasons. */
  lemma FreshRunShaped(t: Snapshot, maxRetries: nat, oracle: Oracle)
    requires InOrder(t.steps) && t.history == [] && PendingFrom(t.steps, 0)
    ensures LogShaped(Run(t, maxRetries, oracle).log)
  {
    FreshWorkShaped(t, maxRetries, oracle);
    CompleteKeepsSteps(Work(t, maxRetries, oracle).tx);
    PassOverShaped(Work(t, maxRetries, oracle).tx.steps);
  }

  lemma FrontInTurn(steps: seq<StepRow>, i: nat)
    requires Shaped(steps) && i < |steps| && steps[i].status == InProgress
    ensures SettledUpTo(steps, i) && PendingFrom(steps, i + 1)
  {
    var k: nat :| k <= |steps| && Front(steps, k);
    assert k == i;
  }

  /** Whenever a checkpoint of a new transaction's run shows a step under way, every step
      before it is settled and every step after it is untouched. */
  lemma StartsInTurn(t: Snapshot, maxRetries: nat, oracle: Oracle, k: nat, i: nat)
    requires InOrder(t.steps) && t.history == [] && PendingFrom(t.steps, 0)
    requires k < |Run(t, maxRetries, oracle).log|
    requires var steps := Run(t, maxRetries, oracle).log[k].steps; i < |steps| && steps[i].status == InProgress
    ensures var steps := Run(t, maxRetries, oracle).log[k].steps; SettledUpTo(steps, i) && PendingFrom(steps, i + 1)
  {
    FreshRunShaped(t, maxRetries, oracle);
    FrontInTurn(Run(t, maxRetries, oracle).log[k].steps, i);
  }
}
