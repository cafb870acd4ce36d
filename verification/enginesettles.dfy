/** How a run leaves the steps when it starts from untouched or resumed ones: everything is
    settled, or one step is left failed for the system's reasons. */
module EngineSettles {
  import opened Options
  import opened Records
  import opened EngineSpec
  import opened EngineRuns

  /** What a worker starts from: a new transaction, or a resumed one. */
  ghost predicate Startable(t: Snapshot) {
    && InOrder(t.steps)
    && SettledOrPending(t.steps)
    && (LastEventIs(t, TransactionResumed) || forall i :: 0 <= i < |t.steps| ==> t.steps[i].status == Pending)
  }

  /** The pass loop at position `i`. */
  ghost predicate AtPosition(steps: seq<StepRow>, i: nat, blocked: set<int>) {
    InOrder(steps) && SettledUpTo(steps, i) && SettledOrPending(steps) && BlockedFrom(steps, i, blocked)
  }

  ghost predicate StoppedAt(steps: seq<StepRow>, k: nat) {
    k < |steps| && steps[k].SystemFailed()
    && forall j :: 0 <= j < |steps| && j != k ==> steps[j].Settled() || steps[j].status == Pending
  }

  /** After a pass: all settled, or stopped by one system failure. */
  ghost predicate PassDone(steps: seq<StepRow>) {
    InOrder(steps) && (SettledUpTo(steps, |steps|) || exists k: nat :: StoppedAt(steps, k))
  }

  lemma StartsAtZero(t: Snapshot)
    requires Startable(t)
    ensures Begin(t).steps == t.steps && InitialBlocked(t) == BusinessFailedOrders(t.steps)
    ensures AtPosition(t.steps, 0, InitialBlocked(t))
  {
    BusinessOrdersBlock(t.steps);
  }

  /** One step of a pass. */
  lemma StepSettles(r: Trace, i: nat, blocked: set<int>, oracle: Oracle)
    requires i < |r.tx.steps| && AtPosition(r.tx.steps, i, blocked)
    ensures var e := EffectOf(StartStep(r, i).tx, i, oracle);
            var s := RunStep(r, i, oracle).tx.steps;
            && |s| == |r.tx.steps|
            && (!(e.RaisesSystem? || e.RaisesOther?) ==> AtPosition(s, i + 1, blocked))
            && (e.RaisesSystem? || e.RaisesOther? ==> InOrder(s) && StoppedAt(s, i))
  {
    RunStepRow(r, i, oracle);
    InOrderUpdate(r.tx.steps, i, RunStep(r, i, oracle).tx.steps[i]);
  }

  lemma HaltSettles(t: Snapshot, i: nat)
    requires i <= |t.steps| && InOrder(t.steps) && SettledUpTo(t.steps, i) && SettledOrPending(t.steps)
    ensures PassDone(SkipFrom(t, i).steps)
  {
    SkipSettles(t, i);
  }

  lemma {:induction false} PassSettles(r: Trace, i: nat, blocked: set<int>, oracle: Oracle)
    requires i <= |r.tx.steps| && AtPosition(r.tx.steps, i, blocked)
    ensures PassDone(PassFrom(r, i, blocked, oracle).tx.steps)
    decreases |r.tx.steps| - i
  {
    if i == |r.tx.steps| {
    } else if !Runs(r.tx.steps[i], blocked) {
      PassSettles(r, i + 1, blocked, oracle);
    } else {
      var e := EffectOf(StartStep(r, i).tx, i, oracle);
      var s := RunStep(r, i, oracle);
      StepSettles(r, i, blocked, oracle);
      if !StopsPass(e) {
        PassSettles(s, i + 1, blocked, oracle);
      } else if e.RaisesBusiness? {
        HaltSettles(s.tx, i + 1);
      }
    }
  }

  lemma RearmedReady(steps: seq<StepRow>)
    requires PassDone(steps)
    ensures AtPosition(Rearmed(steps), 0, BusinessFailedOrders(Rearmed(steps)))
  {
    var b := Rearmed(steps);
    assert InOrder(b);
    BusinessOrdersBlock(b);
  }

  lemma {:induction false} RetrySettles(r: Trace, maxRetries: nat, oracle: Oracle)
    requires PassDone(r.tx.steps)
    ensures PassDone(RetryFrom(r, maxRetries, oracle).tx.steps)
    decreases if r.tx.retryCount < maxRetries then maxRetries - r.tx.retryCount else 0
  {
    if r.tx.retryCount < maxRetries && HasRetryable(r.tx.steps) {
      var b := Reschedule(r.tx);
      RearmedReady(r.tx.steps);
      PassSettles(r.(tx := b), 0, BusinessFailedOrders(b.steps), oracle);
      RetrySettles(Checkpoint(PassFrom(r.(tx := b), 0, BusinessFailedOrders(b.steps), oracle)), maxRetries, oracle);
    }
  }

  /** A run from any worker's start ends with every step settled, or with one step failed for
      the system's reasons and the others settled or pending. */
  lemma WorkSettles(t: Snapshot, maxRetries: nat, oracle: Oracle)
    requires Startable(t)
    ensures PassDone(Work(t, maxRetries, oracle).tx.steps)
  {
    StartsAtZero(t);
    var start := Checkpoint(Trace(Begin(t), []));
    PassSettles(start, 0, InitialBlocked(t), oracle);
    RetrySettles(PassFrom(start, 0, InitialBlocked(t), oracle), maxRetries, oracle);
  }

  /** Nothing to retry means nothing left to do but what business failures forbid. */
  lemma DoneWithoutRetry(steps: seq<StepRow>)
    requires PassDone(steps) && !HasRetryable(steps)
    ensures SettledUpTo(steps, |steps|)
    ensures !AllDone(steps) <==> exists i :: 0 <= i < |steps| && steps[i].BusinessFailed()
  {
    assert forall k: nat :: StoppedAt(steps, k) ==> steps[k].SystemFailed();
    if i :| 0 <= i < |steps| && steps[i].BusinessFailed() {
      assert steps[i].status == Failed;
    }
  }
}
