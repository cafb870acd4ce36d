/** When the worker asks the queue for a redelivery after a failed run. */
module RetryDecision {
  import opened Options
  import opened Records
  import opened EngineSpec
  import opened EngineRuns
  import opened EngineSettles
  import opened RecoverySpec
  import opened Sessions

  /** `_transaction_has_only_business_failures`. */
  predicate OnlyBusinessFailures(steps: seq<StepRow>) {
    && (exists i :: 0 <= i < |steps| && steps[i].status == Failed)
    && forall i :: 0 <= i < |steps| && steps[i].status == Failed ==> steps[i].LastIsBusiness()
  }

  /** The `retry` argument after a run that raised nothing. */
  predicate AsksForRetry(t: Snapshot, retryBusiness: bool) {
    retryBusiness || !OnlyBusinessFailures(t.steps)
  }

  lemma PassDoneDecides(steps: seq<StepRow>)
    requires PassDone(steps) && !AllDone(steps)
    ensures OnlyBusinessFailures(steps) <==> !HasRetryable(steps)
  {
    if SettledUpTo(steps, |steps|) {
      var i :| 0 <= i < |steps| && steps[i].status != Successful && steps[i].status != Skipped;
      assert steps[i].BusinessFailed();
    } else {
      var k: nat :| StoppedAt(steps, k);
      assert steps[k].status == Failed && !steps[k].LastIsBusiness();
    }
  }

  /** After a failed run of a new or a resumed transaction, whatever its steps did, the worker
      asks for a redelivery exactly when business failures are to be retried or a step is left
      failed for the system's reasons. */
  lemma RetryAskedExactly(t: Snapshot, maxRetries: nat, oracle: Oracle, retryBusiness: bool)
    requires Startable(t) && Run(t, maxRetries, oracle).tx.status == Failed
    ensures AsksForRetry(Run(t, maxRetries, oracle).tx, retryBusiness) <==>
            retryBusiness || HasRetryable(Run(t, maxRetries, oracle).tx.steps)
  {
    WorkSettles(t, maxRetries, oracle);
    CompleteKeepsSteps(Work(t, maxRetries, oracle).tx);
    CompleteStatus(Work(t, maxRetries, oracle).tx);
    PassDoneDecides(Run(t, maxRetries, oracle).tx.steps);
  }

  /** The decision of a redelivery: whatever snapshot it finds durable. */
  lemma RedeliveryRetryAsked(d: Snapshot, maxRetries: nat, oracle: Oracle, retryBusiness: bool)
    requires InOrder(d.steps) && Run(Resumed(d, retryBusiness), maxRetries, oracle).tx.status == Failed
    ensures var u := Run(Resumed(d, retryBusiness), maxRetries, oracle).tx;
            AsksForRetry(u, retryBusiness) <==> retryBusiness || HasRetryable(u.steps)
  {
    ResumeIsStart(d, retryBusiness);
    RetryAskedExactly(Resumed(d, retryBusiness), maxRetries, oracle, retryBusiness);
  }
}
