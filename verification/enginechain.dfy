/** Each checkpoint of a run continues the one before it: what the next save writes extends
    what the last save wrote. */
module EngineChain {
  import opened Options
  import opened Records
  import opened EngineSpec
  import opened EngineLemmas
  import opened EngineFacts
  import opened EngineRuns

  /** Later checkpoints, and the transaction itself, extend earlier checkpoints' history. */
  ghost predicate Chained(r: Trace) {
    && (forall j, k :: 0 <= j < k < |r.log| ==> r.log[j].history <= r.log[k].history)
    && forall j :: 0 <= j < |r.log| ==> r.log[j].history <= r.tx.history
  }

  lemma AdvanceChains(r: Trace, t: Snapshot)
    requires Chained(r) && r.tx.history <= t.history
    ensures Chained(r.(tx := t)) && Chained(Checkpoint(r.(tx := t)))
  {
  }

  lemma {:induction false} SkipExtends(t: Snapshot, j: nat)
    requires j <= |t.steps|
    ensures t.history <= SkipFrom(t, j).history
    decreases |t.steps| - j
  {
    if j < |t.steps| {
      SkipExtends(if t.steps[j].status == Pending then Mark(t, j, Skipped, StepSkipped) else t, j + 1);
    }
  }

  lemma StepChains(r: Trace, i: nat, oracle: Oracle)
    requires Chained(r) && i < |r.tx.steps|
    ensures Chained(RunStep(r, i, oracle))
  {
  }

  lemma {:induction false} PassChains(r: Trace, i: nat, blocked: set<int>, oracle: Oracle)
    requires Chained(r) && i <= |r.tx.steps|
    ensures Chained(PassFrom(r, i, blocked, oracle))
    decreases |r.tx.steps| - i
  {
    if i == |r.tx.steps| {
    } else if !Runs(r.tx.steps[i], blocked) {
      PassChains(r, i + 1, blocked, oracle);
    } else {
      var e := EffectOf(StartStep(r, i).tx, i, oracle);
      var s := RunStep(r, i, oracle);
      StepChains(r, i, oracle);
      if !StopsPass(e) {
        PassChains(s, i + 1, blocked, oracle);
      } else if e.RaisesBusiness? {
        SkipExtends(s.tx, i + 1);
        AdvanceChains(s, SkipFrom(s.tx, i + 1));
      }
    }
  }

  lemma {:induction false} RetryChains(r: Trace, maxRetries: nat, oracle: Oracle)
    requires Chained(r)
    ensures Chained(RetryFrom(r, maxRetries, oracle))
    decreases if r.tx.retryCount < maxRetries then maxRetries - r.tx.retryCount else 0
  {
    if r.tx.retryCount < maxRetries && HasRetryable(r.tx.steps) {
      var b := Reschedule(r.tx);
      AdvanceChains(r, b);
      PassChains(r.(tx := b), 0, BusinessFailedOrders(b.steps), oracle);
      var p := PassFrom(r.(tx := b), 0, BusinessFailedOrders(b.steps), oracle);
      AdvanceChains(p, p.tx);
      RetryChains(Checkpoint(p), maxRetries, oracle);
    }
  }

  lemma WorkChains(t: Snapshot, maxRetries: nat, oracle: Oracle)
    ensures Chained(Work(t, maxRetries, oracle))
  {
    var start := Checkpoint(Trace(Begin(t), []));
    PassChains(start, 0, InitialBlocked(t), oracle);
    RetryChains(PassFrom(start, 0, InitialBlocked(t), oracle), maxRetries, oracle);
  }

  /** The checkpoints of a run extend one another in the order in which they are written. */
  lemma RunChains(t: Snapshot, maxRetries: nat, oracle: Oracle)
    ensures Chained(Run(t, maxRetries, oracle))
  {
    WorkChains(t, maxRetries, oracle);
    var w := Work(t, maxRetries, oracle);
    AdvanceChains(w, Complete(w.tx));
  }
}
