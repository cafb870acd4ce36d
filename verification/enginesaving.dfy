/** Which moments of a run are saved: a step's start before its code is called, and its end right
    after; and how many checkpoints a run writes. */
module EngineSaving {
  import opened Options
  import opened Records
  import opened EngineSpec
  import opened EngineFacts
  import opened EngineRuns
  import opened EngineOutcome
  import opened EngineTelling
  import opened RecoverySpec

  // ---------- What is saved ----------

  /** The entry is one that a checkpoint follows at once: the start of the transaction, and the
      start and the end of a step that was called. */
  predicate SavedAtOnce(history: seq<Entry>, m: nat)
    requires m < |history|
  {
    || history[m].event in {TransactionStarted, StepStarted, StepSucceeded, StepFailed, TransactionCompleted}
    || (history[m].event == StepSkipped && StartedBefore(history, m))
  }

  /** Some checkpoint shows exactly the first `n` entries. */
  ghost predicate Shows(log: seq<Snapshot>, history: seq<Entry>, n: nat) {
    n <= |history| && exists k :: 0 <= k < |log| && log[k].history == history[..n]
  }

  ghost predicate LogTold(from: nat, r: Trace) {
    forall m: nat :: from <= m < |r.tx.history| && SavedAtOnce(r.tx.history, m) ==> Shows(r.log, r.tx.history, m + 1)
  }

  /** One more entry; the checkpoint that shows it, if it needs one, has been written. */
  lemma EntrySaved(from: nat, r: Trace, u: Trace)
    requires LogTold(from, r) && r.log <= u.log && r.tx.history <= u.tx.history && |u.tx.history| == |r.tx.history| + 1
    requires SavedAtOnce(u.tx.history, |r.tx.history|) ==> u.log != [] && u.log[|u.log| - 1].history == u.tx.history
    ensures LogTold(from, u)
  {
    var h, g := r.tx.history, u.tx.history;
    forall m: nat | from <= m < |g| && SavedAtOnce(g, m) ensures Shows(u.log, g, m + 1) {
      if m < |h| {
        assert SavedAtOnce(h, m);
        var k :| 0 <= k < |r.log| && r.log[k].history == h[..m + 1];
        assert u.log[k].history == g[..m + 1];
      } else {
        assert g[..m + 1] == g;
        assert u.log[|u.log| - 1].history == g[..m + 1];
      }
    }
  }

  lemma StepSaved(from: nat, r: Trace, i: nat, oracle: Oracle)
    requires LogTold(from, r) && i < |r.tx.steps|
    ensures LogTold(from, RunStep(r, i, oracle))
    ensures var h := RunStep(r, i, oracle).tx.history; h[|h| - 1].event != StepStarted
  {
    EntrySaved(from, r, StartStep(r, i));
    EntrySaved(from, StartStep(r, i), RunStep(r, i, oracle));
  }

  lemma {:induction false} SkipSaved(from: nat, r: Trace, j: nat)
    requires LogTold(from, r) && j <= |r.tx.steps| && r.tx.history != [] && r.tx.history[|r.tx.history| - 1].event != StepStarted
    ensures LogTold(from, r.(tx := SkipFrom(r.tx, j)))
    decreases |r.tx.steps| - j
  {
    if j < |r.tx.steps| {
      var s := if r.tx.steps[j].status == Pending then Mark(r.tx, j, Skipped, StepSkipped) else r.tx;
      if r.tx.steps[j].status == Pending {
        EntrySaved(from, r, r.(tx := s));
      }
      SkipSaved(from, r.(tx := s), j + 1);
    }
  }

  lemma CheckpointSaved(from: nat, r: Trace)
    requires LogTold(from, r)
    ensures LogTold(from, Checkpoint(r))
  {
    forall m: nat | from <= m < |r.tx.history| && SavedAtOnce(r.tx.history, m) ensures Shows(Checkpoint(r).log, r.tx.history, m + 1) {
      var k :| 0 <= k < |r.log| && r.log[k].history == r.tx.history[..m + 1];
      assert Checkpoint(r).log[k] == r.log[k];
    }
  }

  lemma {:induction false} PassSaved(from: nat, r: Trace, i: nat, blocked: set<int>, oracle: Oracle)
    requires LogTold(from, r) && i <= |r.tx.steps|
    ensures LogTold(from, PassFrom(r, i, blocked, oracle))
    decreases |r.tx.steps| - i
  {
    if i == |r.tx.steps| {
    } else if !Runs(r.tx.steps[i], blocked) {
      PassSaved(from, r, i + 1, blocked, oracle);
    } else {
      var e, s := EffectOf(StartStep(r, i).tx, i, oracle), RunStep(r, i, oracle);
      StepSaved(from, r, i, oracle);
      if !StopsPass(e) {
        PassSaved(from, s, i + 1, blocked, oracle);
      } else if e.RaisesBusiness? {
        SkipSaved(from, s, i + 1);
        CheckpointSaved(from, s.(tx := SkipFrom(s.tx, i + 1)));
      }
    }
  }

  lemma {:induction false} RetrySaved(from: nat, r: Trace, maxRetries: nat, oracle: Oracle)
    requires LogTold(from, r)
    ensures LogTold(from, RetryFrom(r, maxRetries, oracle))
    decreases if r.tx.retryCount < maxRetries then maxRetries - r.tx.retryCount else 0
  {
    if r.tx.retryCount < maxRetries && HasRetryable(r.tx.steps) {
      var b := r.(tx := Reschedule(r.tx));
      EntrySaved(from, r, b);
      PassSaved(from, b, 0, BusinessFailedOrders(b.tx.steps), oracle);
      var p := PassFrom(b, 0, BusinessFailedOrders(b.tx.steps), oracle);
      CheckpointSaved(from, p);
      RetrySaved(from, Checkpoint(p), maxRetries, oracle);
    }
  }

  /** Every start and every end of a step that is called is saved on its own: a call is made only
      when a checkpoint shows it started, and nothing is recorded after its end before a checkpoint
      shows that. */
  lemma EveryCallIsSaved(t: Snapshot, maxRetries: nat, oracle: Oracle)
    ensures LogTold(|t.history|, Run(t, maxRetries, oracle))
  {
    var none := Trace(t, []);
    assert LogTold(|t.history|, none);
    EntrySaved(|t.history|, none, First(t));
    PassSaved(|t.history|, First(t), 0, InitialBlocked(t), oracle);
    RetrySaved(|t.history|, PassFrom(First(t), 0, InitialBlocked(t), oracle), maxRetries, oracle);
    EntrySaved(|t.history|, Work(t, maxRetries, oracle), Run(t, maxRetries, oracle));
  }

  // ---------- How many checkpoints ----------

  /** The halting failures recorded from `from` on. */
  function Halts(history: seq<Entry>, from: nat, oracle: Oracle): nat {
    if |history| <= from then 0
    else
      var n := |history| - 1;
      Halts(history[..n], from, oracle)
      + if history[n].event == StepFailed && history[n].step.Some? && CallAt(history, n, oracle).RaisesBusiness?
           && CallAt(history, n, oracle).halts then 1 else 0
  }

  /** Checkpoints owed for a history: two for each step started, one after the skips behind each
      halting failure, one after each retry pass. */
  function Owed(history: seq<Entry>, from: nat, oracle: Oracle): nat {
    2 * Count(history, StepStarted) + Count(history, RetryScheduled) + Halts(history, from, oracle)
  }

  lemma OwedNext(history: seq<Entry>, e: Entry, from: nat, oracle: Oracle)
    requires from <= |history|
    ensures Owed(history + [e], from, oracle) == Owed(history, from, oracle)
            + (if e.event == StepStarted then 2 else if e.event == RetryScheduled then 1 else 0)
            + if e.event == StepFailed && e.step.Some? && oracle(e.step.value.order, |history|).RaisesBusiness?
                 && oracle(e.step.value.order, |history|).halts then 1 else 0
  {
    assert (history + [e])[..|history|] == history;
  }

  lemma StepOwes(from: nat, r: Trace, i: nat, oracle: Oracle)
    requires i < |r.tx.steps| && from <= |r.tx.history|
    ensures var s, e := RunStep(r, i, oracle), EffectOf(StartStep(r, i).tx, i, oracle);
            && |s.log| == |r.log| + 2 && |s.tx.history| == |r.tx.history| + 2
            && Owed(s.tx.history, from, oracle) == Owed(r.tx.history, from, oracle) + 2 + if e.RaisesBusiness? && e.halts then 1 else 0
  {
    var b, s := StartStep(r, i), RunStep(r, i, oracle);
    OwedNext(r.tx.history, b.tx.history[|r.tx.history|], from, oracle);
    OwedNext(b.tx.history, s.tx.history[|b.tx.history|], from, oracle);
  }

  lemma {:induction false} SkipOwes(from: nat, t: Snapshot, j: nat, oracle: Oracle)
    requires j <= |t.steps| && from <= |t.history|
    ensures Owed(SkipFrom(t, j).history, from, oracle) == Owed(t.history, from, oracle) && from <= |SkipFrom(t, j).history|
    decreases |t.steps| - j
  {
    if j < |t.steps| {
      if t.steps[j].status == Pending {
        var s := Mark(t, j, Skipped, StepSkipped);
        OwedNext(t.history, s.history[|t.history|], from, oracle);
        SkipOwes(from, s, j + 1, oracle);
      } else {
        SkipOwes(from, t, j + 1, oracle);
      }
    }
  }

  lemma {:induction false} PassOwes(from: nat, r: Trace, i: nat, blocked: set<int>, oracle: Oracle)
    requires i <= |r.tx.steps| && from <= |r.tx.history|
    ensures var u := PassFrom(r, i, blocked, oracle);
            |u.log| - |r.log| == Owed(u.tx.history, from, oracle) - Owed(r.tx.history, from, oracle) && from <= |u.tx.history|
    decreases |r.tx.steps| - i
  {
    if i == |r.tx.steps| {
    } else if !Runs(r.tx.steps[i], blocked) {
      PassOwes(from, r, i + 1, blocked, oracle);
    } else {
      var e, s := EffectOf(StartStep(r, i).tx, i, oracle), RunStep(r, i, oracle);
      StepOwes(from, r, i, oracle);
      if !StopsPass(e) {
        PassOwes(from, s, i + 1, blocked, oracle);
      } else if e.RaisesBusiness? {
        SkipOwes(from, s.tx, i + 1, oracle);
      }
    }
  }

  lemma {:induction false} RetryOwes(from: nat, r: Trace, maxRetries: nat, oracle: Oracle)
    requires from <= |r.tx.history|
    ensures var u := RetryFrom(r, maxRetries, oracle);
            |u.log| - |r.log| == Owed(u.tx.history, from, oracle) - Owed(r.tx.history, from, oracle) && from <= |u.tx.history|
    decreases if r.tx.retryCount < maxRetries then maxRetries - r.tx.retryCount else 0
  {
    if r.tx.retryCount < maxRetries && HasRetryable(r.tx.steps) {
      var b := r.(tx := Reschedule(r.tx));
      OwedNext(r.tx.history, b.tx.history[|r.tx.history|], from, oracle);
      PassOwes(from, b, 0, BusinessFailedOrders(b.tx.steps), oracle);
      RetryOwes(from, Checkpoint(PassFrom(b, 0, BusinessFailedOrders(b.tx.steps), oracle)), maxRetries, oracle);
    }
  }

  lemma EndsOweNothing(t: Snapshot, from: nat, oracle: Oracle)
    requires from <= |t.history|
    ensures Owed(Begin(t).history, from, oracle) == Owed(t.history, from, oracle) && |Begin(t).history| == |t.history| + 1
    ensures Owed(Complete(t).history, from, oracle) == Owed(t.history, from, oracle)
  {
    OwedNext(t.history, Begin(t).history[|t.history|], from, oracle);
    OwedNext(t.history, Complete(t).history[|t.history|], from, oracle);
  }

  /** A run writes exactly these checkpoints: one when it begins and one when it ends, two for each
      step started, one after the skips behind each halting failure and one after each retry pass. */
  lemma CheckpointsOwed(t: Snapshot, maxRetries: nat, oracle: Oracle)
    ensures var u := Run(t, maxRetries, oracle);
            |u.log| == 2 + Owed(u.tx.history, |t.history|, oracle) - Owed(t.history, |t.history|, oracle)
  {
    var from, first := |t.history|, First(t);
    EndsOweNothing(t, from, oracle);
    PassOwes(from, first, 0, InitialBlocked(t), oracle);
    RetryOwes(from, PassFrom(first, 0, InitialBlocked(t), oracle), maxRetries, oracle);
    EndsOweNothing(Work(t, maxRetries, oracle).tx, from, oracle);
  }
}
