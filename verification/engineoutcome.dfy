/** What the outcome category of a failed run does and does not say about its steps. */
module EngineOutcome {
  import opened Options
  import opened Records
  import opened EngineSpec
  import opened EngineLemmas
  import opened EngineFacts
  import opened EngineRuns
  import opened EngineSettles
  import opened RecoverySpec

  function Newest(t: Snapshot): Option<Exc> { LastFailure(t, |t.history|) }

  // ---------- Reading the newest failure ----------

  lemma {:induction false} FindStepAt(steps: seq<StepRow>, i: nat, n: nat)
    requires InOrder(steps) && i < n <= |steps|
    ensures FindStep(steps, steps[i].StepKey(), n) == Some(steps[i])
  {
    if i < n - 1 {
      assert steps[i].order < steps[n - 1].order;
      FindStepAt(steps, i, n - 1);
    }
  }

  /** The same steps with the same exceptions; statuses may differ. */
  ghost predicate SameFailures(a: seq<StepRow>, b: seq<StepRow>) {
    |a| == |b| && forall i :: 0 <= i < |a| ==> a[i].StepKey() == b[i].StepKey() && a[i].exceptions == b[i].exceptions
  }

  lemma {:induction false} FindStepSame(a: seq<StepRow>, b: seq<StepRow>, k: Key, n: nat)
    requires SameFailures(a, b) && n <= |a|
    ensures FindStep(a, k, n).Some? == FindStep(b, k, n).Some?
    ensures FindStep(a, k, n).Some? ==> FindStep(a, k, n).value.exceptions == FindStep(b, k, n).value.exceptions
  {
    if n > 0 {
      FindStepSame(a, b, k, n - 1);
    }
  }

  lemma {:induction false} LastFailureSame(t: Snapshot, t': Snapshot, n: nat)
    requires SameFailures(t.steps, t'.steps) && t.history <= t'.history && n <= |t.history|
    ensures LastFailure(t', n) == LastFailure(t, n)
  {
    if n > 0 {
      LastFailureSame(t, t', n - 1);
      if t.history[n - 1].step.Some? {
        FindStepSame(t.steps, t'.steps, t.history[n - 1].step.value, |t.steps|);
      }
    }
  }

  lemma NewestKept(t: Snapshot, t': Snapshot)
    requires SameFailures(t.steps, t'.steps)
    requires |t'.history| == |t.history| + 1 && t.history <= t'.history && t'.history[|t.history|].event != StepFailed
    ensures Newest(t') == Newest(t)
  {
    LastFailureSame(t, t', |t.history|);
  }

  lemma NewestIsRaised(t: Snapshot, i: nat, e: Effect)
    requires InOrder(t.steps) && i < |t.steps| && Raised(e, t.retryCount).Some?
    ensures Newest(Settle(t, i, e)) == Raised(e, t.retryCount)
  {
    var t' := Settle(t, i, e);
    InOrderUpdate(t.steps, i, t'.steps[i]);
    FindStepAt(t'.steps, i, |t'.steps|);
  }

  lemma NewestAfterSettle(t: Snapshot, i: nat, e: Effect)
    requires InOrder(t.steps) && i < |t.steps|
    ensures Newest(Settle(t, i, e)) == if Raised(e, t.retryCount).Some? then Raised(e, t.retryCount) else Newest(t)
  {
    if Raised(e, t.retryCount).Some? {
      NewestIsRaised(t, i, e);
    } else {
      NewestKept(t, Settle(t, i, e));
    }
  }

  lemma NewestAfterStep(r: Trace, i: nat, oracle: Oracle)
    requires InOrder(r.tx.steps) && i < |r.tx.steps|
    ensures var e := EffectOf(StartStep(r, i).tx, i, oracle);
            Newest(RunStep(r, i, oracle).tx) == if Raised(e, r.tx.retryCount).Some? then Raised(e, r.tx.retryCount) else Newest(r.tx)
    ensures InOrder(RunStep(r, i, oracle).tx.steps)
  {
    var b := StartStep(r, i).tx;
    NewestKept(r.tx, b);
    InOrderUpdate(r.tx.steps, i, b.steps[i]);
    NewestAfterSettle(b, i, EffectOf(b, i, oracle));
    RunStepRow(r, i, oracle);
    InOrderUpdate(r.tx.steps, i, RunStep(r, i, oracle).tx.steps[i]);
  }

  lemma {:induction false} SkipKeepsNewest(t: Snapshot, j: nat)
    requires j <= |t.steps|
    ensures Newest(SkipFrom(t, j)) == Newest(t)
    decreases |t.steps| - j
  {
    if j < |t.steps| {
      if t.steps[j].status == Pending {
        NewestKept(t, Mark(t, j, Skipped, StepSkipped));
        SkipKeepsNewest(Mark(t, j, Skipped, StepSkipped), j + 1);
      } else {
        SkipKeepsNewest(t, j + 1);
      }
    }
  }

  // ---------- A remaining system failure is always reported ----------

  ghost predicate NewestIsSystem(t: Snapshot) { Newest(t).Some? && Newest(t).value.System? }

  lemma StepReportsSystem(r: Trace, i: nat, oracle: Oracle)
    requires i < |r.tx.steps| && InOrder(r.tx.steps) && !HasRetryable(r.tx.steps)
    ensures var e := EffectOf(StartStep(r, i).tx, i, oracle);
            var s := RunStep(r, i, oracle).tx;
            && |s.steps| == |r.tx.steps| && InOrder(s.steps)
            && (if e.RaisesSystem? || e.RaisesOther? then NewestIsSystem(s) else !HasRetryable(s.steps))
  {
    RunStepRow(r, i, oracle);
    NewestAfterStep(r, i, oracle);
    assert forall j: nat :: j < |r.tx.steps| ==> !r.tx.steps[j].SystemFailed();
  }

  lemma SkipLeavesNoRetry(t: Snapshot, i: nat)
    requires i <= |t.steps| && InOrder(t.steps) && !HasRetryable(t.steps)
    ensures InOrder(SkipFrom(t, i).steps) && !HasRetryable(SkipFrom(t, i).steps)
  {
    SkipSettles(t, i);
    assert forall j: nat :: j < |t.steps| ==> !t.steps[j].SystemFailed();
  }

  lemma {:induction false} PassReportsSystem(r: Trace, i: nat, blocked: set<int>, oracle: Oracle)
    requires i <= |r.tx.steps| && InOrder(r.tx.steps) && !HasRetryable(r.tx.steps)
    ensures var u := PassFrom(r, i, blocked, oracle).tx;
            InOrder(u.steps) && (HasRetryable(u.steps) ==> NewestIsSystem(u))
    decreases |r.tx.steps| - i
  {
    if i == |r.tx.steps| {
    } else if !Runs(r.tx.steps[i], blocked) {
      PassReportsSystem(r, i + 1, blocked, oracle);
    } else {
      var e := EffectOf(StartStep(r, i).tx, i, oracle);
      var s := RunStep(r, i, oracle);
      StepReportsSystem(r, i, oracle);
      if !StopsPass(e) {
        PassReportsSystem(s, i + 1, blocked, oracle);
      } else if e.RaisesBusiness? {
        SkipLeavesNoRetry(s.tx, i + 1);
      }
    }
  }

  lemma RescheduleFacts(t: Snapshot)
    requires InOrder(t.steps)
    ensures InOrder(Reschedule(t).steps) && !HasRetryable(Reschedule(t).steps)
    ensures Newest(Reschedule(t)) == Newest(t)
  {
    NewestKept(t, Reschedule(t));
  }

  lemma {:induction false} RetryReportsSystem(r: Trace, maxRetries: nat, oracle: Oracle)
    requires InOrder(r.tx.steps) && (HasRetryable(r.tx.steps) ==> NewestIsSystem(r.tx))
    ensures var u := RetryFrom(r, maxRetries, oracle).tx;
            InOrder(u.steps) && (HasRetryable(u.steps) ==> NewestIsSystem(u))
    decreases if r.tx.retryCount < maxRetries then maxRetries - r.tx.retryCount else 0
  {
    if r.tx.retryCount < maxRetries && HasRetryable(r.tx.steps) {
      var b := Reschedule(r.tx);
      RescheduleFacts(r.tx);
      PassReportsSystem(r.(tx := b), 0, BusinessFailedOrders(b.steps), oracle);
      RetryReportsSystem(Checkpoint(PassFrom(r.(tx := b), 0, BusinessFailedOrders(b.steps), oracle)), maxRetries, oracle);
    }
  }

  lemma CompleteCategory(t: Snapshot)
    ensures Complete(t).steps == t.steps
    ensures Complete(t).category == Category.SystemFailed <==>
            !AllDone(t.steps) && (Newest(t).None? || Newest(t).value.System?)
    ensures Complete(t).disposition == RetryExhausted <==> Complete(t).category == Category.SystemFailed
  {
  }

  lemma RetryableNotDone(steps: seq<StepRow>)
    requires HasRetryable(steps)
    ensures !AllDone(steps)
  {
  }

  /** If a step is left failed for the system's reasons, the run says so. */
  lemma RemainingSystemFailureReported(t: Snapshot, maxRetries: nat, oracle: Oracle)
    requires InOrder(t.steps) && !HasRetryable(t.steps)
    ensures var u := Run(t, maxRetries, oracle).tx;
            HasRetryable(u.steps) ==> u.category == Category.SystemFailed
  {
    var start := Checkpoint(Trace(Begin(t), []));
    assert Keys(start.tx.steps) == Keys(t.steps);
    KeysKeepOrder(t.steps, start.tx.steps);
    PassReportsSystem(start, 0, InitialBlocked(t), oracle);
    RetryReportsSystem(PassFrom(start, 0, InitialBlocked(t), oracle), maxRetries, oracle);
    var w := Work(t, maxRetries, oracle).tx;
    CompleteCategory(w);
    if HasRetryable(w.steps) {
      RetryableNotDone(w.steps);
    }
  }

  // ---------- Passes that do nothing, or nothing but succeed ----------

  lemma {:induction false} PassSkipsTo(r: Trace, i: nat, j: nat, blocked: set<int>, oracle: Oracle)
    requires i <= j <= |r.tx.steps| && forall k :: i <= k < j ==> !Runs(r.tx.steps[k], blocked)
    ensures PassFrom(r, i, blocked, oracle) == PassFrom(r, j, blocked, oracle)
    decreases j - i
  {
    if i < j {
      PassSkipsTo(r, i + 1, j, blocked, oracle);
    }
  }

  /** From this much history on, every step that may run succeeds. */
  ghost predicate Succeeding(steps: seq<StepRow>, i: nat, blocked: set<int>, written: nat, oracle: Oracle) {
    forall j, n: nat :: i <= j < |steps| && steps[j].order !in blocked && written <= n ==> oracle(steps[j].order, n) == Succeeds
  }

  /** What a pass makes of a row when all it runs succeeds. */
  ghost predicate RunSucceeded(a: StepRow, b: StepRow, blocked: set<int>) {
    if Runs(a, blocked) then b.status == Successful else b == a
  }

  lemma {:induction false} SucceedingPass(r: Trace, i: nat, blocked: set<int>, oracle: Oracle)
    requires i <= |r.tx.steps| && InOrder(r.tx.steps) && Succeeding(r.tx.steps, i, blocked, |r.tx.history|, oracle)
    ensures var u := PassFrom(r, i, blocked, oracle).tx;
            && Newest(u) == Newest(r.tx)
            && forall j :: 0 <= j < |r.tx.steps| ==>
                 if j < i then u.steps[j] == r.tx.steps[j] else RunSucceeded(r.tx.steps[j], u.steps[j], blocked)
    decreases |r.tx.steps| - i
  {
    if i == |r.tx.steps| {
    } else if !Runs(r.tx.steps[i], blocked) {
      SucceedingPass(r, i + 1, blocked, oracle);
    } else {
      SucceedingStep(r, i, oracle);
      SucceedingPass(RunStep(r, i, oracle), i + 1, blocked, oracle);
    }
  }

  lemma SucceedingStep(r: Trace, i: nat, oracle: Oracle)
    requires i < |r.tx.steps| && InOrder(r.tx.steps)
    requires oracle(r.tx.steps[i].order, |r.tx.history| + 1) == Succeeds
    ensures var s := RunStep(r, i, oracle).tx;
            && EffectOf(StartStep(r, i).tx, i, oracle) == Succeeds
            && InOrder(s.steps) && Newest(s) == Newest(r.tx) && |r.tx.history| <= |s.history|
            && s.steps == r.tx.steps[i := s.steps[i]] && s.steps[i].status == Successful && s.steps[i].order == r.tx.steps[i].order
  {
    RunStepRow(r, i, oracle);
    NewestAfterStep(r, i, oracle);
  }

  // ---------- When the report implies a remaining failure ----------

  /** `SYSTEM_FAILED` only when a system-failed step is left. */
  ghost predicate Truthful(t: Snapshot, maxRetries: nat, oracle: Oracle) {
    var u := Run(t, maxRetries, oracle).tx;
    u.category == Category.SystemFailed ==> HasRetryable(u.steps)
  }

  /** `RETRY_EXHAUSTED` only when the pass number reached the budget. */
  ghost predicate Exhausts(t: Snapshot, maxRetries: nat, oracle: Oracle) {
    var u := Run(t, maxRetries, oracle).tx;
    u.disposition == RetryExhausted ==> u.retryCount >= maxRetries
  }

  predicate NewestIsBusiness(t: Snapshot) { Newest(t).Some? && Newest(t).value.Business? }

  /** A business failure is kept: the run will not touch it. */
  predicate KeepsFailure(steps: seq<StepRow>) {
    exists i :: 0 <= i < |steps| && steps[i].BusinessFailed()
  }

  predicate NonePending(steps: seq<StepRow>) {
    forall i :: 0 <= i < |steps| ==> steps[i].status != Pending
  }

  predicate AtMostOnePending(steps: seq<StepRow>) {
    forall i, j :: 0 <= i < j < |steps| ==> steps[i].status != Pending || steps[j].status != Pending
  }

  /** The start from which the report cannot mislead. Without a budget: no business failure is
      kept, or the newest recorded failure is one. With a budget: a kept failure needs that too
      and that nothing is left to run, and otherwise at most one step is. */
  predicate ReportsSafely(t: Snapshot, maxRetries: nat) {
    if maxRetries <= t.retryCount then !KeepsFailure(t.steps) || NewestIsBusiness(t)
    else if KeepsFailure(t.steps) then NonePending(t.steps) && NewestIsBusiness(t)
    else AtMostOnePending(t.steps)
  }

  function First(t: Snapshot): Trace { Checkpoint(Trace(Begin(t), [])) }

  lemma FirstFacts(t: Snapshot)
    requires Startable(t)
    ensures var r := First(t);
            && r.tx.steps == t.steps && r.tx.retryCount == t.retryCount && Newest(r.tx) == Newest(t)
            && |r.tx.history| == |t.history| + 1
            && InitialBlocked(t) == BusinessFailedOrders(t.steps) && AtPosition(t.steps, 0, InitialBlocked(t))
  {
    StartsAtZero(t);
    NewestKept(t, Begin(t));
  }

  /** A run that leaves nothing to retry misleads exactly when a business failure is left and
      the newest recorded failure is not one. */
  lemma MisleadsExactly(t: Snapshot, maxRetries: nat, oracle: Oracle)
    requires Startable(t)
    ensures var w := Work(t, maxRetries, oracle).tx;
            Truthful(t, maxRetries, oracle) <==> HasRetryable(w.steps) || !KeepsFailure(w.steps) || NewestIsBusiness(w)
  {
    var w := Work(t, maxRetries, oracle).tx;
    WorkSettles(t, maxRetries, oracle);
    CompleteCategory(w);
    if !HasRetryable(w.steps) {
      DoneWithoutRetry(w.steps);
    }
  }

  // ---------- Safe starts ----------

  /** One pass: the newest failure is the one that stopped it, or a business failure. */
  lemma {:induction false} OnePassNewest(r: Trace, i: nat, blocked: set<int>, oracle: Oracle)
    requires i <= |r.tx.steps| && InOrder(r.tx.steps)
    requires !KeepsFailure(r.tx.steps) || NewestIsBusiness(r.tx)
    ensures var u := PassFrom(r, i, blocked, oracle).tx;
            !KeepsFailure(u.steps) || NewestIsBusiness(u) || HasRetryable(u.steps)
    decreases |r.tx.steps| - i
  {
    if i == |r.tx.steps| {
    } else if !Runs(r.tx.steps[i], blocked) {
      OnePassNewest(r, i + 1, blocked, oracle);
    } else {
      var e := EffectOf(StartStep(r, i).tx, i, oracle);
      var s := RunStep(r, i, oracle);
      OneStepNewest(r, i, oracle);
      if !StopsPass(e) {
        OnePassNewest(s, i + 1, blocked, oracle);
      } else if e.RaisesBusiness? {
        SkipKeepsNewest(s.tx, i + 1);
      }
    }
  }

  lemma OneStepNewest(r: Trace, i: nat, oracle: Oracle)
    requires i < |r.tx.steps| && InOrder(r.tx.steps) && (!KeepsFailure(r.tx.steps) || NewestIsBusiness(r.tx))
    ensures var e := EffectOf(StartStep(r, i).tx, i, oracle);
            var s := RunStep(r, i, oracle).tx;
            && |s.steps| == |r.tx.steps| && InOrder(s.steps)
            && (e.RaisesBusiness? ==> NewestIsBusiness(s))
            && (e.RaisesSystem? || e.RaisesOther? ==> HasRetryable(s.steps))
            && (!(e.RaisesSystem? || e.RaisesOther?) ==> !KeepsFailure(s.steps) || NewestIsBusiness(s))
  {
    RunStepRow(r, i, oracle);
    NewestAfterStep(r, i, oracle);
    var e := EffectOf(StartStep(r, i).tx, i, oracle);
    var s := RunStep(r, i, oracle).tx;
    if e.RaisesSystem? || e.RaisesOther? {
      assert s.steps[i].SystemFailed();
    } else if KeepsFailure(s.steps) && !e.RaisesBusiness? {
      var j :| 0 <= j < |s.steps| && s.steps[j].BusinessFailed();
      assert r.tx.steps[j].BusinessFailed();
    }
  }

  lemma SafeWithoutBudget(t: Snapshot, maxRetries: nat, oracle: Oracle)
    requires Startable(t) && maxRetries <= t.retryCount && (!KeepsFailure(t.steps) || NewestIsBusiness(t))
    ensures Truthful(t, maxRetries, oracle)
  {
    FirstFacts(t);
    OnePassNewest(First(t), 0, InitialBlocked(t), oracle);
    MisleadsExactly(t, maxRetries, oracle);
  }

  lemma NothingRuns(t: Snapshot, maxRetries: nat, oracle: Oracle)
    requires Startable(t) && NonePending(t.steps)
    ensures Work(t, maxRetries, oracle) == First(t)
  {
    FirstFacts(t);
    PassSkipsTo(First(t), 0, |t.steps|, InitialBlocked(t), oracle);
  }

  /** Only step `k` is open, and if it failed its last exception is the newest failure. */
  ghost predicate LoneNewest(t: Snapshot, k: nat) {
    && InOrder(t.steps) && k < |t.steps|
    && (forall j :: 0 <= j < |t.steps| && j != k ==> t.steps[j].status == Successful || t.steps[j].status == Skipped)
    && (t.steps[k].status == Failed ==>
          t.steps[k].exceptions != [] && Newest(t) == Some(t.steps[k].exceptions[|t.steps[k].exceptions| - 1]))
  }

  lemma SettleKeepsLone(t: Snapshot, i: nat, e: Effect, k: nat)
    requires i < |t.steps| && t.steps[i].status == InProgress && LoneNewest(t, k)
    ensures LoneNewest(Settle(t, i, e), k)
  {
    NewestAfterSettle(t, i, e);
  }

  lemma MoveKeepsLone(t: Snapshot, m: Move, k: nat)
    requires Enabled(t, m) && m != BeginMove && m != CompleteMove && LoneNewest(t, k)
    ensures LoneNewest(Apply(t, m), k)
  {
    if m.SettleMove? {
      SettleKeepsLone(t, m.i, m.e, k);
    } else {
      NewestKept(t, Apply(t, m));
    }
  }

  lemma SafeLoneStep(t: Snapshot, maxRetries: nat, oracle: Oracle, k: nat)
    requires Startable(t) && !KeepsFailure(t.steps) && AtMostOnePending(t.steps) && k < |t.steps| && t.steps[k].status == Pending
    ensures Truthful(t, maxRetries, oracle)
  {
    FirstFacts(t);
    var inv := (s: Snapshot) => LoneNewest(s, k);
    forall s, m | Enabled(s, m) && m != BeginMove && m != CompleteMove && inv(s) ensures inv(Apply(s, m)) {
      MoveKeepsLone(s, m, k);
    }
    assert KeptByWork(inv);
    assert LoneNewest(First(t).tx, k);
    WorkKeeps(t, maxRetries, oracle, inv);
    MisleadsExactly(t, maxRetries, oracle);
  }

  lemma SafeStartTruthful(t: Snapshot, maxRetries: nat, oracle: Oracle)
    requires Startable(t) && ReportsSafely(t, maxRetries)
    ensures Truthful(t, maxRetries, oracle)
  {
    if maxRetries <= t.retryCount {
      SafeWithoutBudget(t, maxRetries, oracle);
    } else if NonePending(t.steps) {
      NothingRuns(t, maxRetries, oracle);
      FirstFacts(t);
      MisleadsExactly(t, maxRetries, oracle);
    } else {
      var k :| 0 <= k < |t.steps| && t.steps[k].status == Pending;
      SafeLoneStep(t, maxRetries, oracle, k);
    }
  }
}
