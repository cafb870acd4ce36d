/** When the report `SYSTEM_FAILED` with `RETRY_EXHAUSTED` can be taken at its word: the exact
    starts, and for every other start a behaviour of the steps that makes it mislead. */
module EngineReport {
  import opened Options
  import opened Records
  import opened EngineSpec
  import opened EngineRuns
  import opened EngineSettles
  import opened EngineOutcome
  import opened RecoverySpec
  import opened Sessions

  function AllSucceed(): Oracle {
    (order: int, written: nat) => Succeeds
  }

  /** One step fails for good; another fails for the system's reasons when it is called with
      exactly this much history, and succeeds later; the rest succeeds. */
  function Trap(first: int, second: int, at: nat): Oracle {
    (order: int, written: nat) =>
      if order == first then RaisesBusiness("", false)
      else if order == second && written == at then RaisesSystem("")
      else Succeeds
  }

  // ---------- A kept failure ----------

  lemma SucceedingKeeps(a: seq<StepRow>, b: seq<StepRow>, blocked: set<int>)
    requires |a| == |b| && BlockedFrom(a, 0, blocked) && forall j :: 0 <= j < |a| ==> RunSucceeded(a[j], b[j], blocked)
    requires KeepsFailure(a) && !HasRetryable(a)
    ensures KeepsFailure(b) && !HasRetryable(b)
  {
    var i :| 0 <= i < |a| && a[i].BusinessFailed();
    assert b[i] == a[i];
    assert forall j: nat :: j < |a| ==> !a[j].SystemFailed();
  }

  /** A kept business failure that is not the newest recorded one is enough: a run in which
      every step called succeeds is reported as a system failure. */
  lemma KeptFailureMisleads(t: Snapshot, maxRetries: nat)
    requires Startable(t) && KeepsFailure(t.steps) && !NewestIsBusiness(t)
    ensures !Truthful(t, maxRetries, AllSucceed())
  {
    var oracle, blocked := AllSucceed(), InitialBlocked(t);
    FirstFacts(t);
    BusinessOrdersBlock(t.steps);
    SucceedingPass(First(t), 0, blocked, oracle);
    var u := PassFrom(First(t), 0, blocked, oracle);
    SucceedingKeeps(t.steps, u.tx.steps, blocked);
    assert Work(t, maxRetries, oracle) == u;
    MisleadsExactly(t, maxRetries, oracle);
  }

  // ---------- A repaired failure ----------

  /** After a system failure at step `q`, a retry in which everything succeeds. */
  lemma RetrySucceeds(r: Trace, maxRetries: nat, oracle: Oracle, q: nat) returns (u: Trace)
    requires InOrder(r.tx.steps) && StoppedAt(r.tx.steps, q) && KeepsFailure(r.tx.steps) && r.tx.retryCount < maxRetries
    requires Succeeding(r.tx.steps, 0, BusinessFailedOrders(r.tx.steps), |r.tx.history| + 1, oracle)
    ensures u == RetryFrom(r, maxRetries, oracle)
    ensures Newest(u.tx) == Newest(r.tx) && KeepsFailure(u.tx.steps) && !HasRetryable(u.tx.steps)
  {
    var b := Reschedule(r.tx);
    var blocked := BusinessFailedOrders(b.steps);
    RescheduleFacts(r.tx);
    RearmedKeeps(r.tx.steps);
    BusinessOrdersBlock(b.steps);
    SucceedingPass(r.(tx := b), 0, blocked, oracle);
    var p := PassFrom(r.(tx := b), 0, blocked, oracle);
    SucceedingKeeps(b.steps, p.tx.steps, blocked);
    assert r.tx.steps[q].SystemFailed();
    u := Checkpoint(p);
  }

  lemma RearmedKeeps(a: seq<StepRow>)
    requires KeepsFailure(a)
    ensures KeepsFailure(Rearmed(a)) && BusinessFailedOrders(Rearmed(a)) == BusinessFailedOrders(a)
  {
    var b := Rearmed(a);
    var i :| 0 <= i < |a| && a[i].BusinessFailed();
    assert b[i] == a[i];
    assert forall j: nat :: j < |a| ==> (b[j].BusinessFailed() <==> a[j].BusinessFailed()) && b[j].order == a[j].order;
  }

  /** A pass at position `i` whose next step to run is `q`, which fails for the system's reasons. */
  lemma PassStopsAt(r: Trace, i: nat, q: nat, blocked: set<int>, oracle: Oracle)
    requires i <= q < |r.tx.steps| && AtPosition(r.tx.steps, i, blocked)
    requires (forall k :: i <= k < q ==> !Runs(r.tx.steps[k], blocked)) && Runs(r.tx.steps[q], blocked)
    requires oracle(r.tx.steps[q].order, |r.tx.history| + 1) == RaisesSystem("")
    ensures var u := PassFrom(r, i, blocked, oracle);
            && u == RunStep(r, q, oracle) && InOrder(u.tx.steps) && StoppedAt(u.tx.steps, q) && NewestIsSystem(u.tx)
            && u.tx.steps == r.tx.steps[q := u.tx.steps[q]] && u.tx.steps[q].order == r.tx.steps[q].order
            && u.tx.retryCount == r.tx.retryCount && |u.tx.history| == |r.tx.history| + 2
  {
    PassSkipsTo(r, i, q, blocked, oracle);
    RunStepRow(r, q, oracle);
    NewestAfterStep(r, q, oracle);
  }

  lemma FirstPending(steps: seq<StepRow>, i: nat) returns (q: nat)
    requires exists k :: i <= k < |steps| && steps[k].status == Pending
    ensures i <= q < |steps| && steps[q].status == Pending && forall k :: i <= k < q ==> steps[k].status != Pending
    decreases |steps| - i
  {
    q := i;
    if steps[i].status != Pending {
      q := FirstPending(steps, i + 1);
    }
  }

  /** A first pass that stopped at a system failure with a business failure kept, and a retry
      that repairs the system failure. */
  lemma RepairedMisleads(t: Snapshot, maxRetries: nat, oracle: Oracle, r: Trace, q: nat)
    requires Startable(t) && r == PassFrom(First(t), 0, InitialBlocked(t), oracle) && r.tx.retryCount < maxRetries
    requires InOrder(r.tx.steps) && StoppedAt(r.tx.steps, q) && KeepsFailure(r.tx.steps) && NewestIsSystem(r.tx)
    requires Succeeding(r.tx.steps, 0, BusinessFailedOrders(r.tx.steps), |r.tx.history| + 1, oracle)
    ensures !Truthful(t, maxRetries, oracle)
  {
    var u := RetrySucceeds(r, maxRetries, oracle, q);
    MisleadsExactly(t, maxRetries, oracle);
  }

  lemma TrapSucceeds(steps: seq<StepRow>, c: nat, second: int, at: nat, written: nat)
    requires c < |steps| && steps[c].BusinessFailed() && at < written
    ensures Succeeding(steps, 0, BusinessFailedOrders(steps), written, Trap(steps[c].order, second, at))
  {
    assert steps[c].order in BusinessFailedOrders(steps);
  }

  lemma OpenRuns(steps: seq<StepRow>, i: nat, blocked: set<int>, j: nat)
    requires AtPosition(steps, i, blocked) && i <= j < |steps|
    ensures Runs(steps[j], blocked) <==> steps[j].status == Pending
  {
  }

  /** A kept business failure and something left to run: one retry is enough. */
  lemma KeptAndRepairedMisleads(t: Snapshot, maxRetries: nat, c: nat) returns (oracle: Oracle)
    requires Startable(t) && maxRetries > t.retryCount && !NonePending(t.steps) && c < |t.steps| && t.steps[c].BusinessFailed()
    ensures !Truthful(t, maxRetries, oracle)
  {
    var q := FirstPending(t.steps, 0);
    var blocked := InitialBlocked(t);
    oracle := Trap(t.steps[c].order, t.steps[q].order, |t.history| + 2);
    FirstFacts(t);
    forall j: nat | j < |t.steps| ensures Runs(t.steps[j], blocked) <==> t.steps[j].status == Pending {
      OpenRuns(t.steps, 0, blocked, j);
    }
    DistinctOrders(t.steps, c, q);
    PassStopsAt(First(t), 0, q, blocked, oracle);
    var r := PassFrom(First(t), 0, blocked, oracle);
    assert r.tx.steps[c] == t.steps[c];
    TrapSucceeds(r.tx.steps, c, t.steps[q].order, |t.history| + 2, |r.tx.history| + 1);
    RepairedMisleads(t, maxRetries, oracle, r, q);
  }

  lemma DistinctOrders(steps: seq<StepRow>, i: nat, j: nat)
    requires InOrder(steps) && i < |steps| && j < |steps| && i != j
    ensures steps[i].order != steps[j].order
  {
  }

  /** A step of the pass that fails for the business without halting. */
  lemma BusinessStep(r: Trace, i: nat, blocked: set<int>, oracle: Oracle)
    requires i < |r.tx.steps| && AtPosition(r.tx.steps, i, blocked) && Runs(r.tx.steps[i], blocked)
    requires oracle(r.tx.steps[i].order, |r.tx.history| + 1) == RaisesBusiness("", false)
    ensures var s := RunStep(r, i, oracle);
            && PassFrom(r, i, blocked, oracle) == PassFrom(s, i + 1, blocked, oracle)
            && AtPosition(s.tx.steps, i + 1, blocked) && s.tx.steps[i].BusinessFailed()
            && s.tx.steps == r.tx.steps[i := s.tx.steps[i]] && s.tx.steps[i].order == r.tx.steps[i].order
            && s.tx.retryCount == r.tx.retryCount && |s.tx.history| == |r.tx.history| + 2
  {
    RunStepRow(r, i, oracle);
    StepSettles(r, i, blocked, oracle);
  }

  /** Two steps left to run: the first fails for good, the second once. */
  lemma TwoOpenMislead(t: Snapshot, maxRetries: nat) returns (oracle: Oracle)
    requires Startable(t) && maxRetries > t.retryCount && !KeepsFailure(t.steps) && !AtMostOnePending(t.steps)
    ensures !Truthful(t, maxRetries, oracle)
  {
    var p := FirstPending(t.steps, 0);
    var q := FirstPending(t.steps, p + 1);
    var blocked := InitialBlocked(t);
    oracle := Trap(t.steps[p].order, t.steps[q].order, |t.history| + 4);
    FirstFacts(t);
    DistinctOrders(t.steps, p, q);
    forall j: nat | j < |t.steps| ensures Runs(t.steps[j], blocked) <==> t.steps[j].status == Pending {
      OpenRuns(t.steps, 0, blocked, j);
    }
    var s := RunStep(First(t), p, oracle);
    TwoOpenPass(t, p, q, oracle);
    var r := PassFrom(First(t), 0, blocked, oracle);
    TrapSucceeds(r.tx.steps, p, t.steps[q].order, |t.history| + 4, |r.tx.history| + 1);
    RepairedMisleads(t, maxRetries, oracle, r, q);
  }

  lemma TwoOpenPass(t: Snapshot, p: nat, q: nat, oracle: Oracle)
    requires Startable(t) && p < q < |t.steps|
    requires oracle == Trap(t.steps[p].order, t.steps[q].order, |t.history| + 4)
    requires forall j :: 0 <= j <= q ==> (Runs(t.steps[j], InitialBlocked(t)) <==> j == p || j == q)
    ensures var r := PassFrom(First(t), 0, InitialBlocked(t), oracle).tx;
            && |r.steps| == |t.steps| && r.steps[p].BusinessFailed() && r.steps[p].order == t.steps[p].order
            && InOrder(r.steps) && StoppedAt(r.steps, q) && NewestIsSystem(r)
            && r.retryCount == t.retryCount && |r.history| == |t.history| + 5
  {
    var r0, blocked := First(t), InitialBlocked(t);
    FirstFacts(t);
    DistinctOrders(t.steps, p, q);
    PassSkipsTo(r0, 0, p, blocked, oracle);
    PositionAt(t.steps, 0, p, blocked);
    BusinessStep(r0, p, blocked, oracle);
    PassStopsAt(RunStep(r0, p, oracle), p + 1, q, blocked, oracle);
  }

  /** The loop reaches the next step to run with everything before it settled. */
  lemma PositionAt(steps: seq<StepRow>, i: nat, j: nat, blocked: set<int>)
    requires AtPosition(steps, i, blocked) && i <= j <= |steps| && forall k :: i <= k < j ==> !Runs(steps[k], blocked)
    ensures AtPosition(steps, j, blocked)
  {
  }

  // ---------- The exact conditions ----------

  /** For every start a worker can make, new or resumed: `SYSTEM_FAILED` means that a
      system-failed step is left, for every behaviour of the steps, exactly when the start
      reports safely. */
  lemma TruthfulExactly(t: Snapshot, maxRetries: nat)
    requires Startable(t)
    ensures (forall oracle: Oracle :: Truthful(t, maxRetries, oracle)) <==> ReportsSafely(t, maxRetries)
  {
    if ReportsSafely(t, maxRetries) {
      forall oracle: Oracle ensures Truthful(t, maxRetries, oracle) { SafeStartTruthful(t, maxRetries, oracle); }
    } else if KeepsFailure(t.steps) && !NewestIsBusiness(t) {
      KeptFailureMisleads(t, maxRetries);
    } else if KeepsFailure(t.steps) {
      var c :| 0 <= c < |t.steps| && t.steps[c].BusinessFailed();
      var oracle := KeptAndRepairedMisleads(t, maxRetries, c);
    } else {
      var oracle := TwoOpenMislead(t, maxRetries);
    }
  }

  /** For a new transaction the condition is: no retry budget, or at most one step. */
  lemma NewReportsSafely(t: Snapshot, maxRetries: nat)
    requires InOrder(t.steps) && t.retryCount == 0 && forall i :: 0 <= i < |t.steps| ==> t.steps[i].status == Pending
    ensures ReportsSafely(t, maxRetries) <==> maxRetries == 0 || |t.steps| <= 1
  {
    if |t.steps| >= 2 {
      assert t.steps[0].status == Pending && t.steps[1].status == Pending;
    }
  }

  // ---------- Exhausted retries ----------

  /** A run that ends below its budget is the run with one retry less, and a run with one retry
      less that leaves nothing to retry is the run itself. */
  lemma {:induction false} OneRetryLess(r: Trace, maxRetries: nat, oracle: Oracle)
    requires maxRetries >= 1
    ensures RetryFrom(r, maxRetries, oracle).tx.retryCount < maxRetries || !HasRetryable(RetryFrom(r, maxRetries - 1, oracle).tx.steps) ==>
              RetryFrom(r, maxRetries - 1, oracle) == RetryFrom(r, maxRetries, oracle)
    ensures RetryFrom(r, maxRetries, oracle).tx.retryCount < maxRetries ==> !HasRetryable(RetryFrom(r, maxRetries, oracle).tx.steps)
    decreases if r.tx.retryCount < maxRetries then maxRetries - r.tx.retryCount else 0
  {
    if r.tx.retryCount < maxRetries && HasRetryable(r.tx.steps) {
      var b := Reschedule(r.tx);
      var p := Checkpoint(PassFrom(r.(tx := b), 0, BusinessFailedOrders(b.steps), oracle));
      OneRetryLess(p, maxRetries, oracle);
    }
  }

  lemma ExhaustsMeans(t: Snapshot, maxRetries: nat, oracle: Oracle)
    requires Startable(t) && maxRetries > t.retryCount
    ensures Exhausts(t, maxRetries, oracle) <==> Truthful(t, maxRetries - 1, oracle)
  {
    var r := PassFrom(First(t), 0, InitialBlocked(t), oracle);
    assert Work(t, maxRetries, oracle) == RetryFrom(r, maxRetries, oracle);
    assert Work(t, maxRetries - 1, oracle) == RetryFrom(r, maxRetries - 1, oracle);
    OneRetryLess(r, maxRetries, oracle);
    CompleteCategory(Work(t, maxRetries, oracle).tx);
    CompleteCategory(Work(t, maxRetries - 1, oracle).tx);
  }

  lemma NoBudgetExhausts(t: Snapshot, maxRetries: nat, oracle: Oracle)
    requires maxRetries <= t.retryCount
    ensures Exhausts(t, maxRetries, oracle)
  {
    CompleteCategory(Work(t, maxRetries, oracle).tx);
  }

  /** `RETRY_EXHAUSTED` means that the pass number reached the budget, for every behaviour of
      the steps, exactly when there is no budget, or when the start would report safely with
      one retry less. */
  lemma ExhaustedExactly(t: Snapshot, maxRetries: nat)
    requires Startable(t)
    ensures (forall oracle: Oracle :: Exhausts(t, maxRetries, oracle)) <==>
            maxRetries <= t.retryCount || ReportsSafely(t, maxRetries - 1)
  {
    if maxRetries <= t.retryCount {
      forall oracle: Oracle ensures Exhausts(t, maxRetries, oracle) { NoBudgetExhausts(t, maxRetries, oracle); }
    } else {
      TruthfulExactly(t, maxRetries - 1);
      if ReportsSafely(t, maxRetries - 1) {
        forall oracle: Oracle ensures Exhausts(t, maxRetries, oracle) { ExhaustsMeans(t, maxRetries, oracle); }
      } else {
        var oracle: Oracle :| !Truthful(t, maxRetries - 1, oracle);
        ExhaustsMeans(t, maxRetries, oracle);
      }
    }
  }

  // ---------- The resumed input ----------

  /** A first session: one step fails for the business, the next for the system's reasons. */
  function BothFail(first: int, second: int): Oracle {
    (order: int, written: nat) =>
      if order == first then RaisesBusiness("", false) else if order == second then RaisesSystem("") else Succeeds
  }

  lemma BothFailPass(t: Snapshot)
    requires InOrder(t.steps) && |t.steps| >= 2 && forall i :: 0 <= i < |t.steps| ==> t.steps[i].status == Pending
    ensures var r := PassFrom(First(t), 0, InitialBlocked(t), BothFail(t.steps[0].order, t.steps[1].order)).tx;
            && |r.steps| == |t.steps| && InOrder(r.steps) && r.steps[0].BusinessFailed() && NewestIsSystem(r)
            && r.retryCount == t.retryCount
  {
    var oracle := BothFail(t.steps[0].order, t.steps[1].order);
    FirstFacts(t);
    BusinessStep(First(t), 0, InitialBlocked(t), oracle);
    PassStopsAt(RunStep(First(t), 0, oracle), 1, 1, InitialBlocked(t), oracle);
  }

  lemma ResumedNewest(d: Snapshot)
    requires d.history != [] && !LastEventIs(d, TransactionResumed)
    ensures Newest(Resumed(d, false)) == Newest(d)
  {
    ResumedRows(d, false);
    NewestKept(d, Resumed(d, false));
  }

  /** No retry budget anywhere: a session fails at two steps; the next one resumes it, the
      system failure is repaired, and the report still names it. */
  lemma ResumedMisleads(t: Snapshot)
    requires InOrder(t.steps) && |t.steps| >= 2 && t.retryCount == 0
    requires forall i :: 0 <= i < |t.steps| ==> t.steps[i].status == Pending
    ensures var d := Run(t, 0, BothFail(t.steps[0].order, t.steps[1].order)).tx;
            !Truthful(Resumed(d, false), 0, AllSucceed())
  {
    var oracle := BothFail(t.steps[0].order, t.steps[1].order);
    BothFailPass(t);
    var w := Work(t, 0, oracle).tx;
    assert w == PassFrom(First(t), 0, InitialBlocked(t), oracle).tx;
    var d := Complete(w);
    NewestKept(w, d);
    ResumedNewest(d);
    ResumedRows(d, false);
    assert Resumed(d, false).steps[0].BusinessFailed();
    ResumeIsStart(d, false);
    KeptFailureMisleads(Resumed(d, false), 0);
  }
}
