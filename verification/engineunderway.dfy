/** Starts with a step recorded as under way, which only a transaction that is run without
    being resumed can show: when such a step is sure to be finished. */
module EngineUnderWay {
  import opened Options
  import opened Records
  import opened EngineSpec
  import opened EngineRuns
  import opened EngineOutcome

  /** No step that would run comes before a step under way. */
  predicate UnderWayFirst(steps: seq<StepRow>, blocked: set<int>) {
    forall i, j :: 0 <= i < j < |steps| && steps[j].status == InProgress ==> !Runs(steps[i], blocked)
  }

  function AllFail(): Oracle {
    (order: int, written: nat) => RaisesSystem("")
  }

  lemma BeginOrdered(t: Snapshot)
    requires InOrder(t.steps)
    ensures InOrder(Begin(t).steps)
    ensures forall j :: 0 <= j < |t.steps| && Begin(t).steps[j].status == InProgress ==> Begin(t).steps[j].order !in InitialBlocked(t)
  {
    BusinessOrdersBlock(t.steps);
  }

  // ---------- The step under way is run first ----------

  lemma FirstIsFinished(r: Trace, j: nat, blocked: set<int>, oracle: Oracle)
    requires j < |r.tx.steps| && Runs(r.tx.steps[j], blocked)
    requires forall k :: 0 <= k < |r.tx.steps| && k != j ==> r.tx.steps[k].status != InProgress
    ensures NoneInProgress(PassFrom(r, j, blocked, oracle).tx.steps)
  {
    var e := EffectOf(StartStep(r, j).tx, j, oracle);
    var s := RunStep(r, j, oracle);
    RunStepRow(r, j, oracle);
    if !StopsPass(e) {
      PassLeavesNoneInProgress(s, j + 1, blocked, oracle);
    } else if e.RaisesBusiness? {
      SkipLeavesNoneInProgress(s.tx, j + 1);
    }
  }

  lemma FinishesAll(t: Snapshot, maxRetries: nat, oracle: Oracle)
    requires InOrder(t.steps) && UnderWayFirst(Begin(t).steps, InitialBlocked(t))
    ensures NoneInProgress(Run(t, maxRetries, oracle).tx.steps)
  {
    var start, blocked := First(t), InitialBlocked(t);
    BeginOrdered(t);
    if NoneInProgress(start.tx.steps) {
      PassLeavesNoneInProgress(start, 0, blocked, oracle);
    } else {
      var j :| 0 <= j < |start.tx.steps| && start.tx.steps[j].status == InProgress;
      PassSkipsTo(start, 0, j, blocked, oracle);
      FirstIsFinished(start, j, blocked, oracle);
    }
    RetryLeavesNoneInProgress(PassFrom(start, 0, blocked, oracle), maxRetries, oracle);
    CompleteKeepsSteps(Work(t, maxRetries, oracle).tx);
  }

  // ---------- A failing step before it ----------

  /** A step under way behind one that is failed for the system's reasons. */
  ghost predicate Behind(steps: seq<StepRow>, j: nat) {
    InOrder(steps) && j < |steps| && steps[j].status == InProgress && exists k :: 0 <= k < j && steps[k].SystemFailed()
  }

  lemma {:induction false} FailingPass(r: Trace, i: nat, j: nat, blocked: set<int>)
    requires i <= j < |r.tx.steps| && InOrder(r.tx.steps) && r.tx.steps[j].status == InProgress
    requires exists k :: i <= k < j && Runs(r.tx.steps[k], blocked)
    ensures Behind(PassFrom(r, i, blocked, AllFail()).tx.steps, j)
    decreases j - i
  {
    if !Runs(r.tx.steps[i], blocked) {
      FailingPass(r, i + 1, j, blocked);
    } else {
      RunStepRow(r, i, AllFail());
      InOrderUpdate(r.tx.steps, i, RunStep(r, i, AllFail()).tx.steps[i]);
      assert RunStep(r, i, AllFail()).tx.steps[i].SystemFailed();
    }
  }

  lemma RearmedBehind(steps: seq<StepRow>, j: nat)
    requires Behind(steps, j)
    ensures var b := Rearmed(steps);
            && InOrder(b) && b[j].status == InProgress
            && exists k :: 0 <= k < j && Runs(b[k], BusinessFailedOrders(b))
  {
    var b := Rearmed(steps);
    var k :| 0 <= k < j && steps[k].SystemFailed();
    assert InOrder(b);
    BusinessOrdersBlock(b);
    assert Runs(b[k], BusinessFailedOrders(b));
  }

  lemma {:induction false} FailingRetries(r: Trace, maxRetries: nat, j: nat)
    requires Behind(r.tx.steps, j)
    ensures Behind(RetryFrom(r, maxRetries, AllFail()).tx.steps, j)
    decreases if r.tx.retryCount < maxRetries then maxRetries - r.tx.retryCount else 0
  {
    if r.tx.retryCount < maxRetries && HasRetryable(r.tx.steps) {
      var b := Reschedule(r.tx);
      RearmedBehind(r.tx.steps, j);
      FailingPass(r.(tx := b), 0, j, BusinessFailedOrders(b.steps));
      FailingRetries(Checkpoint(PassFrom(r.(tx := b), 0, BusinessFailedOrders(b.steps), AllFail())), maxRetries, j);
    }
  }

  lemma LeavesUnderWay(t: Snapshot, maxRetries: nat, i: nat, j: nat)
    requires InOrder(t.steps) && i < j < |t.steps|
    requires Begin(t).steps[j].status == InProgress && Runs(Begin(t).steps[i], InitialBlocked(t))
    ensures !NoneInProgress(Run(t, maxRetries, AllFail()).tx.steps)
  {
    BeginOrdered(t);
    FailingPass(First(t), 0, j, InitialBlocked(t));
    FailingRetries(PassFrom(First(t), 0, InitialBlocked(t), AllFail()), maxRetries, j);
    CompleteKeepsSteps(Work(t, maxRetries, AllFail()).tx);
  }

  /** A run leaves no step under way, for every behaviour of the steps and any retry budget,
      exactly when no step that would run comes before one under way. */
  lemma FinishesExactly(t: Snapshot, maxRetries: nat)
    requires InOrder(t.steps)
    ensures (forall oracle: Oracle :: NoneInProgress(Run(t, maxRetries, oracle).tx.steps)) <==>
            UnderWayFirst(Begin(t).steps, InitialBlocked(t))
  {
    if UnderWayFirst(Begin(t).steps, InitialBlocked(t)) {
      forall oracle: Oracle ensures NoneInProgress(Run(t, maxRetries, oracle).tx.steps) { FinishesAll(t, maxRetries, oracle); }
    } else {
      var i, j :| 0 <= i < j < |t.steps| && Begin(t).steps[j].status == InProgress && Runs(Begin(t).steps[i], InitialBlocked(t));
      LeavesUnderWay(t, maxRetries, i, j);
    }
  }
}
