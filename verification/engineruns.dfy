/** The shape of whole runs: which statuses checkpoints show, how a run ends, how often a
    pass may start a step, and the order in which steps are settled. */
module EngineRuns {
  import opened Options
  import opened Records
  import opened EngineSpec
  import opened EngineLemmas
  import opened EngineFacts
  import opened RecoverySpec

  // ---------- The checkpoints and the end of a run ----------

  ghost predicate NoneInProgress(steps: seq<StepRow>) {
    forall i :: 0 <= i < |steps| ==> steps[i].status != InProgress
  }

  lemma {:induction false} SkipLeavesNoneInProgress(t: Snapshot, j: nat)
    requires j <= |t.steps| && NoneInProgress(t.steps)
    ensures NoneInProgress(SkipFrom(t, j).steps)
    decreases |t.steps| - j
  {
    if j < |t.steps| {
      SkipLeavesNoneInProgress(if t.steps[j].status == Pending then Mark(t, j, Skipped, StepSkipped) else t, j + 1);
    }
  }

  lemma {:induction false} PassLeavesNoneInProgress(r: Trace, i: nat, blocked: set<int>, oracle: Oracle)
    requires i <= |r.tx.steps| && NoneInProgress(r.tx.steps)
    ensures NoneInProgress(PassFrom(r, i, blocked, oracle).tx.steps)
    decreases |r.tx.steps| - i
  {
    if i == |r.tx.steps| {
    } else if !Runs(r.tx.steps[i], blocked) {
      PassLeavesNoneInProgress(r, i + 1, blocked, oracle);
    } else {
      var e := EffectOf(StartStep(r, i).tx, i, oracle);
      var s := RunStep(r, i, oracle);
      if StopsPass(e) {
        SkipLeavesNoneInProgress(s.tx, i + 1);
      } else {
        PassLeavesNoneInProgress(s, i + 1, blocked, oracle);
      }
    }
  }

  lemma {:induction false} RetryLeavesNoneInProgress(r: Trace, maxRetries: nat, oracle: Oracle)
    requires NoneInProgress(r.tx.steps)
    ensures NoneInProgress(RetryFrom(r, maxRetries, oracle).tx.steps)
    decreases if r.tx.retryCount < maxRetries then maxRetries - r.tx.retryCount else 0
  {
    if r.tx.retryCount < maxRetries && HasRetryable(r.tx.steps) {
      var b := Reschedule(r.tx);
      PassLeavesNoneInProgress(r.(tx := b), 0, BusinessFailedOrders(b.steps), oracle);
      RetryLeavesNoneInProgress(Checkpoint(PassFrom(r.(tx := b), 0, BusinessFailedOrders(b.steps), oracle)), maxRetries, oracle);
    }
  }

  /** A run that returns calls the transaction successful exactly when every step succeeded
      or was skipped. */
  lemma RunEnds(t: Snapshot, maxRetries: nat, oracle: Oracle)
    ensures Run(t, maxRetries, oracle).tx.status == if AllDone(Run(t, maxRetries, oracle).tx.steps) then Successful else Failed
    ensures var u := Run(t, maxRetries, oracle).tx;
            u.status == Successful <==> forall i :: 0 <= i < |u.steps| ==> u.steps[i].status == Successful || u.steps[i].status == Skipped
  {
    CompleteStatus(Work(t, maxRetries, oracle).tx);
    CompleteKeepsSteps(Work(t, maxRetries, oracle).tx);
  }

  /** A run of a transaction without a step under way leaves none under way. */
  lemma RunLeavesNoneInProgress(t: Snapshot, maxRetries: nat, oracle: Oracle)
    requires NoneInProgress(t.steps)
    ensures NoneInProgress(Run(t, maxRetries, oracle).tx.steps)
  {
    var start := Checkpoint(Trace(Begin(t), []));
    PassLeavesNoneInProgress(start, 0, InitialBlocked(t), oracle);
    RetryLeavesNoneInProgress(PassFrom(start, 0, InitialBlocked(t), oracle), maxRetries, oracle);
    CompleteKeepsSteps(Work(t, maxRetries, oracle).tx);
  }

  /** The last checkpoint is the transaction the run leaves, and the only one whose status
      is not in progress. */
  lemma RunCheckpoints(t: Snapshot, maxRetries: nat, oracle: Oracle)
    ensures var r := Run(t, maxRetries, oracle);
            && |r.log| >= 2
            && r.log[|r.log| - 1] == r.tx
            && (r.tx.status == Successful || r.tx.status == Failed)
            && forall k :: 0 <= k < |r.log| - 1 ==> r.log[k].status == InProgress
  {
    var inv := (s: Snapshot) => s.status == InProgress;
    assert KeptByWork(inv);
    WorkKeeps(t, maxRetries, oracle, inv);
    var start := Checkpoint(Trace(Begin(t), []));
    PassLogGrows(start, 0, InitialBlocked(t), oracle);
    RetryLogGrows(PassFrom(start, 0, InitialBlocked(t), oracle), maxRetries, oracle);
  }

  lemma {:induction false} PassLogGrows(r: Trace, i: nat, blocked: set<int>, oracle: Oracle)
    requires i <= |r.tx.steps|
    ensures r.log <= PassFrom(r, i, blocked, oracle).log
    decreases |r.tx.steps| - i
  {
    if i == |r.tx.steps| {
    } else if !Runs(r.tx.steps[i], blocked) {
      PassLogGrows(r, i + 1, blocked, oracle);
    } else if !StopsPass(EffectOf(StartStep(r, i).tx, i, oracle)) {
      PassLogGrows(RunStep(r, i, oracle), i + 1, blocked, oracle);
    }
  }

  lemma {:induction false} RetryLogGrows(r: Trace, maxRetries: nat, oracle: Oracle)
    ensures r.log <= RetryFrom(r, maxRetries, oracle).log
    decreases if r.tx.retryCount < maxRetries then maxRetries - r.tx.retryCount else 0
  {
    if r.tx.retryCount < maxRetries && HasRetryable(r.tx.steps) {
      var b := Reschedule(r.tx);
      PassLogGrows(r.(tx := b), 0, BusinessFailedOrders(b.steps), oracle);
      RetryLogGrows(Checkpoint(PassFrom(r.(tx := b), 0, BusinessFailedOrders(b.steps), oracle)), maxRetries, oracle);
    }
  }

  predicate FailedForSystem(s: StepRow) {
    s.status == Failed && s.exceptions != [] && s.exceptions[|s.exceptions| - 1].System?
  }

  lemma {:induction false} RetryRunsOut(r: Trace, maxRetries: nat, oracle: Oracle)
    ensures var u := RetryFrom(r, maxRetries, oracle).tx;
            (forall i :: 0 <= i < |u.steps| ==> !FailedForSystem(u.steps[i])) || u.retryCount >= maxRetries
    decreases if r.tx.retryCount < maxRetries then maxRetries - r.tx.retryCount else 0
  {
    if r.tx.retryCount < maxRetries && HasRetryable(r.tx.steps) {
      var b := Reschedule(r.tx);
      RetryRunsOut(Checkpoint(PassFrom(r.(tx := b), 0, BusinessFailedOrders(b.steps), oracle)), maxRetries, oracle);
    } else if r.tx.retryCount < maxRetries {
      assert forall i: nat :: i < |r.tx.steps| ==> !r.tx.steps[i].SystemFailed();
    }
  }

  /** Retries are not given up early: a step is left failed for the system's reasons only when the
      pass number has reached the budget. */
  lemma RunRetriesOut(t: Snapshot, maxRetries: nat, oracle: Oracle)
    ensures var u := Run(t, maxRetries, oracle).tx;
            (exists i :: 0 <= i < |u.steps| && FailedForSystem(u.steps[i])) ==> u.retryCount >= maxRetries
  {
    var start := Checkpoint(Trace(Begin(t), []));
    RetryRunsOut(PassFrom(start, 0, InitialBlocked(t), oracle), maxRetries, oracle);
    CompleteKeepsSteps(Work(t, maxRetries, oracle).tx);
  }

  // ---------- How often a step is started ----------

  function Starts(history: seq<Entry>, k: Key): nat {
    if history == [] then 0
    else
      var e := history[|history| - 1];
      Starts(history[..|history| - 1], k) + if e.event == StepStarted && e.step == Some(k) then 1 else 0
  }

  lemma StartsGrows(history: seq<Entry>, x: Entry, k: Key)
    ensures Starts(history + [x], k) == Starts(history, k) + if x.event == StepStarted && x.step == Some(k) then 1 else 0
  {
  }

  lemma {:induction false} SkipStartsNone(t: Snapshot, j: nat, k: Key)
    requires j <= |t.steps|
    ensures Starts(SkipFrom(t, j).history, k) == Starts(t.history, k)
    decreases |t.steps| - j
  {
    if j < |t.steps| {
      var t' := if t.steps[j].status == Pending then Mark(t, j, Skipped, StepSkipped) else t;
      if t.steps[j].status == Pending {
        StartsGrows(t.history, t'.history[|t.history|], k);
      }
      SkipStartsNone(t', j + 1, k);
    }
  }

  lemma StepStartsOne(r: Trace, i: nat, oracle: Oracle, k: Key)
    requires i < |r.tx.steps|
    ensures Starts(RunStep(r, i, oracle).tx.history, k) ==
            Starts(r.tx.history, k) + if r.tx.steps[i].StepKey() == k then 1 else 0
    ensures Keys(RunStep(r, i, oracle).tx.steps) == Keys(r.tx.steps)
  {
  }

  ghost predicate OccursFrom(steps: seq<StepRow>, i: nat, k: Key) {
    exists j :: i <= j < |steps| && steps[j].StepKey() == k
  }

  lemma {:induction false} PassStartsOnce(r: Trace, i: nat, blocked: set<int>, oracle: Oracle, k: Key)
    requires i <= |r.tx.steps| && InOrder(r.tx.steps)
    ensures var h := PassFrom(r, i, blocked, oracle).tx.history;
            Starts(h, k) <= Starts(r.tx.history, k) + if OccursFrom(r.tx.steps, i, k) then 1 else 0
    ensures Keys(PassFrom(r, i, blocked, oracle).tx.steps) == Keys(r.tx.steps)
    decreases |r.tx.steps| - i
  {
    if i == |r.tx.steps| {
    } else if !Runs(r.tx.steps[i], blocked) {
      PassStartsOnce(r, i + 1, blocked, oracle, k);
    } else {
      var e := EffectOf(StartStep(r, i).tx, i, oracle);
      var s := RunStep(r, i, oracle);
      StepStartsOne(r, i, oracle, k);
      KeysKeepOrder(r.tx.steps, s.tx.steps);
      if StopsPass(e) {
        SkipStartsNone(s.tx, i + 1, k);
        SkipKeepsKeys(s.tx, i + 1);
      } else {
        PassStartsOnce(s, i + 1, blocked, oracle, k);
        assert forall j :: 0 <= j < |r.tx.steps| ==> s.tx.steps[j].StepKey() == Keys(r.tx.steps)[j];
        if OccursFrom(s.tx.steps, i + 1, k) {
          var j :| i + 1 <= j < |s.tx.steps| && s.tx.steps[j].StepKey() == k;
          assert r.tx.steps[j].StepKey() == k && r.tx.steps[j].order != r.tx.steps[i].order;
        }
      }
    }
  }

  lemma KeysKeepOrder(a: seq<StepRow>, b: seq<StepRow>)
    requires Keys(a) == Keys(b) && InOrder(a)
    ensures InOrder(b)
  {
    forall i, j | 0 <= i < j < |b| ensures b[i].order < b[j].order {
      assert Keys(a)[i] == Keys(b)[i] && Keys(a)[j] == Keys(b)[j];
    }
  }

  lemma {:induction false} SkipKeepsKeys(t: Snapshot, j: nat)
    requires j <= |t.steps|
    ensures Keys(SkipFrom(t, j).steps) == Keys(t.steps)
    decreases |t.steps| - j
  {
    if j < |t.steps| {
      var t' := if t.steps[j].status == Pending then Mark(t, j, Skipped, StepSkipped) else t;
      assert Keys(t'.steps) == Keys(t.steps);
      SkipKeepsKeys(t', j + 1);
    }
  }

  lemma {:induction false} RetryStartsPerPass(r: Trace, maxRetries: nat, oracle: Oracle, k: Key)
    requires InOrder(r.tx.steps)
    ensures var u := RetryFrom(r, maxRetries, oracle).tx;
            Starts(u.history, k) <= Starts(r.tx.history, k) + (u.retryCount - r.tx.retryCount)
    decreases if r.tx.retryCount < maxRetries then maxRetries - r.tx.retryCount else 0
  {
    if r.tx.retryCount < maxRetries && HasRetryable(r.tx.steps) {
      var b := Reschedule(r.tx);
      assert Keys(b.steps) == Keys(r.tx.steps);
      KeysKeepOrder(r.tx.steps, b.steps);
      StartsGrows(r.tx.history, b.history[|r.tx.history|], k);
      PassStartsOnce(r.(tx := b), 0, BusinessFailedOrders(b.steps), oracle, k);
      var p := PassFrom(r.(tx := b), 0, BusinessFailedOrders(b.steps), oracle);
      KeysKeepOrder(b.steps, p.tx.steps);
      RetryStartsPerPass(Checkpoint(p), maxRetries, oracle, k);
    }
  }

  lemma BeginAndCompleteStartNone(t: Snapshot, k: Key)
    ensures Starts(Begin(t).history, k) == Starts(t.history, k) && Keys(Begin(t).steps) == Keys(t.steps)
    ensures Starts(Complete(t).history, k) == Starts(t.history, k)
  {
  }

  lemma WorkStartsPerPass(t: Snapshot, maxRetries: nat, oracle: Oracle, k: Key)
    requires InOrder(t.steps)
    ensures var u := Work(t, maxRetries, oracle).tx;
            Starts(u.history, k) <= Starts(t.history, k) + 1 + (u.retryCount - t.retryCount)
  {
    var b := Begin(t);
    BeginAndCompleteStartNone(t, k);
    KeysKeepOrder(t.steps, b.steps);
    var start := Checkpoint(Trace(b, []));
    PassStartsOnce(start, 0, InitialBlocked(t), oracle, k);
    var p := PassFrom(start, 0, InitialBlocked(t), oracle);
    KeysKeepOrder(b.steps, p.tx.steps);
    RetryStartsPerPass(p, maxRetries, oracle, k);
  }

  /** A run starts a step at most once a pass: once, and once more for every retry pass. */
  lemma RunStartsPerPass(t: Snapshot, maxRetries: nat, oracle: Oracle, k: Key)
    requires InOrder(t.steps)
    ensures var u := Run(t, maxRetries, oracle).tx;
            Starts(u.history, k) <= Starts(t.history, k) + 1 + (u.retryCount - t.retryCount)
  {
    WorkStartsPerPass(t, maxRetries, oracle, k);
    BeginAndCompleteStartNone(Work(t, maxRetries, oracle).tx, k);
  }

  // ---------- Rows of a pass ----------

  ghost predicate SettledUpTo(steps: seq<StepRow>, i: nat) {
    i <= |steps| && forall j :: 0 <= j < i ==> steps[j].Settled()
  }

  ghost predicate SettledOrPending(steps: seq<StepRow>) {
    forall j :: 0 <= j < |steps| ==> steps[j].Settled() || steps[j].status == Pending
  }

  ghost predicate BlockedFrom(steps: seq<StepRow>, i: nat, blocked: set<int>) {
    forall j :: i <= j < |steps| ==> (steps[j].order in blocked <==> steps[j].BusinessFailed())
  }

  lemma BusinessOrdersBlock(steps: seq<StepRow>)
    requires InOrder(steps)
    ensures BlockedFrom(steps, 0, BusinessFailedOrders(steps))
  {
  }

  lemma {:induction false} SkipSettles(t: Snapshot, j: nat)
    requires j <= |t.steps|
    ensures var u := SkipFrom(t, j);
            forall m :: 0 <= m < |t.steps| ==>
              u.steps[m] == if m >= j && t.steps[m].status == Pending then t.steps[m].(status := Skipped) else t.steps[m]
    ensures t.history <= SkipFrom(t, j).history
    decreases |t.steps| - j
  {
    if j < |t.steps| {
      SkipSettles(if t.steps[j].status == Pending then Mark(t, j, Skipped, StepSkipped) else t, j + 1);
    }
  }

  lemma InOrderUpdate(steps: seq<StepRow>, i: nat, row: StepRow)
    requires InOrder(steps) && i < |steps| && row.order == steps[i].order
    ensures InOrder(steps[i := row])
  {
  }

  /** A row as one outcome leaves it. */
  ghost predicate Outcome(e: Effect, a: StepRow, b: StepRow) {
    && b.StepKey() == a.StepKey()
    && b.status == EffectStatus(e)
    && (b.Settled() <==> !(e.RaisesSystem? || e.RaisesOther?))
    && (b.SystemFailed() <==> e.RaisesSystem? || e.RaisesOther?)
    && (b.BusinessFailed() <==> e.RaisesBusiness?)
    && (Halting(b) <==> e.RaisesBusiness? && e.halts)
  }

  /** Running one step changes its row alone, as its outcome says, and adds two checkpoints. */
  lemma RunStepRow(r: Trace, i: nat, oracle: Oracle)
    requires i < |r.tx.steps|
    ensures var b := StartStep(r, i).tx;
            var e := EffectOf(b, i, oracle);
            var s := RunStep(r, i, oracle);
            && b.steps == r.tx.steps[i := r.tx.steps[i].(status := InProgress)]
            && s.tx.steps == r.tx.steps[i := s.tx.steps[i]]
            && Outcome(e, r.tx.steps[i], s.tx.steps[i])
            && (e.RaisesBusiness? ==> s.tx.steps[i].exceptions[|s.tx.steps[i].exceptions| - 1].retryNumber == r.tx.retryCount)
            && s.log == r.log + [b, s.tx]
            && r.tx.history <= b.history <= s.tx.history
            && s.tx.retryCount == r.tx.retryCount
  {
  }

  lemma CompleteStatus(t: Snapshot)
    ensures Complete(t).status == if AllDone(t.steps) then Successful else Failed
  {
  }

  lemma CompleteKeepsSteps(t: Snapshot)
    ensures Complete(t).steps == t.steps && t.history <= Complete(t).history
  {
  }
}
