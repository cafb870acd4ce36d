/** Why each skipped step is skipped, and that its reason survives runs: what a resume of a
    failed transaction needs to tell a step that skipped itself from one that was halted. */
module CrashSkips {
  import opened Options
  import opened Records
  import opened EngineSpec
  import opened EngineRuns
  import opened EngineSettles
  import opened RecoverySpec
  import opened CrashTarget

  /** Successes and business failures agree with the plan. */
  ghost predicate Consistent(plan: Plan, steps: seq<StepRow>) {
    forall i :: 0 <= i < |steps| ==>
      && (steps[i].status == Successful ==> plan(steps[i].order) == Succeeds)
      && (steps[i].BusinessFailed() ==>
            plan(steps[i].order).RaisesBusiness? && (plan(steps[i].order).halts <==> Halting(steps[i])))
  }

  /** No stop before the step is still open. */
  ghost predicate Reached(plan: Plan, steps: seq<StepRow>, j: nat)
    requires j < |steps|
  {
    forall i :: 0 <= i < j && StopsPass(plan(steps[i].order)) ==> steps[i].Settled()
  }

  ghost predicate SelfSkipped(plan: Plan, steps: seq<StepRow>, j: nat)
    requires j < |steps|
  {
    plan(steps[j].order) == SkipsItself && Reached(plan, steps, j)
  }

  ghost predicate Explained(plan: Plan, t: Snapshot) {
    && Consistent(plan, t.steps)
    && (forall j :: 0 <= j < |t.steps| && t.steps[j].status == Skipped ==>
          HaltPropagated(t, t.steps[j].StepKey()) || SelfSkipped(plan, t.steps, j))
    && (forall j :: 0 <= j < |t.steps| && t.steps[j].BusinessFailed() ==> Reached(plan, t.steps, j))
  }

  /** Halting failures and history entries of `t` are all still there in `t'`. */
  ghost predicate KeepsHalts(t: Snapshot, t': Snapshot) {
    && t.history <= t'.history
    && |t.steps| == |t'.steps|
    && forall i :: 0 <= i < |t.steps| ==>
         && t'.steps[i].StepKey() == t.steps[i].StepKey()
         && (t.steps[i].Settled() ==> t'.steps[i].Settled())
         && (Halting(t.steps[i]) ==> t'.steps[i] == t.steps[i])
  }

  /** Explanations survive a change that settles no step as skipped except explained ones. */
  lemma ExplainedKept(plan: Plan, t: Snapshot, t': Snapshot)
    requires Explained(plan, t) && KeepsHalts(t, t') && Consistent(plan, t'.steps)
    requires forall j :: 0 <= j < |t.steps| && t'.steps[j].status == Skipped && t.steps[j].status != Skipped ==>
               HaltPropagated(t', t'.steps[j].StepKey()) || SelfSkipped(plan, t'.steps, j)
    requires forall j :: 0 <= j < |t.steps| && t'.steps[j].BusinessFailed() && !t.steps[j].BusinessFailed() ==>
               Reached(plan, t'.steps, j)
    ensures Explained(plan, t')
  {
  }

  lemma MarkPendingSkips(plan: Plan, t: Snapshot, j: nat, p: nat)
    requires Explained(plan, t) && InOrder(t.steps) && p < j < |t.steps| && t.steps[j].status == Pending
    requires Halting(t.steps[p]) && t.steps[p].exceptions[|t.steps[p].exceptions| - 1].retryNumber == t.retryCount
    ensures Explained(plan, Mark(t, j, Skipped, StepSkipped))
  {
    var t' := Mark(t, j, Skipped, StepSkipped);
    assert HaltedBy(t'.steps[p], t'.history[|t.history|], t'.steps[j].StepKey());
    assert HaltPropagated(t', t'.steps[j].StepKey());
    assert KeepsHalts(t, t');
    ExplainedKept(plan, t, t');
  }

  lemma {:induction false} SkipExplains(plan: Plan, t: Snapshot, j: nat, p: nat)
    requires Explained(plan, t) && InOrder(t.steps) && p < j <= |t.steps|
    requires Halting(t.steps[p]) && t.steps[p].exceptions[|t.steps[p].exceptions| - 1].retryNumber == t.retryCount
    ensures Explained(plan, SkipFrom(t, j))
    decreases |t.steps| - j
  {
    if j < |t.steps| {
      if t.steps[j].status == Pending {
        MarkPendingSkips(plan, t, j, p);
        var t' := Mark(t, j, Skipped, StepSkipped);
        assert InOrder(t'.steps);
        SkipExplains(plan, t', j + 1, p);
      } else {
        SkipExplains(plan, t, j + 1, p);
      }
    }
  }

  ghost predicate LogExplained(plan: Plan, log: seq<Snapshot>) {
    forall k :: 0 <= k < |log| ==> Explained(plan, log[k])
  }

  lemma StepExplains(plan: Plan, r: Trace, i: nat)
    requires Explained(plan, r.tx) && i < |r.tx.steps| && !r.tx.steps[i].Settled() && SettledUpTo(r.tx.steps, i)
    ensures Explained(plan, StartStep(r, i).tx)
    ensures Explained(plan, RunStep(r, i, Fixed(plan)).tx)
  {
    var b := StartStep(r, i).tx;
    assert KeepsHalts(r.tx, b);
    ExplainedKept(plan, r.tx, b);
    var s := RunStep(r, i, Fixed(plan)).tx;
    RunStepRow(r, i, Fixed(plan));
    assert KeepsHalts(r.tx, s);
    assert Consistent(plan, s.steps);
    assert Reached(plan, s.steps, i);
    ExplainedKept(plan, r.tx, s);
  }

  lemma HaltExplains(plan: Plan, r: Trace, i: nat)
    requires InOrder(r.tx.steps) && Explained(plan, r.tx) && i < |r.tx.steps|
    requires !r.tx.steps[i].Settled() && SettledUpTo(r.tx.steps, i)
    requires plan(r.tx.steps[i].order).RaisesBusiness? && plan(r.tx.steps[i].order).halts
    ensures Explained(plan, SkipFrom(RunStep(r, i, Fixed(plan)).tx, i + 1))
  {
    var s := RunStep(r, i, Fixed(plan)).tx;
    RunStepRow(r, i, Fixed(plan));
    StepExplains(plan, r, i);
    InOrderUpdate(r.tx.steps, i, s.steps[i]);
    SkipExplains(plan, s, i + 1, i);
  }

  lemma StepLogExplains(r: Trace, i: nat, plan: Plan)
    requires Explained(plan, r.tx) && LogExplained(plan, r.log)
    requires i < |r.tx.steps| && !r.tx.steps[i].Settled() && SettledUpTo(r.tx.steps, i)
    ensures var s := RunStep(r, i, Fixed(plan));
            Explained(plan, s.tx) && LogExplained(plan, s.log)
  {
    RunStepRow(r, i, Fixed(plan));
    StepExplains(plan, r, i);
  }

  lemma {:induction false} PassExplains(r: Trace, i: nat, blocked: set<int>, plan: Plan, goal: seq<Status>)
    requires AtStep(plan, goal, r.tx.steps, i, blocked)
    requires Explained(plan, r.tx) && LogExplained(plan, r.log)
    ensures var u := PassFrom(r, i, blocked, Fixed(plan));
            Explained(plan, u.tx) && LogExplained(plan, u.log)
    decreases |r.tx.steps| - i
  {
    if i == |r.tx.steps| {
    } else if !Runs(r.tx.steps[i], blocked) {
      PassExplains(r, i + 1, blocked, plan, goal);
    } else {
      StepCarries(r, i, blocked, plan, goal);
      StepLogExplains(r, i, plan);
      var e := plan(r.tx.steps[i].order);
      if !StopsPass(e) {
        PassExplains(RunStep(r, i, Fixed(plan)), i + 1, blocked, plan, goal);
      } else if e.RaisesBusiness? {
        HaltExplains(plan, r, i);
      }
    }
  }

  lemma RescheduleExplains(plan: Plan, t: Snapshot)
    requires Explained(plan, t)
    ensures Explained(plan, Reschedule(t))
  {
    assert KeepsHalts(t, Reschedule(t));
    ExplainedKept(plan, t, Reschedule(t));
  }

  lemma {:induction false} RetryExplains(r: Trace, maxRetries: nat, plan: Plan, goal: seq<Status>)
    requires AtEnd(plan, goal, r.tx.steps)
    requires Explained(plan, r.tx) && LogExplained(plan, r.log)
    requires LogOnTrack(plan, goal, r.log)
    ensures var u := RetryFrom(r, maxRetries, Fixed(plan));
            Explained(plan, u.tx) && LogExplained(plan, u.log)
    decreases if r.tx.retryCount < maxRetries then maxRetries - r.tx.retryCount else 0
  {
    if r.tx.retryCount < maxRetries && HasRetryable(r.tx.steps) {
      var b := Reschedule(r.tx);
      RescheduleTracks(r.tx, plan, goal);
      RescheduleExplains(plan, r.tx);
      PassTracks(r.(tx := b), 0, BusinessFailedOrders(b.steps), plan, goal);
      PassExplains(r.(tx := b), 0, BusinessFailedOrders(b.steps), plan, goal);
      RetryExplains(Checkpoint(PassFrom(r.(tx := b), 0, BusinessFailedOrders(b.steps), Fixed(plan))), maxRetries, plan, goal);
    }
  }

  lemma SameStepsExplained(plan: Plan, t: Snapshot, t': Snapshot)
    requires Explained(plan, t) && t'.steps == t.steps && t.history <= t'.history
    ensures Explained(plan, t')
  {
  }

  lemma EndsExplained(plan: Plan, t: Snapshot)
    requires Explained(plan, t)
    ensures Begin(t).steps == t.steps ==> Explained(plan, Begin(t))
    ensures Explained(plan, Complete(t))
  {
    if Begin(t).steps == t.steps {
      SameStepsExplained(plan, t, Begin(t));
    }
    SameStepsExplained(plan, t, Complete(t));
  }

  lemma WorkExplains(t: Snapshot, maxRetries: nat, plan: Plan)
    requires Startable(t) && Explained(plan, t)
    ensures var w := Work(t, maxRetries, Fixed(plan));
            Explained(plan, w.tx) && LogExplained(plan, w.log)
  {
    var goal := Target(plan, t.steps);
    BeginTracks(t, plan);
    EndsExplained(plan, t);
    var start := Checkpoint(Trace(Begin(t), []));
    assert LogExplained(plan, start.log);
    PassTracks(start, 0, InitialBlocked(t), plan, goal);
    PassExplains(start, 0, InitialBlocked(t), plan, goal);
    RetryExplains(PassFrom(start, 0, InitialBlocked(t), Fixed(plan)), maxRetries, plan, goal);
  }

  /** Every checkpoint of a run from an explained start is explained. */
  lemma RunExplains(t: Snapshot, maxRetries: nat, plan: Plan)
    requires Startable(t) && Explained(plan, t)
    ensures LogExplained(plan, Run(t, maxRetries, Fixed(plan)).log)
  {
    WorkExplains(t, maxRetries, plan);
    EndsExplained(plan, Work(t, maxRetries, Fixed(plan)).tx);
  }
}
