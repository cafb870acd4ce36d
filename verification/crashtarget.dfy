/** Runs whose step outcomes are fixed. The multi-pass engine is compared with a closed
    form, `Target`, that reads the final statuses off the steps and their outcomes. */
module CrashTarget {
  import opened Options
  import opened Records
  import opened EngineSpec
  import opened EngineRuns
  import opened EngineSettles
  import opened RecoverySpec

  /** The outcome of each step, by execution order, the same on every call. */
  type Plan = int -> Effect

  function Fixed(plan: Plan): Oracle {
    (order: int, written: nat) => plan(order)
  }

  /** An unsettled step whose outcome ends the pass. */
  predicate Stops(plan: Plan, s: StepRow) {
    !s.Settled() && StopsPass(plan(s.order))
  }

  predicate IsFirstStop(plan: Plan, steps: seq<StepRow>, p: nat) {
    && p <= |steps|
    && (p < |steps| ==> Stops(plan, steps[p]))
    && forall i :: 0 <= i < p ==> !Stops(plan, steps[i])
  }

  function FirstStop(plan: Plan, steps: seq<StepRow>, i: nat): (p: nat)
    requires i <= |steps| && forall j :: 0 <= j < i ==> !Stops(plan, steps[j])
    ensures IsFirstStop(plan, steps, p)
    decreases |steps| - i
  {
    if i == |steps| || Stops(plan, steps[i]) then i else FirstStop(plan, steps, i + 1)
  }

  /** The final status of step `j` when `p` is the first stop. */
  function TargetAt(plan: Plan, steps: seq<StepRow>, p: nat, j: nat): Status
    requires j < |steps| && (p < j ==> p < |steps|)
  {
    if steps[j].Settled() then steps[j].status
    else if j < p then EffectStatus(plan(steps[j].order))
    else if j == p then Failed
    else if plan(steps[p].order).RaisesBusiness? then Skipped
    else Pending
  }

  /** The final statuses: settled steps stay, steps up to the first stop get their outcome,
      and the unsettled rest is skipped after a halting failure and pending after a system one. */
  function Target(plan: Plan, steps: seq<StepRow>): seq<Status> {
    var p := FirstStop(plan, steps, 0);
    seq(|steps|, j requires 0 <= j < |steps| => TargetAt(plan, steps, p, j))
  }

  /** `a` and `b` differ at most in how their unsettled steps are recorded. */
  ghost predicate Alike(a: seq<StepRow>, b: seq<StepRow>) {
    && |a| == |b|
    && forall i :: 0 <= i < |a| ==>
         a[i].order == b[i].order && a[i].Settled() == b[i].Settled() && (a[i].Settled() ==> a[i].status == b[i].status)
  }

  lemma AlikeTarget(plan: Plan, a: seq<StepRow>, b: seq<StepRow>)
    requires Alike(a, b)
    ensures Target(plan, a) == Target(plan, b)
  {
  }

  /** Settling the first unsettled step with an outcome that does not stop the pass, or the
      rest after one that halts it, is what the target already says. */
  lemma SettledTarget(plan: Plan, a: seq<StepRow>, b: seq<StepRow>, i: nat)
    requires i < |a| == |b| && !a[i].Settled() && !StopsPass(plan(a[i].order))
    requires forall j :: 0 <= j < i ==> a[j].Settled()
    requires forall j :: 0 <= j < |a| && j != i ==> b[j] == a[j]
    requires b[i].order == a[i].order && b[i].Settled() && b[i].status == EffectStatus(plan(a[i].order))
    ensures Target(plan, a) == Target(plan, b)
  {
  }

  /** Every step before the first stop is settled and the stop is a system failure. */
  ghost predicate Finished(plan: Plan, steps: seq<StepRow>) {
    var p := FirstStop(plan, steps, 0);
    && SettledUpTo(steps, p)
    && (p < |steps| ==> steps[p].SystemFailed() && !plan(steps[p].order).RaisesBusiness?)
    && forall j :: p < j < |steps| ==> steps[j].Settled() || steps[j].status == Pending
  }

  lemma FinishedStatuses(plan: Plan, steps: seq<StepRow>)
    requires Finished(plan, steps)
    ensures Statuses(steps) == Target(plan, steps)
  {
  }

  /** A halting business failure with a later step still pending: what is durable between
      the checkpoint of the failure and the checkpoint of the skips it causes. */
  ghost predicate HaltedOpen(steps: seq<StepRow>) {
    exists i, j :: 0 <= i < j < |steps| && Halting(steps[i]) && steps[j].status == Pending
  }

  /** A pending step behind a halting failure that would do more than skip itself. */
  ghost predicate LateRunner(plan: Plan, steps: seq<StepRow>) {
    exists i, j :: 0 <= i < j < |steps| && Halting(steps[i]) && steps[j].status == Pending && plan(steps[j].order) != SkipsItself
  }

  ghost predicate OnTrack(plan: Plan, goal: seq<Status>, c: Snapshot) {
    Target(plan, c.steps) == goal || LateRunner(plan, c.steps)
  }

  /** What the pass loop knows when it reaches position `i`. */
  ghost predicate AtStep(plan: Plan, goal: seq<Status>, steps: seq<StepRow>, i: nat, blocked: set<int>) {
    && InOrder(steps)
    && SettledUpTo(steps, i)
    && SettledOrPending(steps)
    && BlockedFrom(steps, i, blocked)
    && Target(plan, steps) == goal
  }

  /** What it knows when the pass is over. */
  ghost predicate AtEnd(plan: Plan, goal: seq<Status>, steps: seq<StepRow>) {
    InOrder(steps) && Finished(plan, steps) && Target(plan, steps) == goal
  }

  lemma ContinueTracks(plan: Plan, goal: seq<Status>, a: seq<StepRow>, i: nat, row: StepRow, blocked: set<int>)
    requires AtStep(plan, goal, a, i, blocked) && i < |a| && !a[i].Settled()
    requires Outcome(plan(a[i].order), a[i], row) && !StopsPass(plan(a[i].order))
    ensures AtStep(plan, goal, a[i := row], i + 1, blocked)
  {
    InOrderUpdate(a, i, row);
    SettledTarget(plan, a, a[i := row], i);
  }

  lemma SystemTracks(plan: Plan, goal: seq<Status>, a: seq<StepRow>, i: nat, row: StepRow, blocked: set<int>)
    requires AtStep(plan, goal, a, i, blocked) && i < |a| && !a[i].Settled()
    requires Outcome(plan(a[i].order), a[i], row) && StopsPass(plan(a[i].order)) && !plan(a[i].order).RaisesBusiness?
    ensures AtEnd(plan, goal, a[i := row])
  {
    InOrderUpdate(a, i, row);
    AlikeTarget(plan, a, a[i := row]);
    assert IsFirstStop(plan, a[i := row], i);
  }

  lemma HaltTracks(plan: Plan, goal: seq<Status>, a: seq<StepRow>, i: nat, row: StepRow, b: seq<StepRow>, blocked: set<int>)
    requires AtStep(plan, goal, a, i, blocked) && i < |a| && !a[i].Settled()
    requires Outcome(plan(a[i].order), a[i], row) && StopsPass(plan(a[i].order)) && plan(a[i].order).RaisesBusiness?
    requires |b| == |a| && forall m :: 0 <= m < |a| ==>
               b[m] == var c := a[i := row][m]; if m > i && c.status == Pending then c.(status := Skipped) else c
    ensures AtEnd(plan, goal, b)
    ensures LateRunner(plan, a[i := row]) || Target(plan, a[i := row]) == goal
  {
    var c := a[i := row];
    InOrderUpdate(a, i, row);
    assert InOrder(b);
    assert IsFirstStop(plan, a, i);
    assert SettledUpTo(b, |b|);
    assert IsFirstStop(plan, b, |b|);
    assert Target(plan, b) == goal;
    if !LateRunner(plan, c) {
      assert Halting(c[i]);
      assert forall j :: i < j < |c| && c[j].status == Pending ==> plan(c[j].order) == SkipsItself;
      assert IsFirstStop(plan, c, |c|);
    }
  }

  lemma StepCarries(r: Trace, i: nat, blocked: set<int>, plan: Plan, goal: seq<Status>)
    requires AtStep(plan, goal, r.tx.steps, i, blocked) && i < |r.tx.steps| && Runs(r.tx.steps[i], blocked)
    ensures !r.tx.steps[i].Settled() && SettledUpTo(r.tx.steps, i) && InOrder(r.tx.steps)
    ensures !StopsPass(plan(r.tx.steps[i].order)) ==>
              AtStep(plan, goal, RunStep(r, i, Fixed(plan)).tx.steps, i + 1, blocked)
  {
    RunStepRow(r, i, Fixed(plan));
    if !StopsPass(plan(r.tx.steps[i].order)) {
      ContinueTracks(plan, goal, r.tx.steps, i, RunStep(r, i, Fixed(plan)).tx.steps[i], blocked);
    }
  }

  ghost predicate LogOnTrack(plan: Plan, goal: seq<Status>, log: seq<Snapshot>) {
    forall k :: 0 <= k < |log| ==> OnTrack(plan, goal, log[k])
  }

  lemma StepLogTracks(r: Trace, i: nat, blocked: set<int>, plan: Plan, goal: seq<Status>)
    requires AtStep(plan, goal, r.tx.steps, i, blocked) && i < |r.tx.steps| && Runs(r.tx.steps[i], blocked)
    requires LogOnTrack(plan, goal, r.log)
    ensures LogOnTrack(plan, goal, StartStep(r, i).log)
    ensures !StopsPass(plan(r.tx.steps[i].order)) ==> LogOnTrack(plan, goal, RunStep(r, i, Fixed(plan)).log)
  {
    AlikeTarget(plan, r.tx.steps, StartStep(r, i).tx.steps);
    RunStepRow(r, i, Fixed(plan));
    StepCarries(r, i, blocked, plan, goal);
  }

  lemma StopTracks(r: Trace, i: nat, blocked: set<int>, plan: Plan, goal: seq<Status>)
    requires AtStep(plan, goal, r.tx.steps, i, blocked) && i < |r.tx.steps| && Runs(r.tx.steps[i], blocked)
    requires StopsPass(plan(r.tx.steps[i].order)) && LogOnTrack(plan, goal, r.log)
    ensures var u := StopAt(RunStep(r, i, Fixed(plan)), i, plan(r.tx.steps[i].order));
            AtEnd(plan, goal, u.tx.steps) && LogOnTrack(plan, goal, u.log)
  {
    var a, e := r.tx.steps, plan(r.tx.steps[i].order);
    var s := RunStep(r, i, Fixed(plan));
    RunStepRow(r, i, Fixed(plan));
    StepLogTracks(r, i, blocked, plan, goal);
    if e.RaisesBusiness? {
      SkipSettles(s.tx, i + 1);
      HaltTracks(plan, goal, a, i, s.tx.steps[i], SkipFrom(s.tx, i + 1).steps, blocked);
    } else {
      SystemTracks(plan, goal, a, i, s.tx.steps[i], blocked);
    }
  }

  lemma {:induction false} PassTracks(r: Trace, i: nat, blocked: set<int>, plan: Plan, goal: seq<Status>)
    requires AtStep(plan, goal, r.tx.steps, i, blocked) && LogOnTrack(plan, goal, r.log)
    ensures var u := PassFrom(r, i, blocked, Fixed(plan));
            AtEnd(plan, goal, u.tx.steps) && LogOnTrack(plan, goal, u.log)
    decreases |r.tx.steps| - i
  {
    if i == |r.tx.steps| {
    } else if !Runs(r.tx.steps[i], blocked) {
      PassTracks(r, i + 1, blocked, plan, goal);
    } else if StopsPass(plan(r.tx.steps[i].order)) {
      StopTracks(r, i, blocked, plan, goal);
    } else {
      StepCarries(r, i, blocked, plan, goal);
      StepLogTracks(r, i, blocked, plan, goal);
      PassTracks(RunStep(r, i, Fixed(plan)), i + 1, blocked, plan, goal);
    }
  }

  lemma RescheduleTracks(t: Snapshot, plan: Plan, goal: seq<Status>)
    requires AtEnd(plan, goal, t.steps)
    ensures AtStep(plan, goal, Reschedule(t).steps, 0, BusinessFailedOrders(Reschedule(t).steps))
  {
    var b := Reschedule(t);
    AlikeTarget(plan, t.steps, b.steps);
    assert InOrder(b.steps);
    BusinessOrdersBlock(b.steps);
  }

  lemma {:induction false} RetryTracks(r: Trace, maxRetries: nat, plan: Plan, goal: seq<Status>)
    requires AtEnd(plan, goal, r.tx.steps)
    requires LogOnTrack(plan, goal, r.log)
    ensures var u := RetryFrom(r, maxRetries, Fixed(plan));
            AtEnd(plan, goal, u.tx.steps) && LogOnTrack(plan, goal, u.log)
    decreases if r.tx.retryCount < maxRetries then maxRetries - r.tx.retryCount else 0
  {
    if r.tx.retryCount < maxRetries && HasRetryable(r.tx.steps) {
      var b := Reschedule(r.tx);
      RescheduleTracks(r.tx, plan, goal);
      PassTracks(r.(tx := b), 0, BusinessFailedOrders(b.steps), plan, goal);
      RetryTracks(Checkpoint(PassFrom(r.(tx := b), 0, BusinessFailedOrders(b.steps), Fixed(plan))), maxRetries, plan, goal);
    }
  }

  lemma BeginTracks(t: Snapshot, plan: Plan)
    requires Startable(t)
    ensures Begin(t).steps == t.steps
    ensures AtStep(plan, Target(plan, t.steps), t.steps, 0, InitialBlocked(t))
  {
  }

  lemma WorkTracks(t: Snapshot, maxRetries: nat, plan: Plan)
    requires Startable(t)
    ensures var u := Work(t, maxRetries, Fixed(plan));
            && AtEnd(plan, Target(plan, t.steps), u.tx.steps)
            && LogOnTrack(plan, Target(plan, t.steps), u.log)
  {
    var goal := Target(plan, t.steps);
    var start := Checkpoint(Trace(Begin(t), []));
    BeginTracks(t, plan);
    PassTracks(start, 0, InitialBlocked(t), plan, goal);
    RetryTracks(PassFrom(start, 0, InitialBlocked(t), Fixed(plan)), maxRetries, plan, goal);
  }

  /** The closed form is right: whatever the retry budget, a run with fixed outcomes ends
      with exactly the target statuses, and every checkpoint still leads there, except one
      that shows a halting failure with a step pending behind it that would run. */
  lemma RunReachesTarget(t: Snapshot, maxRetries: nat, plan: Plan)
    requires Startable(t)
    ensures var u := Run(t, maxRetries, Fixed(plan));
            && Statuses(u.tx.steps) == Target(plan, t.steps)
            && AtEnd(plan, Target(plan, t.steps), u.tx.steps)
            && LogOnTrack(plan, Target(plan, t.steps), u.log)
  {
    WorkTracks(t, maxRetries, plan);
    var w := Work(t, maxRetries, Fixed(plan));
    CompleteKeepsSteps(w.tx);
    FinishedStatuses(plan, w.tx.steps);
  }
}
