/** Crash recovery: a session loads the durable transaction, resumes it and runs it; a crash
    keeps exactly the checkpoints written before it. Step outcomes are fixed. */
module CrashRecovery {
  import opened Options
  import opened Records
  import opened EngineSpec
  import opened EngineFacts
  import opened EngineRuns
  import opened EngineSettles
  import opened RecoverySpec
  import opened Sessions
  import opened CrashTarget
  import opened CrashSkips

  /** The session follows the plan and does not retry business failures. */
  ghost predicate Follows(plan: Plan, s: Session) {
    s.oracle == Fixed(plan) && !s.retryBusiness
  }

  ghost predicate AllFollow(plan: Plan, sessions: seq<Session>) {
    forall i :: 0 <= i < |sessions| ==> Follows(plan, sessions[i])
  }

  /** No crashed session leaves a snapshot with a step pending behind a halting failure. */
  ghost predicate AvoidsOpenHalts(d: Snapshot, sessions: seq<Session>)
    requires Possible(d, sessions)
    decreases |sessions|
  {
    |sessions| > 0 ==>
      var s := sessions[0];
      var c := Survivor(d, SessionRun(s, d).log, s.landed);
      !HaltedOpen(c.steps) && AvoidsOpenHalts(c, sessions[1..])
  }

  /** A new transaction, as it is saved before any step runs. */
  ghost predicate Fresh(t: Snapshot) {
    && InOrder(t.steps)
    && t.status == Pending && t.history == []
    && forall i :: 0 <= i < |t.steps| ==> t.steps[i].status == Pending && t.steps[i].exceptions == []
  }

  /** What a durable snapshot keeps for the next session. */
  ghost predicate Durable(plan: Plan, goal: seq<Status>, d: Snapshot) {
    && InOrder(d.steps)
    && Explained(plan, d)
    && Target(plan, d.steps) == goal
    && (d.status == Successful ==> Statuses(d.steps) == goal && AllDone(d.steps))
  }

  // ---------- Resuming keeps the goal ----------

  lemma ResumeKeepsTarget(plan: Plan, d: Snapshot)
    requires Explained(plan, d)
    ensures Target(plan, Resumed(d, false).steps) == Target(plan, d.steps)
  {
    var r := Resumed(d, false);
    ResumedRows(d, false);
    if Interrupted(d) || LastEventIs(d, TransactionResumed) {
      AlikeTarget(plan, d.steps, r.steps);
    } else {
      var p := FirstStop(plan, d.steps, 0);
      forall i | 0 <= i < |d.steps| && d.steps[i].status == Skipped && r.steps[i].status != Skipped
        ensures plan(d.steps[i].order) == SkipsItself && i < p
      {
        assert !HaltPropagated(d, d.steps[i].StepKey());
        assert SelfSkipped(plan, d.steps, i);
      }
      assert IsFirstStop(plan, r.steps, p);
    }
  }

  lemma ResumeKeepsExplained(plan: Plan, d: Snapshot)
    requires Explained(plan, d)
    ensures Explained(plan, Resumed(d, false))
  {
    var r := Resumed(d, false);
    ResumedRows(d, false);
    forall i | 0 <= i < |d.steps| && StopsPass(plan(d.steps[i].order)) && d.steps[i].Settled()
      ensures r.steps[i] == d.steps[i]
    {
      if d.steps[i].status == Skipped {
        assert HaltPropagated(d, d.steps[i].StepKey());
      }
    }
    forall j | 0 <= j < |r.steps| && Reached(plan, d.steps, j) ensures Reached(plan, r.steps, j) {
    }
    forall j | 0 <= j < |r.steps| && r.steps[j].status == Skipped
      ensures HaltPropagated(r, r.steps[j].StepKey()) || SelfSkipped(plan, r.steps, j)
    {
      if HaltPropagated(d, d.steps[j].StepKey()) {
        var i, m :| 0 <= i < |d.steps| && 0 <= m < |d.history| && HaltedBy(d.steps[i], d.history[m], d.steps[j].StepKey());
        assert HaltedBy(r.steps[i], r.history[m], r.steps[j].StepKey());
      } else {
        assert SelfSkipped(plan, d.steps, j) && Reached(plan, r.steps, j);
      }
    }
  }

  lemma ResumeStartable(plan: Plan, goal: seq<Status>, d: Snapshot)
    requires Durable(plan, goal, d)
    ensures Startable(Resumed(d, false)) && Explained(plan, Resumed(d, false))
    ensures Target(plan, Resumed(d, false).steps) == goal
  {
    ResumedRows(d, false);
    ResumeKeepsTarget(plan, d);
    ResumeKeepsExplained(plan, d);
  }

  // ---------- One session ----------

  lemma RunKeepsOrder(t: Snapshot, maxRetries: nat, oracle: Oracle, k: nat)
    requires InOrder(t.steps) && k < |Run(t, maxRetries, oracle).log|
    ensures InOrder(Run(t, maxRetries, oracle).log[k].steps)
  {
    RunContinues(t, maxRetries, oracle);
    KeysKeepOrder(t.steps, Run(t, maxRetries, oracle).log[k].steps);
  }

  /** Every checkpoint of a run from a good start is durable-good, unless it shows a step
      waiting behind a halting failure that would run if it were resumed. */
  lemma RunDurable(t: Snapshot, maxRetries: nat, plan: Plan, k: nat)
    requires Startable(t) && Explained(plan, t)
    requires k < |Run(t, maxRetries, Fixed(plan)).log|
    ensures var c := Run(t, maxRetries, Fixed(plan)).log[k];
            Explained(plan, c) && InOrder(c.steps)
            && (LateRunner(plan, c.steps) || Durable(plan, Target(plan, t.steps), c))
  {
    var goal := Target(plan, t.steps);
    var r := Run(t, maxRetries, Fixed(plan));
    RunReachesTarget(t, maxRetries, plan);
    RunExplains(t, maxRetries, plan);
    RunCheckpoints(t, maxRetries, Fixed(plan));
    RunKeepsOrder(t, maxRetries, Fixed(plan), k);
    RunEnds(t, maxRetries, Fixed(plan));
  }

  lemma LandedCheckpoint(plan: Plan, s: Session, d: Snapshot)
    requires Follows(plan, s) && 0 < s.landed <= |SessionRun(s, d).log|
    ensures var log := Run(Resumed(d, false), s.maxRetries, Fixed(plan)).log;
            s.landed <= |log| && Survivor(d, SessionRun(s, d).log, s.landed) == log[s.landed - 1]
  {
  }

  lemma SessionDurable(plan: Plan, goal: seq<Status>, s: Session, d: Snapshot)
    requires Follows(plan, s) && Durable(plan, goal, d) && s.landed <= |SessionRun(s, d).log|
    ensures var c := Survivor(d, SessionRun(s, d).log, s.landed);
            Explained(plan, c) && InOrder(c.steps) && (LateRunner(plan, c.steps) || Durable(plan, goal, c))
  {
    if s.landed == 0 {
      assert Survivor(d, SessionRun(s, d).log, s.landed) == d;
    } else {
      LandedCheckpoint(plan, s, d);
      ResumedRunDurable(plan, goal, d, s.maxRetries, s.landed - 1);
    }
  }

  lemma ResumedRunDurable(plan: Plan, goal: seq<Status>, d: Snapshot, maxRetries: nat, k: nat)
    requires Durable(plan, goal, d) && k < |Run(Resumed(d, false), maxRetries, Fixed(plan)).log|
    ensures var c := Run(Resumed(d, false), maxRetries, Fixed(plan)).log[k];
            Explained(plan, c) && InOrder(c.steps) && (LateRunner(plan, c.steps) || Durable(plan, goal, c))
  {
    ResumeStartable(plan, goal, d);
    RunDurable(Resumed(d, false), maxRetries, plan, k);
  }

  lemma SessionReachesGoal(plan: Plan, goal: seq<Status>, s: Session, d: Snapshot)
    requires Follows(plan, s) && Durable(plan, goal, d)
    ensures var e := SessionRun(s, d).tx;
            Statuses(e.steps) == goal && e.status == if AllDone(e.steps) then Successful else Failed
  {
    if d.status != Successful {
      ResumeStartable(plan, goal, d);
      RunReachesTarget(Resumed(d, false), s.maxRetries, plan);
      RunEnds(Resumed(d, false), s.maxRetries, Fixed(plan));
    }
  }

  // ---------- Any number of sessions ----------

  lemma {:induction false} CrashesKeepGoal(plan: Plan, goal: seq<Status>, d: Snapshot, sessions: seq<Session>)
    requires Durable(plan, goal, d) && AllFollow(plan, sessions) && Possible(d, sessions) && AvoidsOpenHalts(d, sessions)
    ensures Durable(plan, goal, After(d, sessions))
    decreases |sessions|
  {
    if |sessions| > 0 {
      var s := sessions[0];
      assert Follows(plan, s);
      SessionDurable(plan, goal, s, d);
      CrashesKeepGoal(plan, goal, Survivor(d, SessionRun(s, d).log, s.landed), sessions[1..]);
    }
  }

  lemma FreshDurable(plan: Plan, t: Snapshot)
    requires Fresh(t)
    ensures Startable(t) && Explained(plan, t) && Durable(plan, Target(plan, t.steps), t)
  {
  }

  lemma SameStatusesSameDone(a: seq<StepRow>, b: seq<StepRow>)
    requires Statuses(a) == Statuses(b)
    ensures AllDone(a) <==> AllDone(b)
  {
    assert |a| == |Statuses(a)| && |b| == |Statuses(b)|;
    forall i | 0 <= i < |a| ensures a[i].status == b[i].status {
      assert Statuses(a)[i] == Statuses(b)[i];
    }
  }

  /** Crash-recovery equivalence. A new transaction is run; the first session dies after
      `landed` checkpoints and any number of resumed sessions, with any retry budgets, die
      anywhere, except where a step is left pending behind a halting failure. The session
      that survives ends with the statuses of the uninterrupted run. */
  lemma CrashEquivalence(plan: Plan, t: Snapshot, maxRetries: nat, landed: nat, sessions: seq<Session>, last: Session)
    requires Fresh(t) && landed <= |Run(t, maxRetries, Fixed(plan)).log|
    requires AllFollow(plan, sessions) && Follows(plan, last)
    requires var d := Survivor(t, Run(t, maxRetries, Fixed(plan)).log, landed);
             !HaltedOpen(d.steps) && Possible(d, sessions) && AvoidsOpenHalts(d, sessions)
    ensures var d := Survivor(t, Run(t, maxRetries, Fixed(plan)).log, landed);
            var recovered := SessionRun(last, After(d, sessions)).tx;
            var uninterrupted := Run(t, maxRetries, Fixed(plan)).tx;
            Statuses(recovered.steps) == Statuses(uninterrupted.steps) && recovered.status == uninterrupted.status
  {
    var goal := Target(plan, t.steps);
    var r := Run(t, maxRetries, Fixed(plan));
    var d := Survivor(t, r.log, landed);
    FreshDurable(plan, t);
    if landed != 0 {
      RunDurable(t, maxRetries, plan, landed - 1);
    }
    CrashesKeepGoal(plan, goal, d, sessions);
    SessionReachesGoal(plan, goal, last, After(d, sessions));
    RunReachesTarget(t, maxRetries, plan);
    RunEnds(t, maxRetries, Fixed(plan));
    SameStatusesSameDone(SessionRun(last, After(d, sessions)).tx.steps, r.tx.steps);
  }
}
