/** The exact condition for crash-recovery equivalence at every crash point, including the
    window between a halting failure's checkpoint and the checkpoint of its skips. */
module CrashExact {
  import opened Options
  import opened Records
  import opened EngineSpec
  import opened EngineFacts
  import opened EngineRuns
  import opened EngineSettles
  import opened RecoverySpec
  import opened Sessions
  import opened CrashTarget
  import opened CrashSkips
  import opened CrashRecovery

  /** If the first outcome that stops the pass is a halting business failure, every step
      behind it only skips itself. It can be read off the definition before the run. */
  ghost predicate Safe(plan: Plan, keys: seq<Key>) {
    forall p, j :: 0 <= p < j < |keys| && FirstPlannedStop(plan, keys, p) && plan(keys[p].order).RaisesBusiness? ==>
                     plan(keys[j].order) == SkipsItself
  }

  ghost predicate FirstPlannedStop(plan: Plan, keys: seq<Key>, p: nat)
    requires p < |keys|
  {
    StopsPass(plan(keys[p].order)) && forall i :: 0 <= i < p ==> !StopsPass(plan(keys[i].order))
  }

  lemma {:induction false} LeastStop(plan: Plan, keys: seq<Key>, i: nat, n: nat) returns (p: nat)
    requires n <= i < |keys| && StopsPass(plan(keys[i].order))
    requires forall q :: 0 <= q < n ==> !StopsPass(plan(keys[q].order))
    ensures p <= i && FirstPlannedStop(plan, keys, p)
    decreases i - n
  {
    if StopsPass(plan(keys[n].order)) {
      p := n;
    } else {
      p := LeastStop(plan, keys, i, n + 1);
    }
  }

  lemma KeysAt(c: Snapshot, keys: seq<Key>)
    requires Keys(c.steps) == keys
    ensures |keys| == |c.steps| && forall i :: 0 <= i < |keys| ==> keys[i] == c.steps[i].StepKey()
  {
  }

  /** A step settled although its outcome stops the pass is the halting failure itself. */
  lemma SettledStop(plan: Plan, c: Snapshot, p: nat)
    requires InOrder(c.steps) && Explained(plan, c) && p < |c.steps| && c.steps[p].Settled()
    requires FirstPlannedStop(plan, Keys(c.steps), p)
    ensures plan(c.steps[p].order).RaisesBusiness?
  {
    KeysAt(c, Keys(c.steps));
  }

  lemma SafeNoLate(plan: Plan, c: Snapshot)
    requires InOrder(c.steps) && Explained(plan, c) && Safe(plan, Keys(c.steps))
    ensures !LateRunner(plan, c.steps)
  {
    var keys := Keys(c.steps);
    KeysAt(c, keys);
    forall i, j | 0 <= i < j < |c.steps| && Halting(c.steps[i]) && c.steps[j].status == Pending
      ensures plan(c.steps[j].order) == SkipsItself
    {
      var p := LeastStop(plan, keys, i, 0);
      assert Reached(plan, c.steps, i);
      SettledStop(plan, c, p);
    }
  }

  // ---------- Safe plans recover from every crash ----------

  lemma LogKeys(t: Snapshot, maxRetries: nat, oracle: Oracle, k: nat)
    requires k < |Run(t, maxRetries, oracle).log|
    ensures Keys(Run(t, maxRetries, oracle).log[k].steps) == Keys(t.steps)
  {
    RunContinues(t, maxRetries, oracle);
  }

  lemma SurvivorKeys(s: Session, d: Snapshot)
    requires s.landed <= |SessionRun(s, d).log|
    ensures Keys(Survivor(d, SessionRun(s, d).log, s.landed).steps) == Keys(d.steps)
  {
    if s.landed != 0 {
      LogKeys(Resumed(d, s.retryBusiness), s.maxRetries, s.oracle, s.landed - 1);
      ResumedRows(d, s.retryBusiness);
    }
  }

  lemma {:induction false} SafeCrashesKeepGoal(plan: Plan, goal: seq<Status>, d: Snapshot, sessions: seq<Session>)
    requires Durable(plan, goal, d) && AllFollow(plan, sessions) && Possible(d, sessions) && Safe(plan, Keys(d.steps))
    ensures Durable(plan, goal, After(d, sessions))
    decreases |sessions|
  {
    if |sessions| > 0 {
      var s := sessions[0];
      var c := Survivor(d, SessionRun(s, d).log, s.landed);
      assert Follows(plan, s);
      SessionDurable(plan, goal, s, d);
      SurvivorKeys(s, d);
      SafeNoLate(plan, c);
      SafeCrashesKeepGoal(plan, goal, c, sessions[1..]);
    }
  }

  /** One crash schedule: `landed` checkpoints of the first session, then sessions that die,
      then one that survives and ends as the uninterrupted run does. */
  ghost predicate Recovers(plan: Plan, t: Snapshot, maxRetries: nat, landed: nat, sessions: seq<Session>, last: Session) {
    var r := Run(t, maxRetries, Fixed(plan));
    landed <= |r.log| && AllFollow(plan, sessions) && Follows(plan, last) && Possible(Survivor(t, r.log, landed), sessions) ==>
      var e := SessionRun(last, After(Survivor(t, r.log, landed), sessions)).tx;
      Statuses(e.steps) == Statuses(r.tx.steps) && e.status == r.tx.status
  }

  function Survives(plan: Plan): Session { Session(Fixed(plan), 0, false, 0) }

  /** What the first session of a safe plan leaves, wherever it dies, is bound for the goal. */
  lemma FirstCrashDurable(plan: Plan, t: Snapshot, maxRetries: nat, landed: nat)
    requires Fresh(t) && Safe(plan, Keys(t.steps)) && landed <= |Run(t, maxRetries, Fixed(plan)).log|
    ensures var d := Survivor(t, Run(t, maxRetries, Fixed(plan)).log, landed);
            Durable(plan, Target(plan, t.steps), d) && Keys(d.steps) == Keys(t.steps)
  {
    FreshDurable(plan, t);
    if landed != 0 {
      RunDurable(t, maxRetries, plan, landed - 1);
      LogKeys(t, maxRetries, Fixed(plan), landed - 1);
      SafeNoLate(plan, Run(t, maxRetries, Fixed(plan)).log[landed - 1]);
    }
  }

  lemma SafeRecovers(plan: Plan, t: Snapshot, maxRetries: nat, landed: nat, sessions: seq<Session>, last: Session)
    requires Fresh(t) && Safe(plan, Keys(t.steps))
    ensures Recovers(plan, t, maxRetries, landed, sessions, last)
  {
    var goal := Target(plan, t.steps);
    var r := Run(t, maxRetries, Fixed(plan));
    if landed <= |r.log| && AllFollow(plan, sessions) && Follows(plan, last) && Possible(Survivor(t, r.log, landed), sessions) {
      var d := Survivor(t, r.log, landed);
      FirstCrashDurable(plan, t, maxRetries, landed);
      FreshDurable(plan, t);
      SafeCrashesKeepGoal(plan, goal, d, sessions);
      SessionReachesGoal(plan, goal, last, After(d, sessions));
      RunReachesTarget(t, maxRetries, plan);
      RunEnds(t, maxRetries, Fixed(plan));
      SameStatusesSameDone(SessionRun(last, After(d, sessions)).tx.steps, r.tx.steps);
    }
  }

  // ---------- Unsafe plans do not ----------

  /** The durable snapshot in the window: step `p` has failed and halts, nothing after it
      has been touched. */
  ghost predicate InWindow(c: Snapshot, t: Snapshot, p: nat) {
    && c.status == InProgress
    && p < |c.steps| == |t.steps|
    && Halting(c.steps[p])
    && SettledUpTo(c.steps, p)
    && forall j :: p < j < |c.steps| ==> c.steps[j] == t.steps[j]
  }

  /** The pass has settled the steps before `i` and not touched the others. */
  ghost predicate Nearing(c: Snapshot, i: nat, t: Snapshot, p: nat) {
    && i <= p < |c.steps| == |t.steps| && c.status == InProgress && SettledUpTo(c.steps, i)
    && forall j :: i <= j < |t.steps| ==> c.steps[j] == t.steps[j] && t.steps[j].status == Pending
  }

  ghost predicate ShowsWindow(log: seq<Snapshot>, t: Snapshot, p: nat) {
    exists k: nat :: k < |log| && InWindow(log[k], t, p)
  }

  /** A step before the planned stop is settled and the pass goes on. */
  lemma WindowNears(r: Trace, i: nat, plan: Plan, t: Snapshot, p: nat) returns (s: Trace)
    requires i < p && Nearing(r.tx, i, t, p) && !StopsPass(plan(t.steps[i].order))
    ensures Nearing(s.tx, i + 1, t, p) && PassFrom(r, i, {}, Fixed(plan)) == PassFrom(s, i + 1, {}, Fixed(plan))
  {
    s := RunStep(r, i, Fixed(plan));
    RunStepRow(r, i, Fixed(plan));
  }

  /** The planned stop's own checkpoint is in the window. */
  lemma WindowOpens(r: Trace, plan: Plan, t: Snapshot, p: nat)
    requires Nearing(r.tx, p, t, p) && plan(t.steps[p].order).RaisesBusiness? && StopsPass(plan(t.steps[p].order))
    ensures ShowsWindow(PassFrom(r, p, {}, Fixed(plan)).log, t, p)
  {
    var s := RunStep(r, p, Fixed(plan));
    RunStepRow(r, p, Fixed(plan));
    assert InWindow(s.tx, t, p);
    StopKeepsLog(s, p, plan(t.steps[p].order));
    assert PassFrom(r, p, {}, Fixed(plan)).log[|r.log| + 1] == s.tx;
  }

  /** The pass over a fresh transaction writes that snapshot at its first planned stop. */
  lemma {:induction false} PassShowsWindow(r: Trace, i: nat, plan: Plan, t: Snapshot, p: nat)
    requires Nearing(r.tx, i, t, p) && plan(t.steps[p].order).RaisesBusiness? && StopsPass(plan(t.steps[p].order))
    requires forall q :: 0 <= q < p ==> !StopsPass(plan(t.steps[q].order))
    ensures ShowsWindow(PassFrom(r, i, {}, Fixed(plan)).log, t, p)
    decreases p - i
  {
    if i < p {
      var s := WindowNears(r, i, plan, t, p);
      PassShowsWindow(s, i + 1, plan, t, p);
    } else {
      WindowOpens(r, plan, t, p);
    }
  }

  lemma StopKeepsLog(s: Trace, p: nat, e: Effect)
    requires p < |s.tx.steps|
    ensures s.log <= StopAt(s, p, e).log
  {
  }

  lemma WindowInRun(t: Snapshot, maxRetries: nat, plan: Plan, p: nat) returns (k: nat)
    requires Fresh(t) && p < |t.steps|
    requires FirstPlannedStop(plan, Keys(t.steps), p) && plan(t.steps[p].order).RaisesBusiness?
    ensures k < |Run(t, maxRetries, Fixed(plan)).log|
    ensures InWindow(Run(t, maxRetries, Fixed(plan)).log[k], t, p)
  {
    var start := Checkpoint(Trace(Begin(t), []));
    assert start.tx.steps == t.steps;
    KeysAt(t, Keys(t.steps));
    assert forall q :: 0 <= q < p ==> !StopsPass(plan(Keys(t.steps)[q].order));
    PassShowsWindow(start, 0, plan, t, p);
    var log := PassFrom(start, 0, {}, Fixed(plan)).log;
    k :| k < |log| && InWindow(log[k], t, p);
    RetryLogGrows(PassFrom(start, 0, {}, Fixed(plan)), maxRetries, Fixed(plan));
  }

  lemma {:induction false} FirstRunner(plan: Plan, keys: seq<Key>, j: nat, n: nat) returns (m: nat)
    requires n <= j < |keys| && plan(keys[j].order) != SkipsItself
    ensures n <= m <= j && plan(keys[m].order) != SkipsItself
    ensures forall q :: n <= q < m ==> plan(keys[q].order) == SkipsItself
    decreases j - n
  {
    if plan(keys[n].order) != SkipsItself {
      m := n;
    } else {
      m := FirstRunner(plan, keys, j, n + 1);
    }
  }

  /** Resuming from the window runs the first later step that does more than skip itself. */
  lemma WindowDiverges(plan: Plan, t: Snapshot, c: Snapshot, p: nat, j: nat)
    requires Fresh(t) && InWindow(c, t, p) && Keys(c.steps) == Keys(t.steps)
    requires FirstPlannedStop(plan, Keys(t.steps), p) && plan(t.steps[p].order).RaisesBusiness?
    requires p < j < |t.steps| && plan(t.steps[j].order) != SkipsItself
    ensures Target(plan, c.steps) != Target(plan, t.steps)
  {
    var keys := Keys(t.steps);
    KeysAt(t, keys);
    KeysAt(c, keys);
    var m := FirstRunner(plan, keys, j, p + 1);
    assert IsFirstStop(plan, t.steps, p);
    assert Target(plan, t.steps)[m] == Skipped;
    var q := FirstStop(plan, c.steps, 0);
    assert m <= q;
    assert Target(plan, c.steps)[m] == TargetAt(plan, c.steps, q, m) != Skipped;
  }

  lemma WindowStartable(plan: Plan, t: Snapshot, c: Snapshot, p: nat)
    requires Fresh(t) && InWindow(c, t, p) && InOrder(c.steps)
    ensures Startable(Resumed(c, false))
  {
  }

  lemma WindowSession(plan: Plan, t: Snapshot, c: Snapshot, p: nat)
    requires Fresh(t) && InWindow(c, t, p) && InOrder(c.steps) && Explained(plan, c)
    ensures Statuses(SessionRun(Survives(plan), c).tx.steps) == Target(plan, c.steps)
  {
    ResumeKeepsTarget(plan, c);
    WindowStartable(plan, t, c, p);
    RunReachesTarget(Resumed(c, false), 0, plan);
  }

  lemma CrashAtDiverges(plan: Plan, t: Snapshot, maxRetries: nat, r: Trace, k: nat)
    requires r == Run(t, maxRetries, Fixed(plan)) && k < |r.log|
    requires Statuses(SessionRun(Survives(plan), r.log[k]).tx.steps) != Statuses(r.tx.steps)
    ensures !Recovers(plan, t, maxRetries, k + 1, [], Survives(plan))
  {
  }

  lemma WindowMismatch(plan: Plan, t: Snapshot, c: Snapshot, p: nat, j: nat)
    requires Fresh(t) && InWindow(c, t, p) && InOrder(c.steps) && Explained(plan, c) && Keys(c.steps) == Keys(t.steps)
    requires FirstPlannedStop(plan, Keys(t.steps), p) && plan(t.steps[p].order).RaisesBusiness?
    requires p < j < |t.steps| && plan(t.steps[j].order) != SkipsItself
    ensures Statuses(SessionRun(Survives(plan), c).tx.steps) != Target(plan, t.steps)
  {
    WindowDiverges(plan, t, c, p, j);
    WindowSession(plan, t, c, p);
  }

  lemma LogFacts(plan: Plan, t: Snapshot, maxRetries: nat, k: nat)
    requires Fresh(t) && k < |Run(t, maxRetries, Fixed(plan)).log|
    ensures var c := Run(t, maxRetries, Fixed(plan)).log[k];
            InOrder(c.steps) && Explained(plan, c) && Keys(c.steps) == Keys(t.steps)
  {
    FreshDurable(plan, t);
    RunDurable(t, maxRetries, plan, k);
    LogKeys(t, maxRetries, Fixed(plan), k);
  }

  lemma WindowFails(plan: Plan, t: Snapshot, maxRetries: nat, p: nat, j: nat) returns (landed: nat)
    requires Fresh(t) && p < j < |t.steps|
    requires FirstPlannedStop(plan, Keys(t.steps), p) && plan(t.steps[p].order).RaisesBusiness?
    requires plan(t.steps[j].order) != SkipsItself
    ensures !Recovers(plan, t, maxRetries, landed, [], Survives(plan))
  {
    var k := WindowInRun(t, maxRetries, plan, p);
    landed := k + 1;
    WindowSessionDiffers(plan, t, maxRetries, p, j, k);
    CrashAtDiverges(plan, t, maxRetries, Run(t, maxRetries, Fixed(plan)), k);
  }

  lemma WindowSessionDiffers(plan: Plan, t: Snapshot, maxRetries: nat, p: nat, j: nat, k: nat)
    requires Fresh(t) && p < j < |t.steps| && k < |Run(t, maxRetries, Fixed(plan)).log|
    requires InWindow(Run(t, maxRetries, Fixed(plan)).log[k], t, p)
    requires FirstPlannedStop(plan, Keys(t.steps), p) && plan(t.steps[p].order).RaisesBusiness?
    requires plan(t.steps[j].order) != SkipsItself
    ensures var r := Run(t, maxRetries, Fixed(plan));
            Statuses(SessionRun(Survives(plan), r.log[k]).tx.steps) != Statuses(r.tx.steps)
  {
    LogFacts(plan, t, maxRetries, k);
    WindowMismatch(plan, t, Run(t, maxRetries, Fixed(plan)).log[k], p, j);
    FreshDurable(plan, t);
    RunReachesTarget(t, maxRetries, plan);
  }

  lemma UnsafeFails(plan: Plan, t: Snapshot, maxRetries: nat) returns (landed: nat)
    requires Fresh(t) && !Safe(plan, Keys(t.steps))
    ensures !Recovers(plan, t, maxRetries, landed, [], Survives(plan))
  {
    var keys := Keys(t.steps);
    KeysAt(t, keys);
    var p, j :| 0 <= p < j < |keys| && FirstPlannedStop(plan, keys, p) && plan(keys[p].order).RaisesBusiness?
                && plan(keys[j].order) != SkipsItself;
    landed := WindowFails(plan, t, maxRetries, p, j);
  }

  /** Crash-recovery equivalence holds at every crash point, for every schedule, exactly when
      the plan is safe. */
  lemma CrashEquivalenceExactly(plan: Plan, t: Snapshot, maxRetries: nat)
    requires Fresh(t)
    ensures Safe(plan, Keys(t.steps)) <==>
            forall landed, sessions, last :: Recovers(plan, t, maxRetries, landed, sessions, last)
  {
    if Safe(plan, Keys(t.steps)) {
      forall landed: nat, sessions: seq<Session>, last: Session
        ensures Recovers(plan, t, maxRetries, landed, sessions, last)
      {
        SafeRecovers(plan, t, maxRetries, landed, sessions, last);
      }
    } else {
      var landed := UnsafeFails(plan, t, maxRetries);
    }
  }
}
