/** What the workers of the whole system leave stored is what a chain of crashing sessions
    leaves: the interleaved protocol refines `Sessions`, and crash equivalence carries over. */
module SystemLineage {
  import opened Options
  import opened Records
  import opened EngineSpec
  import opened EngineRuns
  import opened RecoverySpec
  import S = Sessions
  import opened CrashTarget
  import opened CrashRecovery
  import opened CrashExact
  import opened SystemSpec
  import opened SystemInvariants
  import opened SystemRuns
  import Q = QueueSpec

  // ---------- Lives ----------

  /** Which step behaviour and which resume policy the sessions of a transaction may have. */
  type Policy = (Oracle, bool) -> bool

  /** The first session of a transaction and the sessions that resumed it, each with the number
      of its checkpoints that landed. */
  datatype Life = Life(maxRetries: nat, oracle: Oracle, landed: nat, resumed: seq<S.Session>)

  function FirstCrash(built: Snapshot, life: Life): Snapshot
    requires life.landed <= |Run(built, life.maxRetries, life.oracle).log|
  {
    S.Survivor(built, Run(built, life.maxRetries, life.oracle).log, life.landed)
  }

  ghost predicate AllowedSession(ok: Policy, session: S.Session) { ok(session.oracle, session.retryBusiness) }

  /** The life is possible, its sessions are allowed, and it leaves `d` durable. */
  ghost predicate LeadsTo(built: Snapshot, ok: Policy, life: Life, d: Snapshot) {
    && ok(life.oracle, false) && life.landed <= |Run(built, life.maxRetries, life.oracle).log|
    && (forall i :: 0 <= i < |life.resumed| ==> AllowedSession(ok, life.resumed[i]))
    && S.Possible(FirstCrash(built, life), life.resumed)
    && S.After(FirstCrash(built, life), life.resumed) == d
  }

  ghost predicate Descends(built: Snapshot, ok: Policy, d: Snapshot) {
    exists life :: LeadsTo(built, ok, life, d)
  }

  /** Two chains that begin with the same session. */
  lemma SameHead(d: Snapshot, a: seq<S.Session>, b: seq<S.Session>) returns (c: Snapshot)
    requires a != [] && b != [] && a[0] == b[0] && S.Possible(d, a)
    ensures S.Possible(c, a[1..]) && S.After(d, a) == S.After(c, a[1..])
    ensures S.Possible(c, b[1..]) ==> S.Possible(d, b) && S.After(d, b) == S.After(c, b[1..])
  {
    c := S.Survivor(d, S.SessionRun(a[0], d).log, a[0].landed);
  }

  /** One session more. */
  lemma {:induction false} AfterAnother(d: Snapshot, sessions: seq<S.Session>, last: S.Session)
    requires S.Possible(d, sessions) && last.landed <= |S.SessionRun(last, S.After(d, sessions)).log|
    ensures S.Possible(d, sessions + [last])
    ensures S.After(d, sessions + [last]) ==
            S.Survivor(S.After(d, sessions), S.SessionRun(last, S.After(d, sessions)).log, last.landed)
    decreases |sessions|
  {
    if sessions == [] {
      assert [last][1..] == [];
    } else {
      var c := SameHead(d, sessions, sessions + [last]);
      AfterAnother(c, sessions[1..], last);
      assert (sessions + [last])[1..] == sessions[1..] + [last];
    }
  }

  /** A first session under way: what it has saved last and what it still has to save. */
  ghost predicate FirstUnderway(built: Snapshot, ok: Policy, life: Life, base: Snapshot, plan: seq<Snapshot>) {
    && life.resumed == [] && LeadsTo(built, ok, life, base)
    && plan == Run(built, life.maxRetries, life.oracle).log[life.landed..]
  }

  /** A resumed session under way, after a life that left `d`. */
  ghost predicate ResumedUnderway(built: Snapshot, ok: Policy, life: Life, d: Snapshot, session: S.Session,
                                  base: Snapshot, plan: seq<Snapshot>) {
    && LeadsTo(built, ok, life, d) && AllowedSession(ok, session)
    && var log := S.SessionRun(session, d).log;
       session.landed <= |log| && base == S.Survivor(d, log, session.landed) && plan == log[session.landed..]
  }

  ghost predicate Underway(built: Snapshot, ok: Policy, base: Snapshot, plan: seq<Snapshot>) {
    || (exists life :: FirstUnderway(built, ok, life, base, plan))
    || (exists life, d, session :: ResumedUnderway(built, ok, life, d, session, base, plan))
  }

  lemma FirstAdvances(built: Snapshot, ok: Policy, life: Life, base: Snapshot, plan: seq<Snapshot>)
    requires FirstUnderway(built, ok, life, base, plan) && plan != []
    ensures Descends(built, ok, plan[0]) && Underway(built, ok, plan[0], plan[1..])
  {
    var next := life.(landed := life.landed + 1);
    assert FirstUnderway(built, ok, next, plan[0], plan[1..]);
    assert LeadsTo(built, ok, next, plan[0]);
  }

  lemma ResumedAdvances(built: Snapshot, ok: Policy, life: Life, d: Snapshot, session: S.Session, base: Snapshot, plan: seq<Snapshot>)
    requires ResumedUnderway(built, ok, life, d, session, base, plan) && plan != []
    ensures Descends(built, ok, plan[0]) && Underway(built, ok, plan[0], plan[1..])
  {
    var next := session.(landed := session.landed + 1);
    assert S.SessionRun(next, d) == S.SessionRun(session, d);
    assert ResumedUnderway(built, ok, life, d, next, plan[0], plan[1..]);
    ResumedLands(built, ok, life, d, next);
  }

  lemma ResumedLands(built: Snapshot, ok: Policy, life: Life, d: Snapshot, session: S.Session)
    requires LeadsTo(built, ok, life, d) && AllowedSession(ok, session) && session.landed <= |S.SessionRun(session, d).log|
    ensures Descends(built, ok, S.Survivor(d, S.SessionRun(session, d).log, session.landed))
  {
    var next := life.(resumed := life.resumed + [session]);
    AfterAnother(FirstCrash(built, life), life.resumed, session);
    assert FirstCrash(built, next) == FirstCrash(built, life);
    assert forall i :: 0 <= i < |next.resumed| ==> AllowedSession(ok, next.resumed[i]);
    assert LeadsTo(built, ok, next, S.Survivor(d, S.SessionRun(session, d).log, session.landed));
  }

  /** A landed checkpoint is one more step of the life. */
  lemma CheckpointLands(built: Snapshot, ok: Policy, base: Snapshot, plan: seq<Snapshot>)
    requires Underway(built, ok, base, plan) && plan != []
    ensures Descends(built, ok, plan[0]) && Underway(built, ok, plan[0], plan[1..])
  {
    if life :| FirstUnderway(built, ok, life, base, plan) {
      FirstAdvances(built, ok, life, base, plan);
    } else {
      var life, d, session :| ResumedUnderway(built, ok, life, d, session, base, plan);
      ResumedAdvances(built, ok, life, d, session, base, plan);
    }
  }

  lemma LoadIsUnderway(built: Snapshot, ok: Policy, d: Snapshot, session: S.Session)
    requires Descends(built, ok, d) && AllowedSession(ok, session) && session.landed == 0
    ensures Underway(built, ok, d, S.SessionRun(session, d).log)
  {
    var life :| LeadsTo(built, ok, life, d);
    assert ResumedUnderway(built, ok, life, d, session, d, S.SessionRun(session, d).log);
  }

  lemma BirthIsUnderway(built: Snapshot, ok: Policy, maxRetries: nat, oracle: Oracle)
    requires ok(oracle, false)
    ensures Descends(built, ok, built) && Underway(built, ok, built, Run(built, maxRetries, oracle).log)
  {
    var life := Life(maxRetries, oracle, 0, []);
    assert LeadsTo(built, ok, life, built);
    assert FirstUnderway(built, ok, life, built, Run(built, maxRetries, oracle).log);
  }

  // ---------- The invariant of one transaction ----------

  /** The session works on the transaction and nobody has saved since it did. */
  predicate Current(s: Sys, tx: nat, token: nat) {
    && token in s.sessions && tx in s.stored && s.sessions[token].phase.Working? && s.sessions[token].phase.tx == tx
    && s.sessions[token].phase.revision == s.stored[tx].revision
  }

  /** What is stored descends from what was built, and so does the work of a current session. */
  ghost predicate Lineage(s: Sys, tx: nat, built: Snapshot, ok: Policy) {
    && tx in s.stored && Descends(built, ok, s.stored[tx].snapshot)
    && forall token :: Current(s, tx, token) ==> Underway(built, ok, s.sessions[token].phase.base, s.sessions[token].phase.plan)
  }

  /** A worker that loads the transaction behaves as the policy allows. */
  predicate Allowed(s: Sys, m: Move, tx: nat, ok: Policy) {
    m.LoadAndRun? && MayLoad(s, m) && s.sessions[m.token].phase.boundTo == tx ==> ok(m.oracle, m.retryBusiness)
  }

  ghost predicate AllAllowed(cfg: Q.Config, s: Sys, moves: seq<Move>, tx: nat, ok: Policy)
    decreases |moves|
  {
    moves != [] ==> Allowed(s, moves[0], tx, ok) && AllAllowed(cfg, Next(cfg, s, moves[0]), moves[1..], tx, ok)
  }

  /** No session began to work on the transaction, and it was not saved. */
  lemma LineageUntouched(s: Sys, t: Sys, tx: nat, built: Snapshot, ok: Policy)
    requires Lineage(s, tx, built, ok) && tx in t.stored && t.stored[tx] == s.stored[tx]
    requires forall token :: token in t.sessions && t.sessions[token].phase.Working? && t.sessions[token].phase.tx == tx ==>
               token in s.sessions && s.sessions[token] == t.sessions[token]
    ensures Lineage(t, tx, built, ok)
  {
    forall token | Current(t, tx, token)
      ensures Underway(built, ok, t.sessions[token].phase.base, t.sessions[token].phase.plan)
    {
      assert Current(s, tx, token);
    }
  }

  lemma LoadKeepsLineage(cfg: Q.Config, s: Sys, m: Move, tx: nat, built: Snapshot, ok: Policy)
    requires Lineage(s, tx, built, ok) && m.LoadAndRun? && MayLoad(s, m) && Allowed(s, m, tx, ok)
    ensures Lineage(Next(cfg, s, m), tx, built, ok)
  {
    var t := Next(cfg, s, m);
    forall token | Current(t, tx, token)
      ensures Underway(built, ok, t.sessions[token].phase.base, t.sessions[token].phase.plan)
    {
      if token == m.token {
        LoadIsUnderway(built, ok, s.stored[tx].snapshot, S.Session(m.oracle, m.maxRetries, m.retryBusiness, 0));
      } else {
        assert Current(s, tx, token);
      }
    }
  }

  lemma SaveKeepsLineage(s: Sys, token: nat, tx: nat, built: Snapshot, ok: Policy)
    requires Lineage(s, tx, built, ok) && InHand(s, token) && MaySave(s, token) && SessionsOk(s)
    ensures Lineage(AfterSave(s, token), tx, built, ok)
  {
    var p := s.sessions[token].phase;
    if p.tx != tx {
      LineageUntouched(s, AfterSave(s, token), tx, built, ok);
    } else {
      assert Current(s, tx, token);
      CheckpointLands(built, ok, p.base, p.plan);
      SaveStoresExactly(s, token);
      OnlySaverIsCurrent(s, token);
    }
  }

  /** A save outdates every other session of the transaction. */
  lemma OnlySaverIsCurrent(s: Sys, token: nat)
    requires InHand(s, token) && MaySave(s, token) && SessionsOk(s)
    ensures forall other :: Current(AfterSave(s, token), s.sessions[token].phase.tx, other) ==> other == token
  {
    assert forall other :: other in s.sessions ==> SessionOk(s, other, s.sessions[other]);
  }

  /** Saves and loads aside, nothing touches a stored transaction or begins to work on it. */
  lemma OtherMoves(cfg: Q.Config, s: Sys, m: Move, tx: nat, token: nat)
    requires tx in s.stored && !m.Save? && !m.LoadAndRun?
    ensures var t := Next(cfg, s, m);
            && tx in t.stored && t.stored[tx] == s.stored[tx]
            && (token in t.sessions && t.sessions[token].phase.Working? && t.sessions[token].phase.tx == tx ==>
                  token in s.sessions && s.sessions[token] == t.sessions[token])
  {
  }

  lemma OtherMovesKeepLineage(cfg: Q.Config, s: Sys, m: Move, tx: nat, built: Snapshot, ok: Policy)
    requires Lineage(s, tx, built, ok) && !m.Save? && !m.LoadAndRun?
    ensures Lineage(Next(cfg, s, m), tx, built, ok)
  {
    var t := Next(cfg, s, m);
    OtherMoves(cfg, s, m, tx, 0);
    forall token | token in t.sessions && t.sessions[token].phase.Working? && t.sessions[token].phase.tx == tx
      ensures token in s.sessions && s.sessions[token] == t.sessions[token]
    {
      OtherMoves(cfg, s, m, tx, token);
    }
    LineageUntouched(s, t, tx, built, ok);
  }

  lemma NextKeepsLineage(cfg: Q.Config, s: Sys, m: Move, tx: nat, built: Snapshot, ok: Policy)
    requires SysInv(cfg, s) && Lineage(s, tx, built, ok) && Allowed(s, m, tx, ok)
    ensures Lineage(Next(cfg, s, m), tx, built, ok)
  {
    if m.Save? {
      if MaySave(s, m.token) {
        HolderIsCurrent(cfg, s, m.token);
        SaveKeepsLineage(s, m.token, tx, built, ok);
      }
    } else if m.LoadAndRun? {
      if MayLoad(s, m) { LoadKeepsLineage(cfg, s, m, tx, built, ok); }
    } else {
      OtherMovesKeepLineage(cfg, s, m, tx, built, ok);
    }
  }

  lemma {:induction false} RunKeepsLineage(cfg: Q.Config, s: Sys, moves: seq<Move>, tx: nat, built: Snapshot, ok: Policy)
    requires SysInv(cfg, s) && Lineage(s, tx, built, ok) && AllAllowed(cfg, s, moves, tx, ok)
    ensures Lineage(RunMoves(cfg, s, moves), tx, built, ok)
    decreases |moves|
  {
    if moves != [] {
      NextKeepsLineage(cfg, s, moves[0], tx, built, ok);
      NextKeeps(cfg, s, moves[0]);
      RunKeepsLineage(cfg, Next(cfg, s, moves[0]), moves[1..], tx, built, ok);
    }
  }

  lemma NobodyWorksOnUnknown(s: Sys, tx: nat)
    requires SessionsOk(s) && tx !in s.stored
    ensures forall token :: token in s.sessions && s.sessions[token].phase.Working? ==> s.sessions[token].phase.tx != tx
  {
    assert forall token :: token in s.sessions ==> SessionOk(s, token, s.sessions[token]);
  }

  lemma OnlyInitializerIsCurrent(cfg: Q.Config, s: Sys, m: Move)
    requires SessionsOk(s) && m.Initialize? && MayInitialize(s, m)
    ensures forall token :: Current(AfterInitialize(cfg, s, m), m.tx, token) ==> token == m.token
  {
    NobodyWorksOnUnknown(s, m.tx);
  }

  lemma BirthHasLineage(cfg: Q.Config, s: Sys, m: Move, ok: Policy)
    requires SessionsOk(s) && m.Initialize? && MayInitialize(s, m) && ok(m.oracle, false)
    ensures Lineage(AfterInitialize(cfg, s, m), m.tx, m.built, ok)
  {
    BirthIsUnderway(m.built, ok, m.maxRetries, m.oracle);
    OnlyInitializerIsCurrent(cfg, s, m);
  }

  /** Whatever workers, lease expiries and operators do to an item after its transaction was
      created: what is stored is what one chain of sessions, each dying in turn, leaves. */
  lemma WorkersRefineSessions(cfg: Q.Config, s: Sys, m: Move, moves: seq<Move>, ok: Policy)
    requires Reachable(cfg, s) && m.Initialize? && MayInitialize(s, m) && ok(m.oracle, false)
    requires AllAllowed(cfg, Next(cfg, s, m), moves, m.tx, ok)
    ensures Lineage(RunMoves(cfg, Next(cfg, s, m), moves), m.tx, m.built, ok)
  {
    ReachableInv(cfg, s);
    BirthHasLineage(cfg, s, m, ok);
    NextKeeps(cfg, s, m);
    RunKeepsLineage(cfg, Next(cfg, s, m), moves, m.tx, m.built, ok);
  }

  // ---------- Crash equivalence for interleaved workers ----------

  /** Every worker finds the same outcomes, and business failures are not retried. */
  ghost function Following(plan: Plan): Policy {
    (oracle: Oracle, retryBusiness: bool) => oracle == Fixed(plan) && !retryBusiness
  }

  lemma LifeFollows(plan: Plan, t: Snapshot, life: Life, d: Snapshot)
    requires LeadsTo(t, Following(plan), life, d)
    ensures life.oracle == Fixed(plan) && AllFollow(plan, life.resumed)
  {
    assert forall i :: 0 <= i < |life.resumed| ==> AllowedSession(Following(plan), life.resumed[i]);
  }

  lemma DescendantDurable(plan: Plan, t: Snapshot, life: Life, d: Snapshot)
    requires Fresh(t) && Safe(plan, Keys(t.steps)) && LeadsTo(t, Following(plan), life, d)
    ensures Durable(plan, Target(plan, t.steps), d)
  {
    LifeFollows(plan, t, life, d);
    FirstCrashDurable(plan, t, life.maxRetries, life.landed);
    SafeCrashesKeepGoal(plan, Target(plan, t.steps), FirstCrash(t, life), life.resumed);
  }

  /** The snapshot has the step statuses and the status of the uninterrupted run. */
  ghost predicate EndsAs(plan: Plan, t: Snapshot, maxRetries: nat, d: Snapshot) {
    var r := Run(t, maxRetries, Fixed(plan)).tx;
    Statuses(d.steps) == Statuses(r.steps) && d.status == r.status
  }

  lemma GoalIsEnd(plan: Plan, t: Snapshot, maxRetries: nat, d: Snapshot)
    requires Fresh(t) && Statuses(d.steps) == Target(plan, t.steps)
    requires d.status == if AllDone(d.steps) then Successful else Failed
    ensures EndsAs(plan, t, maxRetries, d)
  {
    FreshDurable(plan, t);
    RunReachesTarget(t, maxRetries, plan);
    RunEnds(t, maxRetries, Fixed(plan));
    SameStatusesSameDone(d.steps, Run(t, maxRetries, Fixed(plan)).tx.steps);
  }

  lemma FinishedFirst(plan: Plan, t: Snapshot, life: Life, base: Snapshot, maxRetries: nat)
    requires Fresh(t) && FirstUnderway(t, Following(plan), life, base, [])
    ensures EndsAs(plan, t, maxRetries, base)
  {
    RunCheckpoints(t, life.maxRetries, Fixed(plan));
    FreshDurable(plan, t);
    RunReachesTarget(t, life.maxRetries, plan);
    RunEnds(t, life.maxRetries, Fixed(plan));
    GoalIsEnd(plan, t, maxRetries, base);
  }

  /** A session all of whose checkpoints landed left its own result. */
  lemma LandedIsResult(d: Snapshot, session: S.Session)
    requires session.landed == |S.SessionRun(session, d).log|
    ensures S.Survivor(d, S.SessionRun(session, d).log, session.landed) == S.SessionRun(session, d).tx
  {
    if d.status != Successful {
      RunCheckpoints(Resumed(d, session.retryBusiness), session.maxRetries, session.oracle);
    }
  }

  lemma FinishedResumed(plan: Plan, t: Snapshot, life: Life, d: Snapshot, session: S.Session, base: Snapshot, maxRetries: nat)
    requires Fresh(t) && Safe(plan, Keys(t.steps)) && ResumedUnderway(t, Following(plan), life, d, session, base, [])
    ensures EndsAs(plan, t, maxRetries, base)
  {
    DescendantDurable(plan, t, life, d);
    LandedIsResult(d, session);
    SessionReachesGoal(plan, Target(plan, t.steps), session, d);
    GoalIsEnd(plan, t, maxRetries, base);
  }

  lemma FinishedEnds(plan: Plan, t: Snapshot, base: Snapshot, maxRetries: nat)
    requires Fresh(t) && Safe(plan, Keys(t.steps)) && Underway(t, Following(plan), base, [])
    ensures EndsAs(plan, t, maxRetries, base)
  {
    if life :| FirstUnderway(t, Following(plan), life, base, []) {
      FinishedFirst(plan, t, life, base, maxRetries);
    } else {
      var life, d, session :| ResumedUnderway(t, Following(plan), life, d, session, base, []);
      FinishedResumed(plan, t, life, d, session, base, maxRetries);
    }
  }

  lemma SuccessfulEnds(plan: Plan, t: Snapshot, d: Snapshot, maxRetries: nat)
    requires Fresh(t) && Safe(plan, Keys(t.steps)) && Descends(t, Following(plan), d) && d.status == Successful
    ensures EndsAs(plan, t, maxRetries, d)
  {
    var life :| LeadsTo(t, Following(plan), life, d);
    DescendantDurable(plan, t, life, d);
    GoalIsEnd(plan, t, maxRetries, d);
  }

  /** A worker that saved all its checkpoints, and nobody saved after it. */
  predicate SavedAll(s: Sys, tx: nat, token: nat) {
    Current(s, tx, token) && s.sessions[token].phase.plan == []
  }

  /** Crash equivalence for the whole system. However workers, lease expiries and operators
      interleave, when a worker has finished the transaction, or it is durably successful, the
      stored statuses are those of one run that nothing interrupts. */
  lemma InterleavedCrashEquivalence(cfg: Q.Config, s: Sys, m: Move, moves: seq<Move>, plan: Plan, maxRetries: nat)
    requires Reachable(cfg, s) && m.Initialize? && MayInitialize(s, m)
    requires Fresh(m.built) && Safe(plan, Keys(m.built.steps)) && m.oracle == Fixed(plan)
    requires AllAllowed(cfg, Next(cfg, s, m), moves, m.tx, Following(plan))
    ensures var t := RunMoves(cfg, Next(cfg, s, m), moves);
            && m.tx in t.stored
            && ((exists token :: SavedAll(t, m.tx, token)) || t.stored[m.tx].snapshot.status == Successful ==>
                  EndsAs(plan, m.built, maxRetries, t.stored[m.tx].snapshot))
  {
    var n := Next(cfg, s, m);
    var t := RunMoves(cfg, n, moves);
    WorkersRefineSessions(cfg, s, m, moves, Following(plan));
    ReachableInv(cfg, s);
    NextKeeps(cfg, s, m);
    RunKeeps(cfg, n, moves);
    if token :| SavedAll(t, m.tx, token) {
      CurrentBase(cfg, t, m.tx, token);
      FinishedEnds(plan, m.built, t.sessions[token].phase.base, maxRetries);
    } else if t.stored[m.tx].snapshot.status == Successful {
      SuccessfulEnds(plan, m.built, t.stored[m.tx].snapshot, maxRetries);
    }
  }

  lemma CurrentBase(cfg: Q.Config, s: Sys, tx: nat, token: nat)
    requires SysInv(cfg, s) && Current(s, tx, token)
    ensures s.sessions[token].phase.base == s.stored[tx].snapshot
  {
    assert SessionOk(s, token, s.sessions[token]);
  }
}
