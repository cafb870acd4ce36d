/** Sessions over one durable transaction: each loads it, resumes it, runs it and may die,
    keeping exactly the checkpoints it wrote before. Steps may behave differently each time. */
module Sessions {
  import opened Options
  import opened Records
  import opened EngineSpec
  import opened EngineLemmas
  import opened EngineFacts
  import opened EngineRuns
  import opened EngineSettles
  import opened RecoverySpec

  /** A session's step behaviour, retry budget, resume policy, and how many of its
      checkpoints land before it dies. */
  datatype Session = Session(oracle: Oracle, maxRetries: nat, retryBusiness: bool, landed: nat)

  /** The run of a process that finds `d` durable; a successful transaction is not run. */
  function SessionRun(s: Session, d: Snapshot): Trace {
    if d.status == Successful then Trace(d, []) else Run(Resumed(d, s.retryBusiness), s.maxRetries, s.oracle)
  }

  /** What is durable when a run that started from `d` dies after `landed` checkpoints. */
  function Survivor(d: Snapshot, log: seq<Snapshot>, landed: nat): Snapshot
    requires landed <= |log|
  {
    if landed == 0 then d else log[landed - 1]
  }

  ghost predicate Possible(d: Snapshot, sessions: seq<Session>)
    decreases |sessions|
  {
    |sessions| > 0 ==>
      var s := sessions[0];
      s.landed <= |SessionRun(s, d).log| && Possible(Survivor(d, SessionRun(s, d).log, s.landed), sessions[1..])
  }

  /** The durable transaction after the sessions died in turn. */
  ghost function After(d: Snapshot, sessions: seq<Session>): Snapshot
    requires Possible(d, sessions)
    decreases |sessions|
  {
    if |sessions| == 0 then d
    else
      var s := sessions[0];
      After(Survivor(d, SessionRun(s, d).log, s.landed), sessions[1..])
  }

  lemma ResumedRows(d: Snapshot, retryBusiness: bool)
    ensures var r := Resumed(d, retryBusiness);
            && |r.steps| == |d.steps|
            && Keys(r.steps) == Keys(d.steps)
            && LastEventIs(r, TransactionResumed)
            && (r.history == d.history ||
                r.history == d.history + [Entry(|d.history| + 1, TransactionResumed, Pending, 0, None)])
            && forall i :: 0 <= i < |d.steps| ==>
                 r.steps[i] == d.steps[i].(status := ResumedStatus(d.steps[i], PreservesSkip(d, d.steps[i], retryBusiness), retryBusiness))
  {
  }

  /** Any resumed transaction is one a worker may start from. */
  lemma ResumeIsStart(d: Snapshot, retryBusiness: bool)
    requires InOrder(d.steps)
    ensures Startable(Resumed(d, retryBusiness))
  {
    ResumedRows(d, retryBusiness);
  }

  lemma ResumeKeepsSuccess(d: Snapshot, retryBusiness: bool)
    requires SuccessFinal(d)
    ensures SuccessKept(d, Resumed(d, retryBusiness))
  {
    var r := Resumed(d, retryBusiness);
    ResumedRows(d, retryBusiness);
    SuccessFinalKept(d, r);
  }

  lemma ResumeContinues(d: Snapshot, retryBusiness: bool)
    ensures Continues(d, Resumed(d, retryBusiness))
  {
  }

  lemma SessionKeeps(s: Session, d: Snapshot)
    requires SuccessFinal(d) && s.landed <= |SessionRun(s, d).log|
    ensures var c := Survivor(d, SessionRun(s, d).log, s.landed); SuccessKept(d, c) && Continues(d, c)
  {
    if s.landed != 0 {
      ResumeKeepsSuccess(d, s.retryBusiness);
      ResumeContinues(d, s.retryBusiness);
      RunKeepsSuccess(Resumed(d, s.retryBusiness), s.maxRetries, s.oracle);
      RunContinues(Resumed(d, s.retryBusiness), s.maxRetries, s.oracle);
    }
  }

  /** Success is final across every retry pass, crash and resume: whatever the steps do, the
      durable transaction never shows an event of a step after its success, and its history
      only grows at the end. */
  lemma {:induction false} SuccessSurvives(d: Snapshot, sessions: seq<Session>)
    requires SuccessFinal(d) && Possible(d, sessions)
    ensures SuccessKept(d, After(d, sessions)) && Continues(d, After(d, sessions))
    decreases |sessions|
  {
    if |sessions| > 0 {
      var s := sessions[0];
      var c := Survivor(d, SessionRun(s, d).log, s.landed);
      SessionKeeps(s, d);
      SuccessSurvives(c, sessions[1..]);
      ContinuesTransitive(d, c, After(c, sessions[1..]));
    }
  }

  /** A transaction without history starts with the property. */
  lemma NewSuccessFinal(t: Snapshot)
    requires InOrder(t.steps) && t.history == []
    ensures SuccessFinal(t)
  {
  }
}
