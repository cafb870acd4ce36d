/** What a run's history and outcome tell about the calls of the steps' own code. */
module EngineTelling {
  import opened Options
  import opened Records
  import opened EngineSpec
  import opened EngineLemmas
  import opened EngineFacts
  import opened EngineRuns
  import opened EngineOutcome
  import opened RecoverySpec

  /** What the call behind the history entry at `m` did: the step was called when `m` entries
      had been written. */
  function CallAt(history: seq<Entry>, m: nat, oracle: Oracle): Effect
    requires m < |history| && history[m].step.Some?
  {
    oracle(history[m].step.value.order, m)
  }

  // ---------- The newest recorded failure ----------

  /** The newest failure among the entries from `from` on. */
  predicate NewestFailureAt(history: seq<Entry>, from: nat, m: nat) {
    && from <= m < |history| && history[m].event == StepFailed
    && forall k :: m < k < |history| ==> history[k].event != StepFailed
  }

  predicate NoFailureFrom(history: seq<Entry>, from: nat) {
    forall k :: from <= k < |history| ==> history[k].event != StepFailed
  }

  /** The exception that a call with this effect leaves in a pass, if any. */
  function LeftIn(e: Effect, pass: nat): seq<Exc> {
    match e
    case RaisesBusiness(code, halts) => [Business(pass, code, halts)]
    case RaisesSystem(code) => [System(pass, code)]
    case RaisesOther => [System(pass, "rpacore.system.unexpected")]
    case _ => []
  }

  /** The newest failure of the run is the one its call raised; before the first it is the
      newest one the transaction came with. */
  ghost predicate NewestTold(t: Snapshot, s: Snapshot, oracle: Oracle) {
    && InOrder(s.steps) && t.history <= s.history
    && (forall m: nat :: NewestFailureAt(s.history, |t.history|, m) ==>
          s.history[m].step.Some? && Newest(s).Some?
          && LeftIn(CallAt(s.history, m, oracle), s.history[m].retryNumber) == [Newest(s).value])
    && (NoFailureFrom(s.history, |t.history|) ==> Newest(s) == Newest(t))
  }

  lemma QuietKeepsTold(t: Snapshot, s: Snapshot, s': Snapshot, oracle: Oracle)
    requires NewestTold(t, s, oracle) && SameFailures(s.steps, s'.steps) && InOrder(s'.steps)
    requires |s'.history| == |s.history| + 1 && s.history <= s'.history && s'.history[|s.history|].event != StepFailed
    ensures NewestTold(t, s', oracle)
  {
    NewestKept(s, s');
    forall m: nat | NewestFailureAt(s'.history, |t.history|, m) ensures NewestFailureAt(s.history, |t.history|, m) {
      assert m != |s.history|;
    }
    if NoFailureFrom(s'.history, |t.history|) {
      assert forall k :: |t.history| <= k < |s.history| ==> s.history[k] == s'.history[k];
    }
  }

  lemma SettleTells(t: Snapshot, s: Snapshot, i: nat, oracle: Oracle)
    requires NewestTold(t, s, oracle) && i < |s.steps|
    ensures NewestTold(t, Settle(s, i, EffectOf(s, i, oracle)), oracle)
  {
    var e := EffectOf(s, i, oracle);
    var s' := Settle(s, i, e);
    InOrderUpdate(s.steps, i, s'.steps[i]);
    if Raised(e, s.retryCount).Some? {
      NewestIsRaised(s, i, e);
      assert s'.history[|s.history|].event == StepFailed;
      assert forall m: nat :: NewestFailureAt(s'.history, |t.history|, m) ==> m == |s.history|;
    } else {
      QuietKeepsTold(t, s, s', oracle);
    }
  }

  lemma MoveTells(t: Snapshot, s: Snapshot, m: Move, oracle: Oracle)
    requires Enabled(s, m) && m != BeginMove && m != CompleteMove && Answers(s, m, oracle) && NewestTold(t, s, oracle)
    ensures NewestTold(t, Apply(s, m), oracle)
  {
    if m.SettleMove? {
      SettleTells(t, s, m.i, oracle);
    } else {
      QuietKeepsTold(t, s, Apply(s, m), oracle);
    }
  }

  lemma BeginTells(t: Snapshot, oracle: Oracle)
    requires InOrder(t.steps)
    ensures NewestTold(t, Begin(t), oracle)
  {
    assert NewestTold(t, t, oracle);
    QuietKeepsTold(t, t, Begin(t), oracle);
  }

  lemma WorkTells(t: Snapshot, maxRetries: nat, oracle: Oracle)
    requires InOrder(t.steps)
    ensures NewestTold(t, Work(t, maxRetries, oracle).tx, oracle)
  {
    var inv := (s: Snapshot) => NewestTold(t, s, oracle);
    forall s, m | Enabled(s, m) && m != BeginMove && m != CompleteMove && Answers(s, m, oracle) && inv(s) ensures inv(Apply(s, m)) {
      MoveTells(t, s, m, oracle);
    }
    BeginTells(t, oracle);
    WorkKeeps(t, maxRetries, oracle, inv);
  }

  // ---------- The verdict ----------

  /** How a failed run reads when the call behind its newest failure did this. */
  predicate FailedBy(u: Snapshot, e: Effect) {
    match e
    case RaisesBusiness(code, _) => u.category == Category.BusinessFailed && u.disposition == NotRequested && u.failureCode == code
    case RaisesSystem(code) => u.category == Category.SystemFailed && u.disposition == RetryExhausted && u.failureCode == code
    case RaisesOther =>
      u.category == Category.SystemFailed && u.disposition == RetryExhausted && u.failureCode == "rpacore.system.unexpected"
    case _ => false
  }

  /** The verdict reads the newest recorded failure. */
  predicate Closed(u: Snapshot) {
    if forall i :: 0 <= i < |u.steps| ==> u.steps[i].status == Successful || u.steps[i].status == Skipped then
      u.status == Successful && u.category == SuccessfulOutcome && u.disposition == NotApplicable && u.failureCode == ""
    else
      && u.status == Failed
      && match Newest(u)
         case Some(Business(_, code, _)) =>
           u.category == Category.BusinessFailed && u.disposition == NotRequested && u.failureCode == code
         case Some(System(_, code)) =>
           u.category == Category.SystemFailed && u.disposition == RetryExhausted && u.failureCode == code
         case None => u.category == Category.SystemFailed && u.disposition == RetryExhausted && u.failureCode == ""
  }

  lemma CompleteReads(t: Snapshot)
    ensures Closed(Complete(t)) && Newest(Complete(t)) == Newest(t)
  {
    NewestKept(t, Complete(t));
  }

  /** The verdict, in terms of what the calls of the steps did, and of the newest failure the
      transaction came with when the run recorded none. */
  ghost predicate VerdictReads(t: Snapshot, u: Snapshot, oracle: Oracle) {
    if forall i :: 0 <= i < |u.steps| ==> u.steps[i].status == Successful || u.steps[i].status == Skipped then
      u.status == Successful && u.category == SuccessfulOutcome && u.disposition == NotApplicable && u.failureCode == ""
    else
      && u.status == Failed
      && (forall m: nat :: NewestFailureAt(u.history, |t.history|, m) ==>
            u.history[m].step.Some? && FailedBy(u, CallAt(u.history, m, oracle)))
      && (NoFailureFrom(u.history, |t.history|) ==>
            u.failureCode == (if Newest(t).Some? then Newest(t).value.code else "")
            && (u.category == Category.BusinessFailed <==> Newest(t).Some? && Newest(t).value.Business?))
  }

  lemma ClosedReads(t: Snapshot, u: Snapshot, oracle: Oracle)
    requires NewestTold(t, u, oracle) && Closed(u)
    ensures VerdictReads(t, u, oracle)
  {
  }

  lemma VerdictTells(t: Snapshot, maxRetries: nat, oracle: Oracle)
    requires InOrder(t.steps)
    ensures VerdictReads(t, Run(t, maxRetries, oracle).tx, oracle)
  {
    var w := Work(t, maxRetries, oracle).tx;
    WorkTells(t, maxRetries, oracle);
    CompleteReads(w);
    QuietKeepsTold(t, w, Complete(w), oracle);
    ClosedReads(t, Complete(w), oracle);
  }

  // ---------- The verdict when the run recorded no failure ----------

  /** The failure entry at `m` is answered by the last exception of its pass on row `i`. */
  predicate Answered(t: Snapshot, m: nat, i: nat, j: nat) {
    && m < |t.history| && i < |t.steps| && j < |t.steps[i].exceptions|
    && t.history[m].event == StepFailed && t.history[m].step == Some(Key(t.steps[i].name, t.steps[i].order))
    && t.steps[i].exceptions[j].retryNumber == t.history[m].retryNumber
    && forall k :: j < k < |t.steps[i].exceptions| ==> t.steps[i].exceptions[k].retryNumber != t.history[m].retryNumber
  }

  lemma {:induction false} PassNewest(exceptions: seq<Exc>, n: nat, pass: nat)
    requires n <= |exceptions|
    ensures NewestOfPass(exceptions, n, pass).None? ==> forall j :: 0 <= j < n ==> exceptions[j].retryNumber != pass
    ensures NewestOfPass(exceptions, n, pass).Some? ==>
              exists j: nat :: j < n && exceptions[j].retryNumber == pass && exceptions[j] == NewestOfPass(exceptions, n, pass).value
                          && forall k :: j < k < n ==> exceptions[k].retryNumber != pass
  {
    if n > 0 {
      PassNewest(exceptions, n - 1, pass);
      if exceptions[n - 1].retryNumber == pass {
        assert NewestOfPass(exceptions, n, pass) == Some(exceptions[n - 1]);
      }
    }
  }

  lemma {:induction false} FoundRow(steps: seq<StepRow>, k: Key, n: nat)
    requires n <= |steps|
    ensures FindStep(steps, k, n).None? ==> forall i :: 0 <= i < n ==> Key(steps[i].name, steps[i].order) != k
    ensures FindStep(steps, k, n).Some? ==>
              exists i: nat :: i < n && Key(steps[i].name, steps[i].order) == k && steps[i] == FindStep(steps, k, n).value
  {
    if n > 0 {
      FoundRow(steps, k, n - 1);
      if steps[n - 1].StepKey() == k {
        assert FindStep(steps, k, n) == Some(steps[n - 1]);
      }
    }
  }

  lemma BehindMeans(t: Snapshot, m: nat)
    requires InOrder(t.steps) && m < |t.history|
    ensures match Behind(t, t.history[m])
            case Some(x) => exists i: nat, j: nat :: Answered(t, m, i, j) && x == t.steps[i].exceptions[j]
            case None => forall i: nat, j: nat :: !Answered(t, m, i, j)
  {
    var e := t.history[m];
    if e.event == StepFailed && e.step.Some? {
      FoundRow(t.steps, e.step.value, |t.steps|);
      if FindStep(t.steps, e.step.value, |t.steps|).Some? {
        var i: nat :| i < |t.steps| && Key(t.steps[i].name, t.steps[i].order) == e.step.value
                      && t.steps[i] == FindStep(t.steps, e.step.value, |t.steps|).value;
        PassNewest(t.steps[i].exceptions, |t.steps[i].exceptions|, e.retryNumber);
        assert forall k: nat, j: nat :: Answered(t, m, k, j) ==> k == i;
        if Behind(t, e).Some? {
          var j: nat :| j < |t.steps[i].exceptions| && t.steps[i].exceptions[j].retryNumber == e.retryNumber
                        && t.steps[i].exceptions[j] == Behind(t, e).value
                        && forall k :: j < k < |t.steps[i].exceptions| ==> t.steps[i].exceptions[k].retryNumber != e.retryNumber;
          assert Answered(t, m, i, j);
        }
      }
    }
  }

  /** The newest recorded failure: the last entry that an exception answers. */
  lemma {:induction false} NewestMeans(t: Snapshot, n: nat)
    requires InOrder(t.steps) && n <= |t.history|
    ensures LastFailure(t, n).Some? ==>
              exists m: nat, i: nat, j: nat ::
                && m < n && Answered(t, m, i, j) && LastFailure(t, n).value == t.steps[i].exceptions[j]
                && forall k: nat, a: nat, b: nat :: m < k < n ==> !Answered(t, k, a, b)
    ensures LastFailure(t, n).None? ==> forall m: nat, i: nat, j: nat :: m < n ==> !Answered(t, m, i, j)
  {
    if n > 0 {
      BehindMeans(t, n - 1);
      NewestMeans(t, n - 1);
      if Behind(t, t.history[n - 1]).Some? {
        var i: nat, j: nat :| Answered(t, n - 1, i, j) && Behind(t, t.history[n - 1]).value == t.steps[i].exceptions[j];
        assert Answered(t, n - 1, i, j) && LastFailure(t, n).value == t.steps[i].exceptions[j];
      }
    }
  }

  // ---------- Exceptions ----------

  /** The exceptions that the failures of step `k` recorded from `from` on have left, in order. */
  function LeftSince(history: seq<Entry>, from: nat, k: Key, oracle: Oracle): seq<Exc> {
    if |history| <= from then []
    else
      var n := |history| - 1;
      var e := history[n];
      LeftSince(history[..n], from, k, oracle)
      + if e.event == StepFailed && e.step == Some(k) then LeftIn(oracle(k.order, n), e.retryNumber) else []
  }

  /** Every row keeps its exceptions and gains those of its recorded failures. */
  ghost predicate ExceptionsTold(t: Snapshot, s: Snapshot, oracle: Oracle) {
    && InOrder(s.steps) && |s.steps| == |t.steps| && t.history <= s.history
    && forall i :: 0 <= i < |t.steps| ==>
         && s.steps[i].StepKey() == t.steps[i].StepKey()
         && s.steps[i].exceptions == t.steps[i].exceptions + LeftSince(s.history, |t.history|, t.steps[i].StepKey(), oracle)
  }

  lemma LeftNext(history: seq<Entry>, e: Entry, from: nat, k: Key, oracle: Oracle)
    requires from <= |history|
    ensures LeftSince(history + [e], from, k, oracle) ==
            LeftSince(history, from, k, oracle)
            + if e.event == StepFailed && e.step == Some(k) then LeftIn(oracle(k.order, |history|), e.retryNumber) else []
  {
    assert (history + [e])[..|history|] == history;
  }

  lemma QuietKeepsExceptions(t: Snapshot, s: Snapshot, s': Snapshot, oracle: Oracle)
    requires ExceptionsTold(t, s, oracle) && SameFailures(s.steps, s'.steps) && InOrder(s'.steps)
    requires |s'.history| == |s.history| + 1 && s.history <= s'.history && s'.history[|s.history|].event != StepFailed
    ensures ExceptionsTold(t, s', oracle)
  {
    assert s'.history == s.history + [s'.history[|s.history|]];
    forall i | 0 <= i < |t.steps|
      ensures s'.steps[i].exceptions == t.steps[i].exceptions + LeftSince(s'.history, |t.history|, t.steps[i].StepKey(), oracle)
    {
      LeftNext(s.history, s'.history[|s.history|], |t.history|, t.steps[i].StepKey(), oracle);
    }
  }

  lemma FailureKeepsExceptions(t: Snapshot, s: Snapshot, i: nat, oracle: Oracle)
    requires ExceptionsTold(t, s, oracle) && i < |s.steps|
    requires Settle(s, i, EffectOf(s, i, oracle)).history[|s.history|].event == StepFailed
    ensures ExceptionsTold(t, Settle(s, i, EffectOf(s, i, oracle)), oracle)
  {
    var s' := Settle(s, i, EffectOf(s, i, oracle));
    InOrderUpdate(s.steps, i, s'.steps[i]);
    assert s'.history == s.history + [s'.history[|s.history|]];
    forall j | 0 <= j < |t.steps|
      ensures s'.steps[j].StepKey() == t.steps[j].StepKey()
      ensures s'.steps[j].exceptions == t.steps[j].exceptions + LeftSince(s'.history, |t.history|, t.steps[j].StepKey(), oracle)
    {
      LeftNext(s.history, s'.history[|s.history|], |t.history|, t.steps[j].StepKey(), oracle);
      assert j != i ==> s.steps[j].order != s.steps[i].order;
    }
  }

  lemma MoveKeepsExceptions(t: Snapshot, s: Snapshot, m: Move, oracle: Oracle)
    requires Enabled(s, m) && m != BeginMove && m != CompleteMove && Answers(s, m, oracle) && ExceptionsTold(t, s, oracle)
    ensures ExceptionsTold(t, Apply(s, m), oracle)
  {
    if m.SettleMove? && Raised(m.e, s.retryCount).Some? {
      FailureKeepsExceptions(t, s, m.i, oracle);
    } else {
      QuietKeepsExceptions(t, s, Apply(s, m), oracle);
    }
  }

  lemma FirstKeepsExceptions(t: Snapshot, oracle: Oracle)
    requires InOrder(t.steps)
    ensures ExceptionsTold(t, Begin(t), oracle)
  {
    assert ExceptionsTold(t, t, oracle);
    QuietKeepsExceptions(t, t, Begin(t), oracle);
  }

  lemma WorkKeepsExceptions(t: Snapshot, maxRetries: nat, oracle: Oracle)
    requires InOrder(t.steps)
    ensures ExceptionsTold(t, Work(t, maxRetries, oracle).tx, oracle)
  {
    var inv := (s: Snapshot) => ExceptionsTold(t, s, oracle);
    forall s, m | Enabled(s, m) && m != BeginMove && m != CompleteMove && Answers(s, m, oracle) && inv(s) ensures inv(Apply(s, m)) {
      MoveKeepsExceptions(t, s, m, oracle);
    }
    FirstKeepsExceptions(t, oracle);
    WorkKeeps(t, maxRetries, oracle, inv);
  }

  /** At the end of a run every row has the exceptions it came with, followed by one for each of its
      recorded failures, in order, with the pass of the entry and what the call raised. */
  lemma ExceptionsTell(t: Snapshot, maxRetries: nat, oracle: Oracle)
    requires InOrder(t.steps)
    ensures ExceptionsTold(t, Run(t, maxRetries, oracle).tx, oracle)
  {
    var w := Work(t, maxRetries, oracle).tx;
    WorkKeepsExceptions(t, maxRetries, oracle);
    CompleteKeepsSteps(w);
    QuietKeepsExceptions(t, w, Complete(w), oracle);
  }

  // ---------- The first checkpoint ----------

  /** What a run writes first: the outcome fields cleared, the start recorded, and skipped steps
      runnable again unless the transaction has just been resumed. */
  lemma FirstCheckpoint(t: Snapshot, maxRetries: nat, oracle: Oracle)
    ensures var log := Run(t, maxRetries, oracle).log;
            var resumed := t.history != [] && t.history[|t.history| - 1].event == TransactionResumed;
            && |log| >= 2 && |log[0].steps| == |t.steps|
            && log[0] == t.(steps := log[0].steps, status := InProgress, category := UnknownOutcome,
                            disposition := UnknownDisposition, failureCode := "",
                            history := t.history + [Entry(|t.history| + 1, TransactionStarted, InProgress, t.retryCount, None)])
            && forall i :: 0 <= i < |t.steps| ==>
                 log[0].steps[i] == if t.steps[i].status == Skipped && !resumed then t.steps[i].(status := Pending) else t.steps[i]
  {
    RunCheckpoints(t, maxRetries, oracle);
    var start := First(t);
    PassLogGrows(start, 0, InitialBlocked(t), oracle);
    RetryLogGrows(PassFrom(start, 0, InitialBlocked(t), oracle), maxRetries, oracle);
    assert Run(t, maxRetries, oracle).log[0] == Begin(t);
  }

  // ---------- Every entry ----------

  /** The entry before records the start of the same step. */
  predicate StartedBefore(history: seq<Entry>, m: nat)
    requires m < |history|
  {
    m > 0 && history[m].step.Some? && history[m - 1].event == StepStarted && history[m - 1].step == history[m].step
  }

  /** After this entry the pass goes on: it has begun, or a step succeeded, skipped itself, or
      failed for the business without halting. */
  predicate GoesOn(history: seq<Entry>, m: nat, oracle: Oracle)
    requires m < |history|
  {
    match history[m].event
    case TransactionStarted => true
    case RetryScheduled => true
    case StepSucceeded => true
    case StepSkipped => StartedBefore(history, m)
    case StepFailed => history[m].step.Some? && CallAt(history, m, oracle).RaisesBusiness? && !CallAt(history, m, oracle).halts
    case _ => false
  }

  /** The skip at `m` follows the halting failure at `k`, of an earlier step in the same pass, with
      nothing but skips between them. */
  predicate HaltAt(history: seq<Entry>, k: nat, m: nat, oracle: Oracle)
    requires m < |history|
  {
    && k < m && history[k].event == StepFailed && history[k].step.Some? && history[m].step.Some?
    && CallAt(history, k, oracle).RaisesBusiness? && CallAt(history, k, oracle).halts
    && history[k].step.value.order < history[m].step.value.order && history[k].retryNumber == history[m].retryNumber
    && forall j :: k < j < m ==> history[j].event == StepSkipped
  }

  ghost predicate BehindHalt(history: seq<Entry>, m: nat, oracle: Oracle)
    requires m < |history|
  {
    exists k: nat :: HaltAt(history, k, m, oracle)
  }

  /** An entry of the run: it is made while the transaction is in progress, in the pass that the
      recorded retries count, and what a step's end records is what its call did. */
  ghost predicate EntryTold(t: Snapshot, history: seq<Entry>, m: nat, oracle: Oracle)
    requires |t.history| <= m < |history|
  {
    var e := history[m];
    && e.sequence == m + 1 && e.status == InProgress
    && e.retryNumber - t.retryCount == Count(history[..m + 1], RetryScheduled) - Count(t.history, RetryScheduled)
    && (e.event in {TransactionStarted, RetryScheduled} <==> e.step.None?)
    && (e.event == StepSucceeded ==> StartedBefore(history, m) && CallAt(history, m, oracle) == Succeeds)
    && (e.event == StepFailed ==>
          StartedBefore(history, m) && CallAt(history, m, oracle) != Succeeds && CallAt(history, m, oracle) != SkipsItself)
    && (e.event == StepSkipped ==>
          if StartedBefore(history, m) then CallAt(history, m, oracle) == SkipsItself else BehindHalt(history, m, oracle))
    && (e.event == StepStarted ==> m > 0 && GoesOn(history, m - 1, oracle))
  }

  ghost predicate EntriesTold(t: Snapshot, history: seq<Entry>, oracle: Oracle) {
    t.history <= history && forall m: nat :: |t.history| <= m < |history| ==> EntryTold(t, history, m, oracle)
  }

  /** The run so far. */
  ghost predicate Telling(t: Snapshot, s: Snapshot, oracle: Oracle) {
    && EntriesTold(t, s.history, oracle) && s.status == InProgress
    && s.retryCount - t.retryCount == Count(s.history, RetryScheduled) - Count(t.history, RetryScheduled)
  }

  lemma EntryKept(t: Snapshot, history: seq<Entry>, longer: seq<Entry>, m: nat, oracle: Oracle)
    requires |t.history| <= m < |history| && history <= longer && EntryTold(t, history, m, oracle)
    ensures EntryTold(t, longer, m, oracle)
  {
    assert longer[..m + 1] == history[..m + 1];
    if history[m].event == StepSkipped && !StartedBefore(history, m) {
      var k: nat :| HaltAt(history, k, m, oracle);
      assert HaltAt(longer, k, m, oracle);
    }
  }

  lemma EntryAdded(t: Snapshot, history: seq<Entry>, e: Entry, oracle: Oracle)
    requires EntriesTold(t, history, oracle) && EntryTold(t, history + [e], |history|, oracle)
    ensures EntriesTold(t, history + [e], oracle)
  {
    forall m: nat | |t.history| <= m < |history| ensures EntryTold(t, history + [e], m, oracle) {
      EntryKept(t, history, history + [e], m, oracle);
    }
  }

  lemma CountAdded(history: seq<Entry>, e: Entry)
    ensures Count(history + [e], RetryScheduled) == Count(history, RetryScheduled) + if e.event == RetryScheduled then 1 else 0
  {
    assert (history + [e])[..|history|] == history;
  }

  lemma MoveTelling(t: Snapshot, s: Snapshot, e: Entry, oracle: Oracle)
    requires Telling(t, s, oracle) && e.sequence == |s.history| + 1 && e.status == InProgress && e.event != RetryScheduled
    requires e.retryNumber == s.retryCount && (e.step.None? <==> e.event == TransactionStarted)
    requires var h, n := s.history + [e], |s.history|;
             && (e.event == StepSucceeded ==> StartedBefore(h, n) && CallAt(h, n, oracle) == Succeeds)
             && (e.event == StepFailed ==> StartedBefore(h, n) && CallAt(h, n, oracle) !in {Succeeds, SkipsItself})
             && (e.event == StepSkipped ==>
                   if StartedBefore(h, n) then CallAt(h, n, oracle) == SkipsItself else BehindHalt(h, n, oracle))
             && (e.event == StepStarted ==> n > 0 && GoesOn(h, n - 1, oracle))
    ensures EntriesTold(t, s.history + [e], oracle)
    ensures Count(s.history + [e], RetryScheduled) == Count(s.history, RetryScheduled)
  {
    CountAdded(s.history, e);
    assert (s.history + [e])[..|s.history| + 1] == s.history + [e];
    EntryAdded(t, s.history, e, oracle);
  }

  ghost predicate LastGoesOn(history: seq<Entry>, oracle: Oracle) {
    history != [] && GoesOn(history, |history| - 1, oracle)
  }

  /** The last entry is the halting failure of step `p`. */
  ghost predicate LastHalts(s: Snapshot, p: nat, oracle: Oracle) {
    && p < |s.steps| && s.history != []
    && var k := |s.history| - 1;
       && s.history[k].event == StepFailed && s.history[k].step == Some(s.steps[p].StepKey())
       && CallAt(s.history, k, oracle).RaisesBusiness? && CallAt(s.history, k, oracle).halts
       && s.history[k].retryNumber == s.retryCount
  }

  ghost predicate LastStarts(s: Snapshot, i: nat) {
    && i < |s.steps| && s.history != []
    && s.history[|s.history| - 1].event == StepStarted && s.history[|s.history| - 1].step == Some(s.steps[i].StepKey())
  }

  lemma StartTelling(t: Snapshot, s: Snapshot, i: nat, oracle: Oracle)
    requires Telling(t, s, oracle) && i < |s.steps| && LastGoesOn(s.history, oracle)
    ensures var b := Mark(s, i, InProgress, StepStarted); Telling(t, b, oracle) && LastStarts(b, i)
  {
    var b := Mark(s, i, InProgress, StepStarted);
    var n := |s.history|;
    assert b.history[n - 1] == s.history[n - 1];
    MoveTelling(t, s, b.history[n], oracle);
  }

  lemma SettleTelling(t: Snapshot, b: Snapshot, i: nat, oracle: Oracle)
    requires Telling(t, b, oracle) && LastStarts(b, i)
    ensures Telling(t, Settle(b, i, EffectOf(b, i, oracle)), oracle)
  {
    var h, n := Settle(b, i, EffectOf(b, i, oracle)).history, |b.history|;
    assert StartedBefore(h, n);
    MoveTelling(t, b, h[n], oracle);
  }

  /** How the last entry reads after a step: whether the pass goes on, or the step halts it. */
  lemma SettleEnds(b: Snapshot, i: nat, oracle: Oracle)
    requires LastStarts(b, i)
    ensures var e := EffectOf(b, i, oracle);
            var u := Settle(b, i, e);
            && |u.history| == |b.history| + 1
            && (e == Succeeds || e == SkipsItself || (e.RaisesBusiness? && !e.halts) ==> LastGoesOn(u.history, oracle))
            && (e.RaisesBusiness? && e.halts ==> LastHalts(u, i, oracle))
  {
    var h, n := Settle(b, i, EffectOf(b, i, oracle)).history, |b.history|;
    assert StartedBefore(h, n);
  }

  lemma StepTelling(t: Snapshot, r: Trace, i: nat, oracle: Oracle)
    requires Telling(t, r.tx, oracle) && i < |r.tx.steps| && LastGoesOn(r.tx.history, oracle)
    ensures var u, e := RunStep(r, i, oracle).tx, EffectOf(StartStep(r, i).tx, i, oracle);
            && Telling(t, u, oracle)
            && (e == Succeeds || e == SkipsItself || (e.RaisesBusiness? && !e.halts) ==> LastGoesOn(u.history, oracle))
            && (e.RaisesBusiness? && e.halts ==> LastHalts(u, i, oracle))
  {
    var b := Mark(r.tx, i, InProgress, StepStarted);
    StartTelling(t, r.tx, i, oracle);
    SettleTelling(t, b, i, oracle);
    SettleEnds(b, i, oracle);
  }

  /** Skips have been written since the halting failure at `k`, of a step before `j`. */
  ghost predicate Skipping(s: Snapshot, k: nat, j: nat, oracle: Oracle) {
    && k < |s.history| && s.history[k].event == StepFailed && s.history[k].step.Some? && j <= |s.steps|
    && CallAt(s.history, k, oracle).RaisesBusiness? && CallAt(s.history, k, oracle).halts
    && (forall i :: j <= i < |s.steps| ==> s.history[k].step.value.order < s.steps[i].order)
    && s.history[k].retryNumber == s.retryCount
    && forall m :: k < m < |s.history| ==> s.history[m].event == StepSkipped
  }

  lemma {:induction false} SkipTelling(t: Snapshot, s: Snapshot, k: nat, j: nat, oracle: Oracle)
    requires Telling(t, s, oracle) && Skipping(s, k, j, oracle)
    ensures Telling(t, SkipFrom(s, j), oracle)
    decreases |s.steps| - j
  {
    if j < |s.steps| {
      if s.steps[j].status == Pending {
        var s' := Mark(s, j, Skipped, StepSkipped);
        var h, n := s'.history, |s.history|;
        assert HaltAt(h, k, n, oracle) && !StartedBefore(h, n);
        MoveTelling(t, s, h[n], oracle);
        SkipTelling(t, s', k, j + 1, oracle);
      } else {
        SkipTelling(t, s, k, j + 1, oracle);
      }
    }
  }

  lemma HaltTelling(t: Snapshot, s: Snapshot, i: nat, oracle: Oracle)
    requires Telling(t, s, oracle) && LastHalts(s, i, oracle) && InOrder(s.steps)
    ensures Telling(t, SkipFrom(s, i + 1), oracle) && InOrder(SkipFrom(s, i + 1).steps)
  {
    SkipTelling(t, s, |s.history| - 1, i + 1, oracle);
    SkipSettles(s, i + 1);
  }

  lemma {:induction false} PassTelling(t: Snapshot, r: Trace, i: nat, blocked: set<int>, oracle: Oracle)
    requires Telling(t, r.tx, oracle) && i <= |r.tx.steps| && LastGoesOn(r.tx.history, oracle) && InOrder(r.tx.steps)
    ensures Telling(t, PassFrom(r, i, blocked, oracle).tx, oracle) && InOrder(PassFrom(r, i, blocked, oracle).tx.steps)
    decreases |r.tx.steps| - i
  {
    if i == |r.tx.steps| {
    } else if !Runs(r.tx.steps[i], blocked) {
      PassTelling(t, r, i + 1, blocked, oracle);
    } else {
      var e, s := EffectOf(StartStep(r, i).tx, i, oracle), RunStep(r, i, oracle);
      StepTelling(t, r, i, oracle);
      RunStepRow(r, i, oracle);
      InOrderUpdate(r.tx.steps, i, s.tx.steps[i]);
      if !StopsPass(e) {
        PassTelling(t, s, i + 1, blocked, oracle);
      } else if e.RaisesBusiness? {
        HaltTelling(t, s.tx, i, oracle);
      }
    }
  }

  lemma RescheduleTelling(t: Snapshot, s: Snapshot, oracle: Oracle)
    requires Telling(t, s, oracle)
    ensures Telling(t, Reschedule(s), oracle) && LastGoesOn(Reschedule(s).history, oracle)
  {
    var b := Reschedule(s);
    var e := b.history[|s.history|];
    CountAdded(s.history, e);
    assert b.history[..|s.history| + 1] == b.history;
    EntryAdded(t, s.history, e, oracle);
  }

  lemma {:induction false} RetryTelling(t: Snapshot, r: Trace, maxRetries: nat, oracle: Oracle)
    requires Telling(t, r.tx, oracle) && InOrder(r.tx.steps)
    ensures Telling(t, RetryFrom(r, maxRetries, oracle).tx, oracle)
    decreases if r.tx.retryCount < maxRetries then maxRetries - r.tx.retryCount else 0
  {
    if r.tx.retryCount < maxRetries && HasRetryable(r.tx.steps) {
      var b := Reschedule(r.tx);
      RescheduleTelling(t, r.tx, oracle);
      RescheduleFacts(r.tx);
      PassTelling(t, r.(tx := b), 0, BusinessFailedOrders(b.steps), oracle);
      RetryTelling(t, Checkpoint(PassFrom(r.(tx := b), 0, BusinessFailedOrders(b.steps), oracle)), maxRetries, oracle);
    }
  }

  lemma FirstTelling(t: Snapshot, oracle: Oracle)
    ensures Telling(t, Begin(t), oracle) && LastGoesOn(Begin(t).history, oracle)
  {
    var b := Begin(t);
    var e := b.history[|t.history|];
    CountAdded(t.history, e);
    assert b.history[..|t.history| + 1] == b.history;
    EntryAdded(t, t.history, e, oracle);
  }

  /** What a run writes into history: numbered entries made in progress, each in the pass that the
      recorded retries count; a step's end is recorded right after its start and says what its
      call did; a pass goes on exactly where a step may be started; only steps behind a halting
      failure are skipped unstarted; and the completion comes last. */
  lemma HistoryTells(t: Snapshot, maxRetries: nat, oracle: Oracle)
    requires InOrder(t.steps)
    ensures var u := Run(t, maxRetries, oracle).tx;
            && |u.history| > 0
            && EntriesTold(t, u.history[..|u.history| - 1], oracle)
            && u.history[|u.history| - 1] == Entry(|u.history|, TransactionCompleted, u.status, u.retryCount, None)
  {
    FirstTelling(t, oracle);
    var start := First(t);
    assert Keys(start.tx.steps) == Keys(t.steps);
    KeysKeepOrder(t.steps, start.tx.steps);
    PassTelling(t, start, 0, InitialBlocked(t), oracle);
    RetryTelling(t, PassFrom(start, 0, InitialBlocked(t), oracle), maxRetries, oracle);
    var w := Work(t, maxRetries, oracle).tx;
    var u := Complete(w);
    assert u.history[..|u.history| - 1] == w.history;
  }
}
