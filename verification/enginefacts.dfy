/** Facts about whole engine runs under any oracle: append-only numbered history, final
    successes, retry accounting, the final status, and which statuses checkpoints show. */
module EngineFacts {
  import opened Options
  import opened Records
  import opened EngineSpec
  import opened EngineLemmas

  // ---------- What never changes, and the append-only history ----------

  /** `t` continues `t0`: same definition, same step wiring, history only added at the end. */
  ghost predicate Continues(t0: Snapshot, t: Snapshot) {
    && t.reference == t0.reference
    && t.identity == t0.identity
    && Keys(t.steps) == Keys(t0.steps)
    && t0.history <= t.history
    && (Numbered(t0.history) ==> Numbered(t.history))
  }

  lemma MoveContinues(t: Snapshot, m: Move)
    requires Enabled(t, m)
    ensures Continues(t, Apply(t, m))
  {
  }

  lemma ContinuesTransitive(a: Snapshot, b: Snapshot, c: Snapshot)
    requires Continues(a, b) && Continues(b, c)
    ensures Continues(a, c)
  {
  }

  lemma RunContinues(t: Snapshot, maxRetries: nat, oracle: Oracle)
    ensures Throughout(Run(t, maxRetries, oracle), (s: Snapshot) => Continues(t, s))
  {
    var inv := (s: Snapshot) => Continues(t, s);
    forall s, m | Enabled(s, m) && inv(s) ensures inv(Apply(s, m)) {
      MoveContinues(s, m);
      ContinuesTransitive(t, s, Apply(s, m));
    }
    RunKeeps(t, maxRetries, oracle, inv);
  }

  // ---------- Success is final ----------

  ghost predicate SucceededAt(t: Snapshot, k: nat, key: Key) {
    k < |t.history| && t.history[k].event == StepSucceeded && t.history[k].step == Some(key)
  }

  ghost predicate MentionsAfter(t: Snapshot, k: nat, key: Key) {
    exists m :: k < m < |t.history| && t.history[m].step == Some(key)
  }

  /** A recorded success is the last event of its step, and the step is successful. */
  ghost predicate SuccessFinal(t: Snapshot) {
    && InOrder(t.steps)
    && forall k: nat, i :: 0 <= i < |t.steps| && SucceededAt(t, k, t.steps[i].StepKey()) ==>
         t.steps[i].status == Successful && !MentionsAfter(t, k, t.steps[i].StepKey())
  }

  /** A step is successful only if its success is recorded. A builder that hands over steps
      already marked successful starts without this. */
  ghost predicate SuccessRecorded(t: Snapshot) {
    forall i :: 0 <= i < |t.steps| && t.steps[i].status == Successful ==> exists k: nat :: SucceededAt(t, k, t.steps[i].StepKey())
  }

  /** What was recorded stays recorded. */
  ghost predicate SuccessKept(t: Snapshot, t': Snapshot) {
    SuccessFinal(t') && (SuccessRecorded(t) ==> SuccessRecorded(t'))
  }

  /** A snapshot whose history grew by one entry about step `i`, other steps as they were. */
  lemma SuccessFinalGrows(t: Snapshot, t': Snapshot, i: nat, e: Entry)
    requires SuccessFinal(t) && i < |t.steps| && |t'.steps| == |t.steps|
    requires t.steps[i].status != Successful
    requires t'.history == t.history + [e] && e.step == Some(t.steps[i].StepKey())
    requires forall j :: 0 <= j < |t.steps| ==> t'.steps[j].StepKey() == t.steps[j].StepKey()
    requires forall j :: 0 <= j < |t.steps| && j != i ==> t'.steps[j].status == t.steps[j].status
    requires t'.steps[i].status == Successful <==> e.event == StepSucceeded
    ensures SuccessKept(t, t')
  {
    assert InOrder(t'.steps) by {
      forall a, b | 0 <= a < b < |t'.steps| ensures t'.steps[a].order < t'.steps[b].order {
        assert t'.steps[a].StepKey() == t.steps[a].StepKey() && t'.steps[b].StepKey() == t.steps[b].StepKey();
      }
    }
    forall k: nat, j | 0 <= j < |t'.steps| && SucceededAt(t', k, t'.steps[j].StepKey())
      ensures t'.steps[j].status == Successful && !MentionsAfter(t', k, t'.steps[j].StepKey())
    {
      if k < |t.history| {
        assert SucceededAt(t, k, t.steps[j].StepKey());
        assert j != i;
        assert t.steps[j].order != t.steps[i].order;
        assert forall m :: k < m < |t.history| ==> t.history[m].step != Some(t.steps[j].StepKey());
      } else {
        assert t.steps[j].order == t.steps[i].order;
        assert j == i;
      }
    }
    forall j | SuccessRecorded(t) && 0 <= j < |t'.steps| && t'.steps[j].status == Successful
      ensures exists k: nat :: SucceededAt(t', k, t'.steps[j].StepKey())
    {
      if j == i {
        assert SucceededAt(t', |t.history|, t'.steps[j].StepKey());
      } else {
        var k: nat :| SucceededAt(t, k, t.steps[j].StepKey());
        assert SucceededAt(t', k, t'.steps[j].StepKey());
      }
    }
  }

  /** New entries about no step, and no step entering or leaving success. */
  lemma SuccessFinalKept(t: Snapshot, t': Snapshot)
    requires SuccessFinal(t) && |t'.steps| == |t.steps| && t.history <= t'.history
    requires forall m :: |t.history| <= m < |t'.history| ==> t'.history[m].step.None?
    requires forall j :: 0 <= j < |t.steps| ==> t'.steps[j].StepKey() == t.steps[j].StepKey()
    requires forall j :: 0 <= j < |t.steps| ==>
               (t'.steps[j].status == Successful <==> t.steps[j].status == Successful)
    ensures SuccessKept(t, t')
  {
    assert InOrder(t'.steps) by {
      forall a, b | 0 <= a < b < |t'.steps| ensures t'.steps[a].order < t'.steps[b].order {
        assert t'.steps[a].StepKey() == t.steps[a].StepKey() && t'.steps[b].StepKey() == t.steps[b].StepKey();
      }
    }
    forall k: nat, j | 0 <= j < |t'.steps| && SucceededAt(t', k, t'.steps[j].StepKey())
      ensures t'.steps[j].status == Successful && !MentionsAfter(t', k, t'.steps[j].StepKey())
    {
      assert SucceededAt(t, k, t.steps[j].StepKey());
      assert forall m :: k < m < |t.history| ==> t.history[m].step != Some(t.steps[j].StepKey());
    }
    forall j | SuccessRecorded(t) && 0 <= j < |t'.steps| && t'.steps[j].status == Successful
      ensures exists k: nat :: SucceededAt(t', k, t'.steps[j].StepKey())
    {
      var k: nat :| SucceededAt(t, k, t.steps[j].StepKey());
      assert SucceededAt(t', k, t'.steps[j].StepKey());
    }
  }

  /** Marking a step that has not succeeded, with an event that is a success just when the
      step becomes successful. */
  lemma MarkKeepsSuccess(t: Snapshot, i: nat, status: Status, e: Event)
    requires SuccessFinal(t) && i < |t.steps| && t.steps[i].status != Successful
    requires status == Successful <==> e == StepSucceeded
    ensures SuccessKept(t, Mark(t, i, status, e))
  {
    var t' := Mark(t, i, status, e);
    SuccessFinalGrows(t, t', i, t'.history[|t.history|]);
  }

  lemma SettleKeepsSuccess(t: Snapshot, i: nat, e: Effect)
    requires SuccessFinal(t) && i < |t.steps| && t.steps[i].status == InProgress
    ensures SuccessKept(t, Settle(t, i, e))
  {
    match Raised(e, t.retryCount)
    case Some(exc) =>
      var u := t.(steps := t.steps[i := t.steps[i].(exceptions := t.steps[i].exceptions + [exc])]);
      SuccessFinalKept(t, u);
      MarkKeepsSuccess(u, i, Failed, StepFailed);
    case None =>
      if e == SkipsItself { MarkKeepsSuccess(t, i, Skipped, StepSkipped); } else { MarkKeepsSuccess(t, i, Successful, StepSucceeded); }
  }

  lemma MoveKeepsSuccess(t: Snapshot, m: Move)
    requires Enabled(t, m) && SuccessFinal(t)
    ensures SuccessKept(t, Apply(t, m))
  {
    match m
    case StartMove(i) => MarkKeepsSuccess(t, i, InProgress, StepStarted);
    case SettleMove(i, e) => SettleKeepsSuccess(t, i, e);
    case SkipMove(i) => MarkKeepsSuccess(t, i, Skipped, StepSkipped);
    case _ => SuccessFinalKept(t, Apply(t, m));
  }

  lemma RunKeepsSuccess(t: Snapshot, maxRetries: nat, oracle: Oracle)
    requires SuccessFinal(t)
    ensures Throughout(Run(t, maxRetries, oracle), (s: Snapshot) => SuccessKept(t, s))
  {
    var inv := (s: Snapshot) => SuccessKept(t, s);
    forall s, m | Enabled(s, m) && inv(s) ensures inv(Apply(s, m)) {
      MoveKeepsSuccess(s, m);
    }
    RunKeeps(t, maxRetries, oracle, inv);
  }

  /** What `SuccessFinal` means for a reader of the history: at most one success a step,
      and no later start. */
  lemma AtMostOneSuccess(t: Snapshot, i: nat, k: nat, m: nat)
    requires SuccessFinal(t) && i < |t.steps|
    requires SucceededAt(t, k, t.steps[i].StepKey()) && m < |t.history| && t.history[m].step == Some(t.steps[i].StepKey())
    ensures m <= k
    ensures t.history[m].event == StepSucceeded ==> m == k
  {
    assert !MentionsAfter(t, k, t.steps[i].StepKey());
    if t.history[m].event == StepSucceeded {
      assert SucceededAt(t, m, t.steps[i].StepKey());
      assert !MentionsAfter(t, m, t.steps[i].StepKey());
    }
  }

  // ---------- Retry accounting ----------

  function Count(history: seq<Entry>, e: Event): nat {
    if history == [] then 0
    else Count(history[..|history| - 1], e) + if history[|history| - 1].event == e then 1 else 0
  }

  ghost predicate RetriesAccounted(t0: Snapshot, t: Snapshot) {
    t.retryCount - t0.retryCount == Count(t.history, RetryScheduled) - Count(t0.history, RetryScheduled)
  }

  lemma MoveAccountsRetries(t: Snapshot, m: Move)
    requires Enabled(t, m)
    ensures RetriesAccounted(t, Apply(t, m))
  {
  }

  /** As many `retry_scheduled` events as the pass number grew, at every checkpoint, and
      never more passes than the budget allows. */
  lemma RunAccountsRetries(t: Snapshot, maxRetries: nat, oracle: Oracle)
    ensures Throughout(Run(t, maxRetries, oracle), (s: Snapshot) => RetriesAccounted(t, s))
    ensures t.retryCount <= Run(t, maxRetries, oracle).tx.retryCount
    ensures Run(t, maxRetries, oracle).tx.retryCount <= if maxRetries > t.retryCount then maxRetries else t.retryCount
  {
    var inv := (s: Snapshot) => RetriesAccounted(t, s);
    forall s, m | Enabled(s, m) && inv(s) ensures inv(Apply(s, m)) {
      MoveAccountsRetries(s, m);
    }
    RunKeeps(t, maxRetries, oracle, inv);
  }
}
