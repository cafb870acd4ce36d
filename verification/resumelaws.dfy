/** What a resume and a run mean, said of the records themselves and of what the steps do when
    they are called. */
module ResumeLaws {
  import opened Options
  import opened Texts
  import opened Records
  import opened EngineSpec
  import opened EngineRuns
  import opened EngineOutcome
  import opened RecoverySpec
  import opened Sessions

  // ---------- Rows ----------

  /** The step failed, and its last exception is a business one. */
  predicate BusinessEnded(s: StepRow) {
    s.status == Failed && s.exceptions != [] && s.exceptions[|s.exceptions| - 1].Business?
  }

  /** The entry records a skip of `k` in the pass in which the earlier step `s` failed and halted. */
  predicate HaltExplains(s: StepRow, e: Entry, k: Key) {
    && BusinessEnded(s) && s.exceptions[|s.exceptions| - 1].halts
    && s.order < k.order
    && e.event == StepSkipped && e.step == Some(k)
    && e.retryNumber == s.exceptions[|s.exceptions| - 1].retryNumber
  }

  predicate SkippedByHalt(t: Snapshot, k: Key) {
    exists i, m :: 0 <= i < |t.steps| && 0 <= m < |t.history| && HaltExplains(t.steps[i], t.history[m], k)
  }

  /** A run was cut off, or a resume that nothing followed. */
  predicate CutOff(t: Snapshot) {
    || t.status == InProgress
    || (exists i :: 0 <= i < |t.steps| && t.steps[i].status == InProgress)
    || (t.history != [] && t.history[|t.history| - 1].event == TransactionResumed)
  }

  /** What becomes of a row. */
  predicate RowResumed(t: Snapshot, a: StepRow, b: StepRow, retryBusiness: bool) {
    && b.name == a.name && b.order == a.order && b.exceptions == a.exceptions
    && match a.status
       case Successful => b.status == Successful
       case Failed => b.status == if BusinessEnded(a) && !retryBusiness then Failed else Pending
       case Skipped =>
         b.status == if SkippedByHalt(t, Key(a.name, a.order)) then (if retryBusiness then Pending else Skipped)
                     else if CutOff(t) then Skipped else Pending
       case _ => b.status == Pending
  }

  lemma SameHalts(t: Snapshot, k: Key)
    ensures SkippedByHalt(t, k) <==> HaltPropagated(t, k)
  {
    if i, m :| 0 <= i < |t.steps| && 0 <= m < |t.history| && HaltExplains(t.steps[i], t.history[m], k) {
      assert HaltedBy(t.steps[i], t.history[m], k);
    }
    if i, m :| 0 <= i < |t.steps| && 0 <= m < |t.history| && HaltedBy(t.steps[i], t.history[m], k) {
      assert HaltExplains(t.steps[i], t.history[m], k);
    }
  }

  /** An accepted resume, row by row: business failures and the skips they caused are released
      only when their retry is asked for, and everything else that is not settled runs again. */
  lemma ResumeMeans(t: Snapshot, provided: seq<Key>, retryBusiness: bool, identity: Option<string>, r: Snapshot)
    requires t.status != Successful && Prepare(t, provided, retryBusiness, identity) == Success(r)
    ensures |r.steps| == |t.steps| && forall i :: 0 <= i < |t.steps| ==> RowResumed(t, t.steps[i], r.steps[i], retryBusiness)
    ensures var again := t.history != [] && t.history[|t.history| - 1].event == TransactionResumed;
            r == t.(steps := r.steps, status := Pending, retryCount := 0,
                    history := if again then t.history
                               else t.history + [Entry(|t.history| + 1, TransactionResumed, Pending, 0, None)])
  {
    forall i | 0 <= i < |t.steps| ensures RowResumed(t, t.steps[i], r.steps[i], retryBusiness) {
      SameHalts(t, t.steps[i].StepKey());
    }
  }

  // ---------- Refusals ----------

  predicate OccursIn(k: Key, keys: seq<Key>) { exists j :: 0 <= j < |keys| && keys[j] == k }

  /** The first provided key that an earlier one repeats. */
  predicate RepeatsFirst(provided: seq<Key>, n: nat, k: Key) {
    && n < |provided| && provided[n] == k && OccursIn(k, provided[..n])
    && forall i, j :: 0 <= i < j < n ==> provided[i] != provided[j]
  }

  /** The first persisted step that was not provided. */
  predicate MissesFirst(steps: seq<StepRow>, provided: seq<Key>, n: nat, k: Key) {
    && n < |steps| && k == Key(steps[n].name, steps[n].order) && !OccursIn(k, provided)
    && forall i :: 0 <= i < n ==> OccursIn(Key(steps[i].name, steps[i].order), provided)
  }

  lemma {:induction false} DuplicateFound(provided: seq<Key>, n: nat)
    requires n <= |provided| && forall i, j :: 0 <= i < j < n ==> provided[i] != provided[j]
    ensures FirstDuplicate(provided, n).Some? ==> exists m: nat :: RepeatsFirst(provided, m, FirstDuplicate(provided, n).value)
    decreases |provided| - n
  {
    if n < |provided| {
      if provided[n] in provided[..n] {
        assert FirstDuplicate(provided, n) == Some(provided[n]);
        assert RepeatsFirst(provided, n, provided[n]);
      } else {
        assert forall i :: 0 <= i < n ==> provided[..n][i] == provided[i];
        DuplicateFound(provided, n + 1);
      }
    }
  }

  lemma {:induction false} MissingFound(steps: seq<StepRow>, provided: seq<Key>, n: nat)
    requires n <= |steps| && forall i :: 0 <= i < n ==> OccursIn(Key(steps[i].name, steps[i].order), provided)
    ensures FirstMissing(steps, KeySet(provided), n).Some? ==>
              exists m: nat :: MissesFirst(steps, provided, m, FirstMissing(steps, KeySet(provided), n).value)
    decreases |steps| - n
  {
    if n < |steps| {
      var k := steps[n].StepKey();
      assert k in KeySet(provided) <==> OccursIn(k, provided);
      if k !in KeySet(provided) {
        assert FirstMissing(steps, KeySet(provided), n) == Some(k);
        assert MissesFirst(steps, provided, n, k);
      } else {
        MissingFound(steps, provided, n + 1);
      }
    }
  }

  /** The reference or a name is blank, an order is not positive, a name repeats, or the rows are not
      in the order of distinct execution orders. */
  predicate Miswired(t: Snapshot) {
    || Blank(t.reference)
    || (exists i :: 0 <= i < |t.steps| && (Blank(t.steps[i].name) || t.steps[i].order < 1))
    || exists i, j :: 0 <= i < j < |t.steps| && (t.steps[i].name == t.steps[j].name || t.steps[i].order >= t.steps[j].order)
  }

  /** Every refusal says what is wrong. */
  lemma RefusalMeans(t: Snapshot, provided: seq<Key>, retryBusiness: bool, identity: Option<string>, error: ResumeError)
    requires Prepare(t, provided, retryBusiness, identity) == Failure(error)
    ensures t.status != Successful
    ensures error == IdentityRequired <==> identity == None || identity == Some("")
    ensures error == Unidentified <==> identity.Some? && identity.value != "" && t.identity == ""
    ensures error == IdentityMismatch <==> identity.Some? && identity.value != "" && t.identity != "" && t.identity != identity.value
    ensures error == InvalidWiring <==> identity == Some(t.identity) && t.identity != "" && Miswired(t)
    ensures error.DuplicateStep? ==> exists n: nat :: RepeatsFirst(provided, n, error.key)
    ensures error.MissingStep? ==> exists n: nat :: MissesFirst(t.steps, provided, n, error.key)
    ensures error.ExtraSteps? ==>
              error.keys != {} && forall k :: k in error.keys <==> OccursIn(k, provided) && !OccursIn(k, Keys(t.steps))
  {
    if identity == Some(t.identity) && t.identity != "" && ValidForExecution(t) {
      DuplicateFound(provided, 0);
      if FirstDuplicate(provided, 0).None? {
        MissingFound(t.steps, provided, 0);
        if FirstMissing(t.steps, KeySet(provided), 0).None? {
          forall k ensures (k in KeySet(provided) <==> OccursIn(k, provided)) && (k in KeySet(Keys(t.steps)) <==> OccursIn(k, Keys(t.steps))) {
          }
        }
      }
    }
  }

  // ---------- Runs in which every step called succeeds ----------

  ghost predicate EveryCallSucceeds(oracle: Oracle) {
    forall order: int, written: nat :: oracle(order, written) == Succeeds
  }

  /** The statuses a pass leaves in which all calls succeed. */
  ghost predicate AllCalled(a: seq<StepRow>, b: seq<StepRow>, blocked: set<int>) {
    |a| == |b| && forall i :: 0 <= i < |a| ==> RunSucceeded(a[i], b[i], blocked)
  }

  lemma SucceedingRun(t: Snapshot, maxRetries: nat, oracle: Oracle)
    requires InOrder(t.steps) && EveryCallSucceeds(oracle)
    requires forall i :: 0 <= i < |t.steps| && t.steps[i].SystemFailed() ==> Runs(t.steps[i], InitialBlocked(t))
    ensures AllCalled(Begin(t).steps, Run(t, maxRetries, oracle).tx.steps, InitialBlocked(t))
  {
    var r := First(t);
    assert Keys(r.tx.steps) == Keys(t.steps);
    KeysKeepOrder(t.steps, r.tx.steps);
    SucceedingPass(r, 0, InitialBlocked(t), oracle);
    var u := PassFrom(r, 0, InitialBlocked(t), oracle);
    forall i: nat | i < |t.steps| ensures !u.tx.steps[i].SystemFailed() {
      assert RunSucceeded(r.tx.steps[i], u.tx.steps[i], InitialBlocked(t));
    }
    assert Work(t, maxRetries, oracle) == u;
    CompleteKeepsSteps(u.tx);
  }

  /** A resumed run in which every step called succeeds is successful when business failures are
      retried, and otherwise exactly when none was kept. */
  lemma ResumedRunSucceeds(t: Snapshot, provided: seq<Key>, retryBusiness: bool, identity: Option<string>, r: Snapshot,
                           maxRetries: nat, oracle: Oracle)
    requires t.status != Successful && Prepare(t, provided, retryBusiness, identity) == Success(r)
    requires EveryCallSucceeds(oracle)
    ensures Run(r, maxRetries, oracle).tx.status == Successful <==>
            retryBusiness || forall i :: 0 <= i < |t.steps| ==> !BusinessEnded(t.steps[i])
  {
    ResumeMeans(t, provided, retryBusiness, identity, r);
    ResumeIsStart(t, retryBusiness);
    FirstFacts(r);
    forall i | 0 <= i < |r.steps| ensures !r.steps[i].SystemFailed() && (r.steps[i].BusinessFailed() <==> BusinessEnded(t.steps[i]) && !retryBusiness) {
      assert RowResumed(t, t.steps[i], r.steps[i], retryBusiness);
    }
    SucceedingRun(r, maxRetries, oracle);
    RunEnds(r, maxRetries, oracle);
    var u := Run(r, maxRetries, oracle).tx;
    forall i | 0 <= i < |r.steps|
      ensures (u.steps[i].status == Successful || u.steps[i].status == Skipped) <==> !(BusinessEnded(t.steps[i]) && !retryBusiness)
    {
      assert RowResumed(t, t.steps[i], r.steps[i], retryBusiness);
      assert RunSucceeded(r.steps[i], u.steps[i], InitialBlocked(r));
    }
  }

  lemma NothingKept(t: Snapshot)
    requires t.history == [] || t.history[|t.history| - 1].event != TransactionResumed
    ensures InitialBlocked(t) == {} && |Begin(t).steps| == |t.steps|
    ensures forall i :: 0 <= i < |t.steps| ==> Begin(t).steps[i].status != Skipped
  {
  }

  /** A transaction that is run again without a resume runs everything that has not succeeded,
      skipped and failed steps included. */
  lemma RerunSucceeds(t: Snapshot, maxRetries: nat, oracle: Oracle)
    requires InOrder(t.steps) && EveryCallSucceeds(oracle)
    requires t.history == [] || t.history[|t.history| - 1].event != TransactionResumed
    ensures var u := Run(t, maxRetries, oracle).tx;
            && u.status == Successful && |u.steps| == |t.steps|
            && forall i :: 0 <= i < |t.steps| ==> u.steps[i].status == Successful
  {
    NothingKept(t);
    SucceedingRun(t, maxRetries, oracle);
    RunEnds(t, maxRetries, oracle);
    var a, u := Begin(t).steps, Run(t, maxRetries, oracle).tx;
    assert forall i :: 0 <= i < |a| ==> RunSucceeded(a[i], u.steps[i], {});
  }
}
