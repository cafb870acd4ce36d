/** Resume as it works: the caller's step objects are matched by key, take over the persisted
    exceptions and a recovered status, and replace the loaded steps. */
module Recovery {
  import opened Options
  import opened Records
  import opened RecoverySpec
  import opened Objects
  import opened EnginePass

  /** `_halt_propagated_skipped_step_keys`. */
  function HaltPropagatedKeys(t: Snapshot): set<Key> {
    var halting := set i | 0 <= i < |t.steps| && Halting(t.steps[i]) ::
      (t.steps[i].order, t.steps[i].exceptions[|t.steps[i].exceptions| - 1].retryNumber);
    set m | 0 <= m < |t.history| && t.history[m].event == StepSkipped && t.history[m].step.Some?
          && exists h :: h in halting && h.0 < t.history[m].step.value.order && h.1 == t.history[m].retryNumber
        :: t.history[m].step.value
  }

  lemma HaltPropagatedMeans(t: Snapshot, k: Key)
    ensures k in HaltPropagatedKeys(t) <==> HaltPropagated(t, k)
  {
    if k in HaltPropagatedKeys(t) {
      var halting := set i | 0 <= i < |t.steps| && Halting(t.steps[i]) ::
        (t.steps[i].order, t.steps[i].exceptions[|t.steps[i].exceptions| - 1].retryNumber);
      var m :| 0 <= m < |t.history| && t.history[m].event == StepSkipped && t.history[m].step == Some(k)
        && exists h :: h in halting && h.0 < k.order && h.1 == t.history[m].retryNumber;
      var h :| h in halting && h.0 < k.order && h.1 == t.history[m].retryNumber;
      var i :| 0 <= i < |t.steps| && Halting(t.steps[i]) &&
        h == (t.steps[i].order, t.steps[i].exceptions[|t.steps[i].exceptions| - 1].retryNumber);
      assert HaltedBy(t.steps[i], t.history[m], k);
    }
    if HaltPropagated(t, k) {
      var i, m :| 0 <= i < |t.steps| && 0 <= m < |t.history| && HaltedBy(t.steps[i], t.history[m], k);
      var h := (t.steps[i].order, t.steps[i].exceptions[|t.steps[i].exceptions| - 1].retryNumber);
      assert h in set i | 0 <= i < |t.steps| && Halting(t.steps[i]) ::
        (t.steps[i].order, t.steps[i].exceptions[|t.steps[i].exceptions| - 1].retryNumber);
      assert t.history[m].step.value == k;
    }
  }

  /** The keys of the skips a resume keeps. */
  function PreservedSkips(t: Snapshot, retryBusiness: bool): set<Key> {
    var halted := HaltPropagatedKeys(t);
    var kept := if Interrupted(t) || LastEventIs(t, TransactionResumed)
                then set i | 0 <= i < |t.steps| && t.steps[i].status == Skipped :: t.steps[i].StepKey()
                else halted;
    if retryBusiness then kept - halted else kept
  }

  lemma PreservedMeans(t: Snapshot, retryBusiness: bool, i: nat)
    requires InOrder(t.steps) && i < |t.steps|
    ensures t.steps[i].StepKey() in PreservedSkips(t, retryBusiness) <==> PreservesSkip(t, t.steps[i], retryBusiness)
  {
    HaltPropagatedMeans(t, t.steps[i].StepKey());
    assert forall j: nat :: j < |t.steps| && j != i ==> t.steps[j].order != t.steps[i].order;
  }

  function StepKeys(steps: seq<Step>): seq<Key> {
    seq(|steps|, i requires 0 <= i < |steps| => steps[i].StepKey())
  }

  lemma {:induction false} SortedIsFixed(steps: seq<Step>)
    requires Ascending(steps)
    ensures Sorted(steps) == steps
  {
    if steps != [] {
      var n := |steps| - 1;
      SortedIsFixed(steps[..n]);
      assert steps == steps[..n] + [steps[n]];
    }
  }

  /** The caller's steps by key, or the first key that repeats. */
  method ByKey(provided: seq<Step>, ghost loaded: seq<Step>) returns (r: Result<map<Key, Step>, Key>)
    ensures Rows(loaded) == old(Rows(loaded))
    ensures match FirstDuplicate(StepKeys(provided), 0)
            case Some(k) => r == Failure(k)
            case None => r.Success?
    ensures r.Success? ==> r.value.Keys == KeySet(StepKeys(provided))
    ensures r.Success? ==> forall k :: k in r.value ==> r.value[k] in provided && r.value[k].StepKey() == k
  {
    ghost var keys := StepKeys(provided);
    var byKey: map<Key, Step> := map[];
    for i := 0 to |provided|
      invariant byKey.Keys == set j | 0 <= j < i :: keys[j]
      invariant forall k :: k in byKey ==> byKey[k] in provided && byKey[k].StepKey() == k
      invariant FirstDuplicate(keys, i) == FirstDuplicate(keys, 0)
      invariant Rows(loaded) == old(Rows(loaded))
    {
      var step := provided[i];
      assert keys[i] == step.StepKey();
      assert step.StepKey() in byKey <==> keys[i] in keys[..i];
      if step.StepKey() in byKey {
        return Failure(step.StepKey());
      }
      byKey := byKey[step.StepKey() := step];
    }
    r := Success(byKey);
  }

  function ResumedRow(t: Snapshot, retryBusiness: bool, i: nat): StepRow
    requires i < |t.steps|
  {
    t.steps[i].(status := ResumedStatus(t.steps[i], PreservesSkip(t, t.steps[i], retryBusiness), retryBusiness))
  }

  ghost predicate Matched(restored: seq<Step>, byKey: map<Key, Step>, t: Snapshot, retryBusiness: bool)
    reads restored
  {
    && |restored| <= |t.steps|
    && forall j :: 0 <= j < |restored| ==>
         && t.steps[j].StepKey() in byKey && restored[j] == byKey[t.steps[j].StepKey()]
         && restored[j].StepKey() == t.steps[j].StepKey()
         && restored[j].Row() == ResumedRow(t, retryBusiness, j)
  }

  /** A caller's step takes over what was persisted. */
  method Adopt(concrete: Step, loaded: Step, preserved: set<Key>, retryBusiness: bool,
               ghost restored: seq<Step>, ghost byKey: map<Key, Step>, ghost t: Snapshot)
    requires InOrder(t.steps) && Matched(restored, byKey, t, retryBusiness) && |restored| < |t.steps|
    requires loaded.Row() == t.steps[|restored|] && preserved == PreservedSkips(t, retryBusiness)
    requires loaded.StepKey() in byKey && byKey[loaded.StepKey()] == concrete
    requires concrete != loaded && concrete.StepKey() == loaded.StepKey()
    modifies concrete
    ensures Matched(restored + [concrete], byKey, t, retryBusiness)
  {
    ghost var i := |restored|;
    PreservedMeans(t, retryBusiness, i);
    assert forall j :: 0 <= j < i ==> restored[j] != concrete by {
      assert forall j :: 0 <= j < i ==> t.steps[j].order < t.steps[i].order;
    }
    concrete.exceptions := loaded.exceptions;
    concrete.status := ResumedStatus(loaded.Row(), loaded.StepKey() in preserved, retryBusiness);
    assert concrete.Row() == ResumedRow(t, retryBusiness, i);
  }

  /** The keys popped for the first `n` loaded steps. */
  function Popped(steps: seq<StepRow>, n: nat): set<Key>
    requires n <= |steps|
  {
    set j | 0 <= j < n :: steps[j].StepKey()
  }

  lemma PopNext(t: Snapshot, i: nat)
    requires InOrder(t.steps) && i < |t.steps|
    ensures t.steps[i].StepKey() !in Popped(t.steps, i)
    ensures Popped(t.steps, i + 1) == Popped(t.steps, i) + {t.steps[i].StepKey()}
  {
  }

  lemma AllPopped(steps: seq<StepRow>)
    ensures Popped(steps, |steps|) == KeySet(Keys(steps))
  {
    var keys := Keys(steps);
    assert forall i :: 0 <= i < |steps| ==> keys[i] == steps[i].StepKey();
  }

  /** Pops the caller's step for every loaded step, in execution order. */
  method Restore(ordered: seq<Step>, byKey: map<Key, Step>, retryBusiness: bool, t: Snapshot)
    returns (missing: Option<Key>, restored: seq<Step>, left: set<Key>)
    requires t.steps == Rows(ordered) && InOrder(t.steps)
    requires forall k :: k in byKey ==> byKey[k].StepKey() == k && byKey[k] !in ordered
    modifies byKey.Values
    ensures Rows(ordered) == t.steps
    ensures missing == FirstMissing(t.steps, byKey.Keys, 0)
    ensures missing.None? ==> |restored| == |t.steps| && Matched(restored, byKey, t, retryBusiness)
    ensures missing.None? ==> left == byKey.Keys - KeySet(Keys(t.steps))
  {
    var preserved := PreservedSkips(t, retryBusiness);
    left, restored := byKey.Keys, [];
    for i := 0 to |ordered|
      invariant |restored| == i && Matched(restored, byKey, t, retryBusiness)
      invariant left == byKey.Keys - Popped(t.steps, i)
      invariant FirstMissing(t.steps, byKey.Keys, i) == FirstMissing(t.steps, byKey.Keys, 0)
      invariant Rows(ordered) == t.steps
    {
      var loaded := ordered[i];
      var key := loaded.StepKey();
      RowAt(ordered, i);
      PopNext(t, i);
      if key !in left {
        return Some(key), [], {};
      }
      assert byKey[key] in byKey.Values;
      Adopt(byKey[key], loaded, preserved, retryBusiness, restored, byKey, t);
      left, restored := left - {key}, restored + [byKey[key]];
    }
    AllPopped(t.steps);
    missing := None;
  }

  lemma RestoredView(restored: seq<Step>, byKey: map<Key, Step>, t: Snapshot, retryBusiness: bool)
    requires InOrder(t.steps) && |restored| == |t.steps| && Matched(restored, byKey, t, retryBusiness)
    ensures Sorted(restored) == restored && Rows(restored) == ResumedSteps(t, retryBusiness)
  {
    forall i, j | 0 <= i < j < |restored| ensures restored[i].order <= restored[j].order {
      assert t.steps[i].order < t.steps[j].order;
    }
    SortedIsFixed(restored);
    forall i: nat | i < |restored| ensures Rows(restored)[i] == ResumedSteps(t, retryBusiness)[i] {
      RowAt(restored, i);
    }
  }

  /** The restored steps replace the loaded ones and the transaction starts over. */
  method Install(tx: Transaction, restored: seq<Step>, retryBusiness: bool, ghost byKey: map<Key, Step>, ghost t: Snapshot)
    requires t == tx.ViewAs(tx.OrderedSteps()).(steps := t.steps) && InOrder(t.steps)
    requires |restored| == |t.steps| && Matched(restored, byKey, t, retryBusiness)
    modifies tx
    ensures tx.View() == Resumed(t, retryBusiness)
  {
    RestoredView(restored, byKey, t, retryBusiness);
    tx.steps, tx.status, tx.retryCount := restored, Pending, 0;
    if tx.history == [] || tx.history[|tx.history| - 1].event != TransactionResumed {
      tx.AppendHistory(TransactionResumed, None);
    }
    assert Rows(restored) == ResumedSteps(t, retryBusiness);
  }

  /** The mapping of the caller's steps, once identity and wiring are accepted. */
  method Reattach(tx: Transaction, provided: seq<Step>, retryBusiness: bool, ghost identity: Option<string>)
    returns (error: Option<ResumeError>)
    requires tx.status != Successful && identity == Some(tx.identity) && tx.identity != ""
    requires ValidForExecution(tx.View())
    requires forall s :: s in provided ==> s !in tx.OrderedSteps()
    modifies tx, provided
    ensures match Prepare(old(tx.View()), StepKeys(provided), retryBusiness, identity)
            case Success(resumed) => error == None && tx.View() == resumed
            case Failure(e) => error == Some(e) && tx.View() == old(tx.View())
  {
    var ordered, t := tx.OrderedSteps(), tx.View();
    var byKey := ByKey(provided, ordered);
    if byKey.Failure? {
      return Some(DuplicateStep(byKey.error));
    }
    var missing, restored, left := Restore(ordered, byKey.value, retryBusiness, t);
    if missing.Some? {
      return Some(MissingStep(missing.value));
    }
    if left != {} {
      return Some(ExtraSteps(left));
    }
    Install(tx, restored, retryBusiness, byKey.value, t);
    error := None;
  }

  /** `_prepare_resumed_transaction`: a refused resume leaves the transaction as it was. */
  method PrepareResumed(tx: Transaction, provided: seq<Step>, retryBusiness: bool, identity: Option<string>)
    returns (error: Option<ResumeError>)
    requires forall s :: s in provided ==> s !in tx.OrderedSteps()
    modifies tx, provided
    ensures match Prepare(old(tx.View()), StepKeys(provided), retryBusiness, identity)
            case Success(resumed) => error == None && tx.View() == resumed
            case Failure(e) => error == Some(e) && tx.View() == old(tx.View())
  {
    if tx.status == Successful {
      return None;
    }
    if identity.None? || identity.value == "" {
      return Some(IdentityRequired);
    }
    if tx.identity == "" {
      return Some(Unidentified);
    }
    if tx.identity != identity.value {
      return Some(IdentityMismatch);
    }
    var valid := tx.Validate();
    if !valid {
      return Some(InvalidWiring);
    }
    error := Reattach(tx, provided, retryBusiness, identity);
  }
}
