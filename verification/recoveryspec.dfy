/** What a resume turns a persisted snapshot into. */
module RecoverySpec {
  import opened Texts
  import opened Options
  import opened Records

  datatype ResumeError =
    | IdentityRequired
    | Unidentified
    | IdentityMismatch
    | InvalidWiring
    | DuplicateStep(key: Key)
    | MissingStep(key: Key)
    | ExtraSteps(keys: set<Key>)

  /** `validate_for_execution` on steps already sorted by execution order. */
  predicate ValidForExecution(t: Snapshot) {
    && !Blank(t.reference)
    && (forall i :: 0 <= i < |t.steps| ==> !Blank(t.steps[i].name) && t.steps[i].order > 0)
    && (forall i, j :: 0 <= i < j < |t.steps| ==> t.steps[i].name != t.steps[j].name)
    && InOrder(t.steps)
  }

  predicate Interrupted(t: Snapshot) {
    t.status == InProgress || exists i :: 0 <= i < |t.steps| && t.steps[i].status == InProgress
  }

  /** A step that failed with a business exception that halts the steps after it. */
  predicate Halting(s: StepRow) {
    s.BusinessFailed() && s.exceptions[|s.exceptions| - 1].halts
  }

  predicate HaltedBy(s: StepRow, e: Entry, k: Key) {
    && Halting(s)
    && e.event == StepSkipped && e.step == Some(k)
    && s.order < k.order
    && s.exceptions[|s.exceptions| - 1].retryNumber == e.retryNumber
  }

  /** History proves that an earlier halting failure skipped the step `k`. */
  predicate HaltPropagated(t: Snapshot, k: Key) {
    exists i, m :: 0 <= i < |t.steps| && 0 <= m < |t.history| && HaltedBy(t.steps[i], t.history[m], k)
  }

  predicate PreservesSkip(t: Snapshot, s: StepRow, retryBusiness: bool) {
    && (if Interrupted(t) || LastEventIs(t, TransactionResumed) then s.status == Skipped
        else HaltPropagated(t, s.StepKey()))
    && !(retryBusiness && HaltPropagated(t, s.StepKey()))
  }

  function ResumedStatus(s: StepRow, preserveSkip: bool, retryBusiness: bool): Status {
    if s.status == Successful then Successful
    else if preserveSkip && s.status == Skipped then Skipped
    else if s.BusinessFailed() then (if retryBusiness then Pending else Failed)
    else Pending
  }

  function ResumedSteps(t: Snapshot, retryBusiness: bool): seq<StepRow> {
    seq(|t.steps|, i requires 0 <= i < |t.steps| =>
      t.steps[i].(status := ResumedStatus(t.steps[i], PreservesSkip(t, t.steps[i], retryBusiness), retryBusiness)))
  }

  /** The resumed transaction, once identity, wiring and step mapping are accepted. */
  function Resumed(t: Snapshot, retryBusiness: bool): Snapshot {
    var r := t.(steps := ResumedSteps(t, retryBusiness), status := Pending, retryCount := 0);
    if LastEventIs(t, TransactionResumed) then r else Append(r, TransactionResumed, None)
  }

  /** The first provided key that repeats an earlier one. */
  function FirstDuplicate(provided: seq<Key>, n: nat): Option<Key>
    requires n <= |provided|
    decreases |provided| - n
  {
    if n == |provided| then None
    else if provided[n] in provided[..n] then Some(provided[n])
    else FirstDuplicate(provided, n + 1)
  }

  function FirstMissing(steps: seq<StepRow>, provided: set<Key>, n: nat): Option<Key>
    requires n <= |steps|
    decreases |steps| - n
  {
    if n == |steps| then None
    else if steps[n].StepKey() !in provided then Some(steps[n].StepKey())
    else FirstMissing(steps, provided, n + 1)
  }

  function KeySet(keys: seq<Key>): set<Key> { set k | k in keys }

  /** `_prepare_resumed_transaction`, with the caller's steps given by their keys. */
  function Prepare(t: Snapshot, provided: seq<Key>, retryBusiness: bool, identity: Option<string>)
    : Result<Snapshot, ResumeError>
  {
    if t.status == Successful then Success(t)
    else if identity.None? || identity.value == "" then Failure(IdentityRequired)
    else if t.identity == "" then Failure(Unidentified)
    else if t.identity != identity.value then Failure(IdentityMismatch)
    else if !ValidForExecution(t) then Failure(InvalidWiring)
    else
      match FirstDuplicate(provided, 0)
      case Some(k) => Failure(DuplicateStep(k))
      case None =>
        match FirstMissing(t.steps, KeySet(provided), 0)
        case Some(k) => Failure(MissingStep(k))
        case None =>
          var extra := KeySet(provided) - KeySet(Keys(t.steps));
          if extra != {} then Failure(ExtraSteps(extra)) else Success(Resumed(t, retryBusiness))
  }

  lemma {:induction false} NoDuplicateMeans(provided: seq<Key>, n: nat)
    requires n <= |provided|
    ensures FirstDuplicate(provided, n).None? <==>
            forall i, j :: 0 <= i < j < |provided| && n <= j ==> provided[i] != provided[j]
    decreases |provided| - n
  {
    if n < |provided| {
      NoDuplicateMeans(provided, n + 1);
      if provided[n] in provided[..n] {
        var i :| 0 <= i < n && provided[..n][i] == provided[n];
        assert provided[i] == provided[n];
      }
    }
  }

  lemma {:induction false} NoneMissingMeans(steps: seq<StepRow>, provided: set<Key>, n: nat)
    requires n <= |steps|
    ensures FirstMissing(steps, provided, n).None? <==>
            forall i :: n <= i < |steps| ==> steps[i].StepKey() in provided
    decreases |steps| - n
  {
    if n < |steps| {
      NoneMissingMeans(steps, provided, n + 1);
    }
  }

  ghost predicate Distinct(s: seq<Key>) {
    forall i, j :: 0 <= i < j < |s| ==> s[i] != s[j]
  }

  lemma SameKeysOnce(provided: seq<Key>, keys: seq<Key>)
    requires Distinct(keys)
    ensures multiset(provided) == multiset(keys) <==>
            Distinct(provided) && KeySet(keys) == KeySet(provided)
  {
    DistinctMultiset(keys);
    if multiset(provided) == multiset(keys) {
      DistinctFromMultiset(provided);
      forall k ensures k in KeySet(provided) <==> k in KeySet(keys) {
        assert k in multiset(provided) <==> k in provided;
        assert k in multiset(keys) <==> k in keys;
      }
    } else if Distinct(provided) {
      DistinctMultiset(provided);
    }
  }

  lemma CoversExactly(t: Snapshot, provided: seq<Key>)
    ensures KeySet(Keys(t.steps)) == KeySet(provided) <==>
            FirstMissing(t.steps, KeySet(provided), 0).None? && KeySet(provided) - KeySet(Keys(t.steps)) == {}
  {
    NoneMissingMeans(t.steps, KeySet(provided), 0);
    var keys := Keys(t.steps);
    assert forall i :: 0 <= i < |t.steps| ==> t.steps[i].StepKey() == keys[i];
    if FirstMissing(t.steps, KeySet(provided), 0).None? && KeySet(provided) - KeySet(keys) == {} {
      forall k ensures k in KeySet(provided) <==> k in KeySet(keys) {
        if k in KeySet(keys) {
          var i :| 0 <= i < |keys| && keys[i] == k;
          assert t.steps[i].StepKey() == k;
        }
        assert k !in KeySet(provided) - KeySet(keys);
      }
    }
    if KeySet(keys) == KeySet(provided) {
      forall i | 0 <= i < |t.steps| ensures t.steps[i].StepKey() in KeySet(provided) {
        assert keys[i] in KeySet(keys);
      }
    }
  }

  /** A resume of unfinished work is accepted exactly when the identity matches and the
      caller's steps are the persisted ones, each once, in any order. */
  lemma PrepareAcceptsExactly(t: Snapshot, provided: seq<Key>, retryBusiness: bool, identity: Option<string>)
    requires t.status != Successful
    ensures Prepare(t, provided, retryBusiness, identity).Success? <==>
            && identity == Some(t.identity) && t.identity != ""
            && ValidForExecution(t)
            && multiset(provided) == multiset(Keys(t.steps))
    ensures Prepare(t, provided, retryBusiness, identity).Success? ==>
            Prepare(t, provided, retryBusiness, identity).value == Resumed(t, retryBusiness)
  {
    if ValidForExecution(t) {
      assert Distinct(Keys(t.steps));
      NoDuplicateMeans(provided, 0);
      assert FirstDuplicate(provided, 0).None? <==> Distinct(provided);
      CoversExactly(t, provided);
      SameKeysOnce(provided, Keys(t.steps));
    }
  }

  lemma {:induction false} DistinctMultiset(s: seq<Key>)
    requires forall i, j :: 0 <= i < j < |s| ==> s[i] != s[j]
    ensures multiset(s) == multiset(KeySet(s))
  {
    if s != [] {
      var n := |s| - 1;
      assert s == s[..n] + [s[n]];
      DistinctMultiset(s[..n]);
      assert KeySet(s) == KeySet(s[..n]) + {s[n]};
      assert s[n] !in KeySet(s[..n]);
    }
  }

  lemma {:induction false} DistinctFromMultiset(s: seq<Key>)
    requires forall k :: k in multiset(s) ==> multiset(s)[k] == 1
    ensures forall i, j :: 0 <= i < j < |s| ==> s[i] != s[j]
  {
    if s != [] {
      var n := |s| - 1;
      assert s == s[..n] + [s[n]];
      assert multiset(s) == multiset(s[..n]) + multiset{s[n]};
      assert multiset(s)[s[n]] == 1;
      assert s[n] !in multiset(s[..n]);
      forall k | k in multiset(s[..n]) ensures multiset(s[..n])[k] == 1 {
        assert k in multiset(s);
      }
      DistinctFromMultiset(s[..n]);
      forall i | 0 <= i < n ensures s[i] != s[n] {
        assert s[..n][i] in multiset(s[..n]);
      }
      forall i, j | 0 <= i < j < |s| ensures s[i] != s[j] {
        if j < n { assert s[..n][i] != s[..n][j]; }
      }
    }
  }
}
