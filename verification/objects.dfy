/** The mutable objects an engine works on: steps, the transaction that owns them, and the
    store its checkpoints go to. */
module Objects {
  import opened Options
  import opened Sorting
  import opened Texts
  import opened Records
  import opened RecoverySpec
  import opened EngineSpec

  class Step {
    const name: string
    const order: int
    var status: Status
    var exceptions: seq<Exc>

    constructor (name: string, order: int)
      ensures this.name == name && this.order == order && status == Pending && exceptions == []
    {
      this.name, this.order, this.status, this.exceptions := name, order, Pending, [];
    }

    function Row(): StepRow
      reads this
    {
      StepRow(name, order, status, exceptions)
    }

    function StepKey(): Key { Key(name, order) }

    /** The step's own code: the only status it may set is its own self-skip. */
    method Execute(e: Effect)
      modifies this`status
      ensures status == if e == SkipsItself then Skipped else old(status)
    {
      if e == SkipsItself {
        status := Skipped;
      }
    }
  }

  ghost predicate DistinctSteps(steps: seq<Step>) {
    forall i, j :: 0 <= i < j < |steps| ==> steps[i] != steps[j]
  }

  function Rows(steps: seq<Step>): seq<StepRow>
    reads steps
  {
    seq(|steps|, i requires 0 <= i < |steps| reads steps => steps[i].Row())
  }

  predicate Ascending(steps: seq<Step>) {
    forall i, j :: 0 <= i < j < |steps| ==> steps[i].order <= steps[j].order
  }

  function OrderOf(s: Step): int { s.order }

  function Insert(s: Step, sorted: seq<Step>): seq<Step> { InsertBy(OrderOf, s, sorted) }

  /** `sorted(steps, key=execution_order)`. */
  function Sorted(steps: seq<Step>): seq<Step> { SortBy(OrderOf, steps) }

  lemma {:induction false} InsertMembers(s: Step, sorted: seq<Step>)
    ensures multiset(Insert(s, sorted)) == multiset(sorted) + multiset{s}
    ensures forall x :: x in Insert(s, sorted) ==> x == s || x in sorted
  {
    if sorted != [] {
      var n := |sorted| - 1;
      assert sorted == sorted[..n] + [sorted[n]];
      if sorted[n].order > s.order {
        InsertMembers(s, sorted[..n]);
      }
    }
  }

  lemma {:induction false} InsertAscending(s: Step, sorted: seq<Step>)
    requires Ascending(sorted)
    ensures Ascending(Insert(s, sorted))
  {
    if sorted != [] {
      var n := |sorted| - 1;
      if sorted[n].order > s.order {
        var front := Insert(s, sorted[..n]);
        InsertAscending(s, sorted[..n]);
        InsertMembers(s, sorted[..n]);
        forall x | x in front ensures x.order <= sorted[n].order {
          if x != s {
            assert x in sorted[..n];
          }
        }
        assert Insert(s, sorted) == front + [sorted[n]];
      }
    }
  }

  lemma {:induction false} SortedKeeps(steps: seq<Step>)
    ensures Ascending(Sorted(steps)) && multiset(Sorted(steps)) == multiset(steps)
  {
    if steps != [] {
      assert steps == steps[..|steps| - 1] + [steps[|steps| - 1]];
      SortedKeeps(steps[..|steps| - 1]);
      InsertMembers(steps[|steps| - 1], Sorted(steps[..|steps| - 1]));
      InsertAscending(steps[|steps| - 1], Sorted(steps[..|steps| - 1]));
    }
  }

  lemma SameMembers(a: seq<Step>, b: seq<Step>)
    requires multiset(a) == multiset(b)
    ensures |a| == |b|
    ensures forall s :: s in a ==> s in b
  {
    assert |multiset(a)| == |a| && |multiset(b)| == |b|;
    forall s | s in a ensures s in b {
      assert s in multiset(a);
    }
  }

  lemma SortedMembers(steps: seq<Step>)
    ensures |Sorted(steps)| == |steps| && Ascending(Sorted(steps))
    ensures forall s :: s in Sorted(steps) ==> s in steps
    ensures forall s :: s in steps ==> s in Sorted(steps)
    ensures DistinctSteps(steps) ==> DistinctSteps(Sorted(steps))
  {
    SortedKeeps(steps);
    SameMembers(Sorted(steps), steps);
    SameMembers(steps, Sorted(steps));
    if DistinctSteps(steps) {
      forall s | s in multiset(steps) ensures multiset(steps)[s] == 1 { OnceIfDistinct(steps, s); }
      DistinctIfOnce(Sorted(steps));
    }
  }

  lemma {:induction false} OnceIfDistinct(steps: seq<Step>, s: Step)
    requires DistinctSteps(steps)
    ensures multiset(steps)[s] <= 1
  {
    if steps != [] {
      var n := |steps| - 1;
      assert steps == steps[..n] + [steps[n]];
      OnceIfDistinct(steps[..n], s);
      if s == steps[n] {
        assert s !in steps[..n];
        assert multiset(steps[..n])[s] == 0;
      }
    }
  }

  lemma {:induction false} DistinctIfOnce(steps: seq<Step>)
    requires forall s :: s in multiset(steps) ==> multiset(steps)[s] == 1
    ensures DistinctSteps(steps)
  {
    if steps != [] {
      var n := |steps| - 1;
      assert steps == steps[..n] + [steps[n]];
      assert multiset(steps) == multiset(steps[..n]) + multiset{steps[n]};
      assert multiset(steps)[steps[n]] == 1;
      forall s | s in multiset(steps[..n]) ensures multiset(steps[..n])[s] == 1 {
        assert s in multiset(steps);
      }
      DistinctIfOnce(steps[..n]);
      forall i | 0 <= i < n ensures steps[i] != steps[n] {
        assert steps[..n][i] in multiset(steps[..n]);
      }
      forall i, j | 0 <= i < j < |steps| ensures steps[i] != steps[j] {
        if j < n {
          assert steps[..n][i] != steps[..n][j];
        }
      }
    }
  }

  /** What `validate_for_execution` demands of the steps, in whatever order they are listed. */
  ghost predicate Wired(steps: seq<Step>) {
    && (forall i :: 0 <= i < |steps| ==> !Blank(steps[i].name) && steps[i].order > 0)
    && (forall i, j :: 0 <= i < j < |steps| ==> steps[i].name != steps[j].name && steps[i].order != steps[j].order)
  }

  lemma WiredPermutes(a: seq<Step>, b: seq<Step>)
    requires multiset(a) == multiset(b) && Wired(a)
    ensures Wired(b)
  {
    assert DistinctSteps(a);
    forall s | s in multiset(b) ensures multiset(b)[s] == 1 { OnceIfDistinct(a, s); }
    DistinctIfOnce(b);
    forall i | 0 <= i < |b| ensures b[i] in a {
      assert b[i] in multiset(a);
    }
  }

  lemma WiredRows(t: Snapshot, r: seq<Step>)
    requires t.steps == Rows(r) && Ascending(r)
    ensures ValidForExecution(t) <==> !Blank(t.reference) && Wired(r)
  {
    forall i: nat | i < |r| ensures t.steps[i].name == r[i].name && t.steps[i].order == r[i].order {
      assert Rows(r)[i] == r[i].Row();
    }
    if Wired(r) {
      forall i, j | 0 <= i < j < |r| ensures t.steps[i].order < t.steps[j].order {
        assert r[i].order <= r[j].order;
      }
    }
    if ValidForExecution(t) {
      forall i, j | 0 <= i < j < |r| ensures r[i].order != r[j].order {
        assert t.steps[i].order < t.steps[j].order;
      }
      forall i, j | 0 <= i < j < |r| ensures r[i].name != r[j].name {
        assert t.steps[i].name != t.steps[j].name;
      }
    }
  }

  /** The validator looks at the listed order, the specification at execution order. */
  lemma ValidMeansWired(t: Snapshot, steps: seq<Step>)
    requires t.steps == Rows(Sorted(steps))
    ensures ValidForExecution(t) <==> !Blank(t.reference) && Wired(steps)
  {
    SortedKeeps(steps);
    var r := Sorted(steps);
    WiredRows(t, r);
    if Wired(steps) { WiredPermutes(steps, r); }
    if Wired(r) { WiredPermutes(r, steps); }
  }

  lemma WiredNext(steps: seq<Step>, i: nat)
    requires i < |steps|
    ensures Wired(steps[..i + 1]) <==>
            && Wired(steps[..i]) && !Blank(steps[i].name) && steps[i].order > 0
            && forall j :: 0 <= j < i ==> steps[j].name != steps[i].name && steps[j].order != steps[i].order
  {
  }

  lemma WiredPrefix(steps: seq<Step>, i: nat)
    requires i <= |steps| && !Wired(steps[..i])
    ensures !Wired(steps)
  {
  }

  class Transaction {
    var reference: string
    var identity: string
    var status: Status
    var retryCount: nat
    var category: Category
    var disposition: Disposition
    var failureCode: string
    var steps: seq<Step>
    var history: seq<Entry>

    constructor (reference: string, identity: string, steps: seq<Step>)
      ensures this.reference == reference && this.identity == identity && this.steps == steps
      ensures status == Pending && retryCount == 0 && history == [] && failureCode == ""
      ensures category == UnknownOutcome && disposition == UnknownDisposition
    {
      this.reference, this.identity, this.steps := reference, identity, steps;
      this.status, this.retryCount, this.history := Pending, 0, [];
      this.category, this.disposition, this.failureCode := UnknownOutcome, UnknownDisposition, "";
    }

    /** The steps are different objects. */
    ghost predicate Valid()
      reads this
    {
      DistinctSteps(steps)
    }

    function OrderedSteps(): seq<Step>
      reads this`steps
    {
      Sorted(steps)
    }

    /** The transaction as a value, with its steps in the order given. */
    function ViewAs(ordered: seq<Step>): Snapshot
      reads this, ordered
    {
      Snapshot(reference, identity, status, retryCount, category, disposition, failureCode, Rows(ordered), history)
    }

    /** The snapshot a checkpoint writes. */
    function View(): Snapshot
      reads this, OrderedSteps()
    {
      ViewAs(OrderedSteps())
    }

    /** `validate_for_execution`: the first offending step ends the scan. */
    method Validate() returns (ok: bool)
      ensures ok == ValidForExecution(View()) && View() == old(View())
      ensures ok <==>
              && !Blank(reference)
              && (forall i :: 0 <= i < |steps| ==> !Blank(steps[i].name) && steps[i].order > 0)
              && forall i, j :: 0 <= i < j < |steps| ==> steps[i].name != steps[j].name && steps[i].order != steps[j].order
    {
      if Blank(reference) {
        return false;
      }
      var names, orders: set<int> := {}, {};
      for i := 0 to |steps|
        invariant Wired(steps[..i]) && View() == old(View())
        invariant names == set j | 0 <= j < i :: steps[j].name
        invariant orders == set j | 0 <= j < i :: steps[j].order
      {
        var step := steps[i];
        WiredNext(steps, i);
        if Blank(step.name) || step.name in names || step.order <= 0 || step.order in orders {
          WiredPrefix(steps, i + 1);
          ValidMeansWired(View(), steps);
          return false;
        }
        names, orders := names + {step.name}, orders + {step.order};
      }
      assert steps[..|steps|] == steps;
      ValidMeansWired(View(), steps);
      ok := true;
    }

    method AppendHistory(e: Event, step: Option<Key>)
      modifies this`history
      ensures history == old(history) + [Entry(|old(history)| + 1, e, status, retryCount, step)]
    {
      history := history + [Entry(|history| + 1, e, status, retryCount, step)];
    }
  }

  /** Durable storage behind a strict checkpoint. It accepts `room` more checkpoints and
      then fails, as a lost fence or a storage error would. */
  class CheckpointStore {
    var log: seq<Snapshot>
    var room: nat

    constructor (room: nat)
      ensures log == [] && this.room == room
    {
      log, this.room := [], room;
    }

    method Save(tx: Transaction) returns (ok: bool)
      modifies this
      ensures ok == (old(room) > 0)
      ensures ok ==> log == old(log) + [tx.View()] && room == old(room) - 1
      ensures !ok ==> log == old(log) && room == old(room)
    {
      ok := room > 0;
      if ok {
        log, room := log + [tx.View()], room - 1;
      }
    }
  }
}
