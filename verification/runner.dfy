/** The worker loop: claim, process, complete or fail, and count. */
module Runner {
  import opened Options
  import opened QueueSpec
  import opened QueueInvariants
  import opened QueueSteps
  import opened SqliteQueues

  /** How the processing of one claimed item ends, before its queue transition. */
  datatype Verdict = LeaseLost | Completes | Fails(retry: bool)

  class QueueRunSummary {
    var processed: nat
    var completed: nat
    var failed: nat
    var retryScheduled: nat
    var terminalFailed: nat
    var leaseLost: nat
    var transitionUnknown: nat

    constructor ()
      ensures Balanced() && processed == 0 && leaseLost == 0
    {
      processed, completed, failed := 0, 0, 0;
      retryScheduled, terminalFailed, leaseLost, transitionUnknown := 0, 0, 0, 0;
    }

    /** Every claim is counted once, and every failure by its disposition. */
    predicate Balanced()
      reads this
    {
      processed == completed + failed && failed == retryScheduled + terminalFailed + leaseLost + transitionUnknown
    }
  }

  // ---------- The ledger ----------

  datatype Counter = Processed | Completed | Retried | Ended | Unknown

  function Counted(s: QueueRunSummary, c: Counter): nat
    reads s
  {
    match c
    case Processed => s.processed
    case Completed => s.completed
    case Retried => s.retryScheduled
    case Ended => s.terminalFailed
    case Unknown => s.transitionUnknown
  }

  /** The counters an attempt closed with this outcome belongs to. A provider that attests its
      outcomes has its failures counted one by one, any other in one sum. */
  predicate BelongsTo(outcome: Option<Outcome>, c: Counter, attests: bool) {
    match c
    case Processed => false
    case Completed => outcome == Some(Succeeded)
    case Retried => attests && outcome == Some(RetryScheduled)
    case Ended => attests && outcome == Some(TerminalFailure)
    case Unknown => !attests && (outcome == Some(RetryScheduled) || outcome == Some(TerminalFailure))
  }

  /** What the attempt log says the counter should count. */
  function Logged(attempts: seq<Attempt>, c: Counter, attests: bool): nat {
    if attempts == [] then 0
    else
      var n := |attempts| - 1;
      Logged(attempts[..n], c, attests) + if c == Processed || BelongsTo(attempts[n].outcome, c, attests) then 1 else 0
  }

  /** What the summary counted beyond what the log records. */
  function Surplus(s: QueueRunSummary, attempts: seq<Attempt>, c: Counter, attests: bool): int
    reads s
  {
    Counted(s, c) - Logged(attempts, c, attests)
  }

  /** How many attempts were closed with this outcome. */
  function ClosedWith(attempts: seq<Attempt>, outcome: Outcome): nat {
    if attempts == [] then 0
    else
      var n := |attempts| - 1;
      ClosedWith(attempts[..n], outcome) + if attempts[n].outcome == Some(outcome) then 1 else 0
  }

  /** The log, counter by counter. */
  lemma {:induction false} LogMeans(attempts: seq<Attempt>, attests: bool)
    ensures Logged(attempts, Processed, attests) == |attempts|
    ensures Logged(attempts, Completed, attests) == ClosedWith(attempts, Succeeded)
    ensures Logged(attempts, Retried, attests) == if attests then ClosedWith(attempts, RetryScheduled) else 0
    ensures Logged(attempts, Ended, attests) == if attests then ClosedWith(attempts, TerminalFailure) else 0
    ensures Logged(attempts, Unknown, attests) ==
            if attests then 0 else ClosedWith(attempts, RetryScheduled) + ClosedWith(attempts, TerminalFailure)
  {
    if attempts != [] {
      LogMeans(attempts[..|attempts| - 1], attests);
    }
  }

  lemma {:induction false} LogsAgree(a: seq<Attempt>, b: seq<Attempt>, c: Counter, attests: bool)
    requires |a| == |b| && forall k :: 0 <= k < |a| ==> (BelongsTo(a[k].outcome, c, attests) <==> BelongsTo(b[k].outcome, c, attests))
    ensures Logged(a, c, attests) == Logged(b, c, attests)
  {
    if a != [] {
      LogsAgree(a[..|a| - 1], b[..|b| - 1], c, attests);
    }
  }

  /** Closing an attempt records its outcome. */
  lemma {:induction false} ClosingIsLogged(a: seq<Attempt>, b: seq<Attempt>, k: nat, c: Counter, attests: bool)
    requires |a| == |b| && k < |a| && a[k].outcome.None? && b == a[k := b[k]]
    ensures Logged(b, c, attests) == Logged(a, c, attests) + if BelongsTo(b[k].outcome, c, attests) then 1 else 0
  {
    var n := |a| - 1;
    if k == n {
      LogsAgree(a[..n], b[..n], c, attests);
    } else {
      ClosingIsLogged(a[..n], b[..n], k, c, attests);
    }
  }

  lemma {:induction false} OpeningIsLogged(a: seq<Attempt>, x: Attempt, c: Counter, attests: bool)
    requires x.outcome.None?
    ensures Logged(a + [x], c, attests) == Logged(a, c, attests) + if c == Processed then 1 else 0
  {
    assert (a + [x])[..|a|] == a;
  }

  lemma {:induction false} ExpiriesAreNotLogged(cfg: Config, db: Db, ops: seq<Op>, c: Counter, attests: bool)
    requires forall op :: op in ops ==> op.Expire?
    ensures Logged(RunOps(cfg, db, ops).attempts, c, attests) == Logged(db.attempts, c, attests)
    decreases |ops|
  {
    if ops != [] {
      var next := Apply(cfg, db, ops[0]);
      assert ops[0] in ops;
      LogsAgree(db.attempts, next.attempts, c, attests);
      ExpiriesAreNotLogged(cfg, next, ops[1..], c, attests);
    }
  }

  lemma {:induction false} QuarantinesKeepAttempts(cfg: Config, db: Db, ops: seq<Op>)
    requires forall op :: op in ops ==> op.Poison?
    ensures Rivals(cfg, db, ops).attempts == db.attempts
    decreases |ops|
  {
    if ops != [] {
      assert ops[0] in ops;
      QuarantinesKeepAttempts(cfg, Rival(cfg, db, ops[0]), ops[1..]);
    }
  }

  /** A lone worker's search changes nothing in the record. */
  lemma SearchIsNotLogged(cfg: Config, db: Db, expiries: seq<Op>, reclaimedAt: nat, lost: seq<seq<Op>>, c: Counter, attests: bool)
    requires Reclaimed(cfg, db, expiries, reclaimedAt)
    requires var looked := Looked(cfg, RunOps(cfg, db, expiries), [], lost); OwnRounds(looked, lost)
    ensures var looked := Looked(cfg, RunOps(cfg, db, expiries), [], lost);
            Logged(looked.attempts, c, attests) == Logged(db.attempts, c, attests)
  {
    var reclaimed := RunOps(cfg, db, expiries);
    ExpiriesAreNotLogged(cfg, db, expiries, c, attests);
    AloneOnlyQuarantines(Looked(cfg, reclaimed, [], lost), lost);
    QuarantinesKeepAttempts(cfg, reclaimed, Woven([], lost));
  }

  // ---------- The measure of the work left ----------

  /** A pending item is heavier than a claimed one, and a retry costs more than it adds. */
  function Weight(cfg: Config, it: Item): nat {
    var left := if it.retryCount <= cfg.maxRetries then cfg.maxRetries + 1 - it.retryCount else 0;
    if it.status == Pending then 2 * left + 1 else if it.status == InProgress then 2 * left else 0
  }

  function Burden(cfg: Config, items: map<nat, Item>, ids: seq<nat>): nat {
    if ids == [] then 0
    else
      var last := ids[|ids| - 1];
      Burden(cfg, items, ids[..|ids| - 1]) + if last in items then Weight(cfg, items[last]) else 0
  }

  /** `ids` names the items, each once. */
  ghost predicate Covers(items: map<nat, Item>, ids: seq<nat>) {
    && (forall id :: id in items ==> id in ids)
    && forall i, j :: 0 <= i < j < |ids| ==> ids[i] != ids[j]
  }

  lemma {:induction false} BurdenShrinks(cfg: Config, a: map<nat, Item>, b: map<nat, Item>, ids: seq<nat>)
    requires a.Keys == b.Keys && forall id :: id in a ==> Weight(cfg, b[id]) <= Weight(cfg, a[id])
    ensures Burden(cfg, b, ids) <= Burden(cfg, a, ids)
    ensures (exists id :: id in ids && id in a && Weight(cfg, b[id]) < Weight(cfg, a[id])) ==> Burden(cfg, b, ids) < Burden(cfg, a, ids)
  {
    if ids != [] {
      var n := |ids| - 1;
      BurdenShrinks(cfg, a, b, ids[..n]);
      assert forall id :: id in ids ==> id == ids[n] || id in ids[..n];
    }
  }

  // ---------- One claimed item ----------

  /** What processing does to its own item: it ends, or waits for a retry that is left. */
  ghost predicate Resolved(cfg: Config, a: Item, b: Item) {
    b.status == Successful || b.status == Failed ||
    (b.status == Pending && b.retryCount == a.retryCount + 1 && b.retryCount <= cfg.maxRetries
     && (Undelayed(cfg) ==> b.availableAt.None?))
  }

  /** A zero retry delay: a retried item is due at once. */
  ghost predicate Undelayed(cfg: Config) {
    forall now: nat, n: nat :: cfg.due(now, n).None?
  }

  ghost predicate OneResolved(cfg: Config, a: map<nat, Item>, b: map<nat, Item>, id: nat) {
    && id in a && b.Keys == a.Keys && Resolved(cfg, a[id], b[id])
    && forall other :: other in a && other != id ==> b[other] == a[other]
  }

  /** The queue write a verdict asks for. */
  function VerdictOp(items: map<nat, Item>, id: nat, worker: string, verdict: Verdict, now: nat): Op
    requires id in items && !verdict.LeaseLost?
  {
    if verdict.Completes? then Complete(id, worker, items[id].token, now)
    else Fail(id, worker, items[id].token, items[id].retryCount, verdict.retry, now)
  }

  /** How the attempt behind a settled item was closed. */
  function VerdictOutcome(verdict: Verdict, after: Item): Outcome
    requires !verdict.LeaseLost?
  {
    if verdict.Completes? then Succeeded else if after.status == Pending then RetryScheduled else TerminalFailure
  }

  lemma SettlingIsLogged(cfg: Config, db: Db, id: nat, worker: string, verdict: Verdict, now: nat, c: Counter, attests: bool)
    requires Inv(cfg, db) && id in db.items && Holds(db.items[id], worker, db.items[id].token) && !verdict.LeaseLost?
    ensures var after := Apply(cfg, db, VerdictOp(db.items, id, worker, verdict, now));
            && id in after.items
            && Logged(after.attempts, c, attests) == Logged(db.attempts, c, attests) +
                 if BelongsTo(Some(VerdictOutcome(verdict, after.items[id])), c, attests) then 1 else 0
  {
    var op := VerdictOp(db.items, id, worker, verdict, now);
    var change := Effect(cfg, db.items[id], op).value;
    var k := ClosesOne(db, id, change.closes.value, now);
    ClosingIsLogged(db.attempts, Apply(cfg, db, op).attempts, k, c, attests);
  }

  lemma HolderCompletes(cfg: Config, db: Db, id: nat, worker: string, token: nat, now: nat)
    requires id in db.items && Holds(db.items[id], worker, token)
    ensures var op := Complete(id, worker, token, now);
            && Accepts(cfg, db, op) && OneResolved(cfg, db.items, Apply(cfg, db, op).items, id)
            && Apply(cfg, db, op).items[id].status == Successful
  {
  }

  lemma HolderFails(cfg: Config, db: Db, id: nat, worker: string, token: nat, retry: bool, now: nat)
    requires id in db.items && Holds(db.items[id], worker, token)
    ensures var op := Fail(id, worker, token, db.items[id].retryCount, retry, now);
            && Accepts(cfg, db, op) && OneResolved(cfg, db.items, Apply(cfg, db, op).items, id)
            && Apply(cfg, db, op).items[id].retryCount == db.items[id].retryCount + 1
  {
  }

  /** The row the verdict leaves, and the outcome its attempt is closed with. */
  ghost predicate SettledRow(cfg: Config, a: Item, b: Item, worker: string, verdict: Verdict, outcome: Outcome, now: nat)
    requires !verdict.LeaseLost?
  {
    if verdict.Completes? then
      outcome == Succeeded && b == a.(status := Successful, claimedAt := None, token := 0, availableAt := None)
    else
      && FailedRow(cfg, a, b, worker, a.retryCount, verdict.retry, now)
      && outcome == if verdict.retry && a.retryCount + 1 <= cfg.maxRetries then RetryScheduled else TerminalFailure
  }

  /** The item is settled as the verdict says, and the log has it. */
  ghost predicate SettledAs(cfg: Config, db: Db, after: Db, id: nat, worker: string, verdict: Verdict, outcome: Outcome, now: nat)
    requires id in db.items && !verdict.LeaseLost?
  {
    && after == Apply(cfg, db, VerdictOp(db.items, id, worker, verdict, now))
    && OneResolved(cfg, db.items, after.items, id)
    && SettledRow(cfg, db.items[id], after.items[id], worker, verdict, outcome, now)
  }

  /** The queue transition a verdict asks for, with its outcome. */
  method Transition(queue: SqliteQueue, clock: Clock, id: nat, worker: string, verdict: Verdict, ghost attests: bool)
    returns (outcome: Outcome)
    requires queue.Valid() && id in queue.items && Holds(queue.items[id], worker, queue.items[id].token)
    requires !verdict.LeaseLost?
    modifies queue, clock
    ensures queue.Valid() && clock.time >= old(clock.time)
    ensures SettledAs(queue.cfg, old(queue.State()), queue.State(), id, worker, verdict, outcome, clock.time)
    ensures forall c :: Logged(queue.attempts, c, attests) ==
                        Logged(old(queue.attempts), c, attests) + if BelongsTo(Some(outcome), c, attests) then 1 else 0
    ensures verdict.Completes? <==> outcome == Succeeded
  {
    var token := queue.items[id].token;
    var now := clock.Now();
    ghost var db := queue.State();
    ghost var op := VerdictOp(db.items, id, worker, verdict, now);
    ApplyKeepsInv(queue.cfg, db, op);
    ghost var after := Apply(queue.cfg, db, op);
    forall c ensures Logged(after.attempts, c, attests) == Logged(db.attempts, c, attests) +
                       if BelongsTo(Some(VerdictOutcome(verdict, after.items[id])), c, attests) then 1 else 0
    {
      SettlingIsLogged(queue.cfg, db, id, worker, verdict, now, c, attests);
    }
    if verdict.Completes? {
      HolderCompletes(queue.cfg, db, id, worker, token, now);
      var ok := queue.CompleteItem(id, worker, token, now);
      outcome := Succeeded;
    } else {
      HolderFails(queue.cfg, db, id, worker, token, verdict.retry, now);
      var reported := queue.FailItem(id, worker, token, verdict.retry, [], now);
      outcome := reported.value;
    }
  }

  /** A settled item is counted by its outcome. A provider that does not attest what `fail`
      did leaves the disposition unknown. */
  method CountOutcome(outcome: Outcome, attests: bool, s: QueueRunSummary)
    requires s.processed == s.completed + s.failed + 1 && outcome in {Succeeded, RetryScheduled, TerminalFailure}
    requires s.failed == s.retryScheduled + s.terminalFailed + s.leaseLost + s.transitionUnknown
    modifies s
    ensures s.Balanced() && s.leaseLost == old(s.leaseLost) && s.processed == old(s.processed)
    ensures s.completed == old(s.completed) + if outcome == Succeeded then 1 else 0
    ensures s.retryScheduled == old(s.retryScheduled) + if attests && outcome == RetryScheduled then 1 else 0
    ensures s.terminalFailed == old(s.terminalFailed) + if attests && outcome == TerminalFailure then 1 else 0
    ensures s.transitionUnknown == old(s.transitionUnknown) + if !attests && outcome != Succeeded then 1 else 0
    ensures forall c :: Counted(s, c) == old(Counted(s, c)) + if BelongsTo(Some(outcome), c, attests) then 1 else 0
  {
    if outcome == Succeeded {
      s.completed := s.completed + 1;
      return;
    }
    s.failed := s.failed + 1;
    if !attests {
      s.transitionUnknown := s.transitionUnknown + 1;
    } else if outcome == RetryScheduled {
      s.retryScheduled := s.retryScheduled + 1;
    } else {
      s.terminalFailed := s.terminalFailed + 1;
    }
  }

  /** One claimed item: its transition and its counting; none when the lease was lost, which
      ends the loop. The counters and the attempt log grow alike. */
  method ProcessClaimed(queue: SqliteQueue, clock: Clock, id: nat, worker: string, verdict: Verdict, attests: bool, s: QueueRunSummary)
    returns (outcome: Option<Outcome>)
    requires queue.Valid() && id in queue.items && Holds(queue.items[id], worker, queue.items[id].token)
    requires s.processed == s.completed + s.failed + 1
    requires s.failed == s.retryScheduled + s.terminalFailed + s.leaseLost + s.transitionUnknown
    modifies queue, clock, s
    ensures queue.Valid() && clock.time >= old(clock.time) && s.Balanced()
    ensures outcome.None? == verdict.LeaseLost? && s.leaseLost == old(s.leaseLost) + if outcome.None? then 1 else 0
    ensures if outcome.None? then queue.State() == old(queue.State())
            else SettledAs(queue.cfg, old(queue.State()), queue.State(), id, worker, verdict, outcome.value, clock.time)
    ensures s.processed == old(s.processed)
    ensures s.completed == old(s.completed) + if outcome == Some(Succeeded) then 1 else 0
    ensures s.retryScheduled == old(s.retryScheduled) + if attests && outcome == Some(RetryScheduled) then 1 else 0
    ensures s.terminalFailed == old(s.terminalFailed) + if attests && outcome == Some(TerminalFailure) then 1 else 0
    ensures s.transitionUnknown == old(s.transitionUnknown) + if !attests && outcome.Some? && outcome != Some(Succeeded) then 1 else 0
    ensures forall c :: Surplus(s, queue.attempts, c, attests) == old(Surplus(s, queue.attempts, c, attests))
  {
    if verdict.LeaseLost? {
      s.failed, s.leaseLost := s.failed + 1, s.leaseLost + 1;
      return None;
    }
    var closed := Transition(queue, clock, id, worker, verdict, attests);
    CountOutcome(closed, attests, s);
    outcome := Some(closed);
  }

  // ---------- The loop ----------

  lemma DriftIsNoHeavier(cfg: Config, a: Db, before: map<nat, Item>, ids: seq<nat>)
    requires Inv(cfg, a) && AllDrifted(cfg, a.items, before)
    ensures Burden(cfg, before, ids) <= Burden(cfg, a.items, ids)
  {
  }

  /** The row of a pending item became a claimed one. */
  ghost predicate Leased(cfg: Config, before: map<nat, Item>, claimed: map<nat, Item>, id: nat) {
    && id in before && claimed.Keys == before.Keys && before[id].status == Pending && before[id].retryCount <= cfg.maxRetries
    && claimed[id].status == InProgress && claimed[id].retryCount == before[id].retryCount
    && forall other :: other in before && other != id ==> claimed[other] == before[other]
  }

  lemma ResolvedIsLighter(cfg: Config, before: map<nat, Item>, claimed: map<nat, Item>, after: map<nat, Item>, id: nat, ids: seq<nat>)
    requires Leased(cfg, before, claimed, id) && OneResolved(cfg, claimed, after, id) && id in ids
    ensures Burden(cfg, after, ids) < Burden(cfg, before, ids)
  {
    assert Weight(cfg, after[id]) < Weight(cfg, before[id]);
    BurdenShrinks(cfg, before, after, ids);
  }

  lemma ClaimLeases(cfg: Config, db: Db, before: Db, leased: Db, id: nat, worker: string, now: nat)
    requires Inv(cfg, db) && AllDrifted(cfg, db.items, before.items) && HandedOut(before, leased, id, worker, now)
    ensures Leased(cfg, before.items, leased.items, id) && Holds(leased.items[id], worker, leased.items[id].token)
  {
  }

  /** One delivery and its resolution make the queue lighter. */
  lemma DeliveryIsLighter(cfg: Config, db: Db, before: map<nat, Item>, leased: map<nat, Item>, after: map<nat, Item>, id: nat, ids: seq<nat>)
    requires Inv(cfg, db) && AllDrifted(cfg, db.items, before) && Leased(cfg, before, leased, id)
    requires OneResolved(cfg, leased, after, id) && Covers(db.items, ids)
    ensures Burden(cfg, after, ids) < Burden(cfg, db.items, ids)
  {
    DriftIsNoHeavier(cfg, db, before, ids);
    ResolvedIsLighter(cfg, before, leased, after, id, ids);
  }

  /** Nothing is in progress and everything pending is due. */
  ghost predicate Idle(items: map<nat, Item>, now: nat) {
    forall id :: id in items ==>
      && items[id].status != InProgress
      && (items[id].status == Pending ==> items[id].availableAt.None? || items[id].availableAt.value <= now)
  }

  lemma IdleDrifts(cfg: Config, a: map<nat, Item>, b: map<nat, Item>, from: nat, to: nat)
    requires Idle(a, from) && AllDrifted(cfg, a, b) && from <= to
    ensures Idle(b, to)
  {
  }

  lemma IdleAgain(cfg: Config, before: map<nat, Item>, claimed: map<nat, Item>, after: map<nat, Item>, id: nat, from: nat, to: nat)
    requires Idle(before, from) && from <= to && Undelayed(cfg)
    requires Leased(cfg, before, claimed, id) && OneResolved(cfg, claimed, after, id)
    ensures Idle(after, to)
  {
  }

  lemma NothingEligible(cfg: Config, db: Db, after: map<nat, Item>, from: nat, lookedAt: nat)
    requires Idle(db.items, from) && AllDrifted(cfg, db.items, after) && from <= lookedAt
    requires NothingDue(after, lookedAt)
    ensures Drained(after)
  {
  }

  /** A lone worker's search: `before` is what it met when it stopped looking. */
  ghost predicate FoundBy(cfg: Config, items: map<nat, Item>, before: map<nat, Item>, after: map<nat, Item>,
                          claimed: Option<nat>, lookedAt: nat, worker: string) {
    && AllDrifted(cfg, items, before)
    && match claimed
       case None => after == before && NothingDue(after, lookedAt)
       case Some(id) => Leased(cfg, before, after, id) && Holds(after[id], worker, after[id].token)
  }

  lemma SearchFinds(cfg: Config, db: Db, after: Db, expiries: seq<Op>, reclaimedAt: nat, lost: seq<seq<Op>>, lookedAt: nat,
                    claimed: Option<nat>, worker: string, now: nat, attests: bool) returns (before: map<nat, Item>)
    requires Inv(cfg, db) && Reclaimed(cfg, db, expiries, reclaimedAt)
    requires SearchEnds(cfg, RunOps(cfg, db, expiries), after, [], lost, lookedAt, claimed, worker, now)
    ensures FoundBy(cfg, db.items, before, after.items, claimed, lookedAt, worker)
    ensures forall c :: Logged(after.attempts, c, attests) ==
                        Logged(db.attempts, c, attests) + if claimed.Some? && c == Processed then 1 else 0
  {
    var reclaimed := RunOps(cfg, db, expiries);
    var looked := Looked(cfg, reclaimed, [], lost);
    assert Met(cfg, reclaimed, [], lost) == looked;
    before := looked.items;
    DriftsAgain(cfg, db.items, reclaimed.items, before, reclaimedAt);
    if claimed.Some? {
      ClaimLeases(cfg, db, looked, after, claimed.value, worker, now);
    }
    forall c
      ensures Logged(after.attempts, c, attests) == Logged(db.attempts, c, attests) + if claimed.Some? && c == Processed then 1 else 0
    {
      SearchIsNotLogged(cfg, db, expiries, reclaimedAt, lost, c, attests);
      if claimed.Some? { OpeningIsLogged(looked.attempts, after.attempts[|looked.attempts|], c, attests); }
    }
  }

  ghost predicate Drained(items: map<nat, Item>) {
    forall id :: id in items ==> items[id].status == Successful || items[id].status == Failed
  }

  /** `next_item` without rivals. */
  method Search(queue: SqliteQueue, clock: Clock, worker: string, ghost attests: bool, ghost s: QueueRunSummary)
    returns (claimed: Option<nat>, ghost before: map<nat, Item>, ghost lookedAt: nat)
    requires queue.Valid()
    modifies queue, clock
    ensures queue.Valid() && old(clock.time) <= lookedAt <= clock.time
    ensures FoundBy(queue.cfg, old(queue.items), before, queue.items, claimed, lookedAt, worker)
    ensures forall c :: Surplus(s, queue.attempts, c, attests) ==
                        old(Surplus(s, queue.attempts, c, attests)) - if claimed.Some? && c == Processed then 1 else 0
  {
    ghost var expiries, reclaimedAt, lost;
    claimed, expiries, reclaimedAt, lost, lookedAt := queue.NextItem(worker, clock, []);
    before := SearchFinds(queue.cfg, old(queue.State()), queue.State(), expiries, reclaimedAt, lost, lookedAt, claimed, worker,
                          clock.time, attests);
  }

  /** A settled delivery is progress: less is left, and an idle queue stays idle. */
  lemma DeliveryAdvances(cfg: Config, db: Db, before: map<nat, Item>, leased: map<nat, Item>, after: map<nat, Item>, id: nat,
                         from: nat, lookedAt: nat, to: nat, ids: seq<nat>)
    requires Inv(cfg, db) && AllDrifted(cfg, db.items, before) && Leased(cfg, before, leased, id) && Covers(db.items, ids)
    requires OneResolved(cfg, leased, after, id) && from <= lookedAt <= to
    ensures after.Keys == db.items.Keys && Burden(cfg, after, ids) < Burden(cfg, db.items, ids)
    ensures Undelayed(cfg) && Idle(db.items, from) ==> Idle(after, to)
  {
    DeliveryIsLighter(cfg, db, before, leased, after, id, ids);
    if Undelayed(cfg) && Idle(db.items, from) {
      IdleDrifts(cfg, db.items, before, from, lookedAt);
      IdleAgain(cfg, before, leased, after, id, lookedAt, to);
    }
  }

  /** An item handed out is counted as processed, and then processed. */
  method Serve(queue: SqliteQueue, clock: Clock, id: nat, worker: string, verdict: Verdict, attests: bool, s: QueueRunSummary)
    returns (outcome: Option<Outcome>)
    requires queue.Valid() && id in queue.items && Holds(queue.items[id], worker, queue.items[id].token) && s.Balanced()
    modifies queue, clock, s
    ensures queue.Valid() && clock.time >= old(clock.time) && s.Balanced()
    ensures outcome.None? == verdict.LeaseLost? && s.leaseLost == old(s.leaseLost) + if outcome.None? then 1 else 0
    ensures if outcome.Some? then OneResolved(queue.cfg, old(queue.items), queue.items, id) else queue.items == old(queue.items)
    ensures forall c :: Surplus(s, queue.attempts, c, attests) ==
                        old(Surplus(s, queue.attempts, c, attests)) + if c == Processed then 1 else 0
  {
    s.processed := s.processed + 1;
    outcome := ProcessClaimed(queue, clock, id, worker, verdict, attests, s);
  }

  /** One delivery of the loop: whether there was one, and whether to go on. */
  method DeliverOne(queue: SqliteQueue, clock: Clock, worker: string, judge: (nat, nat) -> Verdict, attests: bool, s: QueueRunSummary,
                    ghost ids: seq<nat>)
    returns (found: bool, goOn: bool)
    requires queue.Valid() && s.Balanced() && Covers(queue.items, ids)
    modifies queue, clock, s
    ensures queue.Valid() && s.Balanced() && queue.items.Keys == old(queue.items).Keys
    ensures forall c :: Surplus(s, queue.attempts, c, attests) == old(Surplus(s, queue.attempts, c, attests))
    ensures (found ==> s.leaseLost == old(s.leaseLost) + if goOn then 0 else 1) && (!found ==> !goOn && s.leaseLost == old(s.leaseLost))
    ensures found && !goOn ==> exists id, n :: judge(id, n).LeaseLost?
    ensures goOn ==> Burden(queue.cfg, queue.items, ids) < old(Burden(queue.cfg, queue.items, ids))
    ensures Undelayed(queue.cfg) && old(Idle(queue.items, clock.time)) ==>
              if !found then Drained(queue.items) else goOn ==> Idle(queue.items, clock.time)
  {
    ghost var db, from := queue.State(), clock.time;
    ghost var before, lookedAt;
    var claimed;
    claimed, before, lookedAt := Search(queue, clock, worker, attests, s);
    if claimed.None? {
      if Idle(db.items, from) { NothingEligible(queue.cfg, db, queue.items, from, lookedAt); }
      return false, false;
    }
    var id := claimed.value;
    ghost var leased := queue.items;
    var outcome := Serve(queue, clock, id, worker, judge(id, |queue.attempts|), attests, s);
    found, goOn := true, outcome.Some?;
    if goOn {
      DeliveryAdvances(queue.cfg, db, before, leased, queue.items, id, from, lookedAt, clock.time, ids);
    }
  }

  /** The summary grew with the log: items with attempts, and each disposition with the attempts
      closed that way, as far as the provider attests it. */
  ghost predicate GrewAlike(processed: int, completed: int, retried: int, ended: int, unknown: int,
                            before: seq<Attempt>, after: seq<Attempt>, attests: bool) {
    var again := ClosedWith(after, RetryScheduled) - ClosedWith(before, RetryScheduled);
    var failed := ClosedWith(after, TerminalFailure) - ClosedWith(before, TerminalFailure);
    && processed == |after| - |before|
    && completed == ClosedWith(after, Succeeded) - ClosedWith(before, Succeeded)
    && retried == (if attests then again else 0) && ended == (if attests then failed else 0)
    && unknown == if attests then 0 else again + failed
  }

  /** The loop itself. */
  method DeliverAll(queue: SqliteQueue, clock: Clock, worker: string, judge: (nat, nat) -> Verdict, attests: bool, s: QueueRunSummary,
                    ghost ids: seq<nat>)
    requires queue.Valid() && s.Balanced() && s.leaseLost == 0 && Covers(queue.items, ids)
    modifies queue, clock, s
    ensures queue.Valid() && s.Balanced() && s.leaseLost <= 1
    ensures forall c :: Surplus(s, queue.attempts, c, attests) == old(Surplus(s, queue.attempts, c, attests))
    ensures s.leaseLost == 1 ==> exists id, n :: judge(id, n).LeaseLost?
    ensures s.leaseLost == 0 && Undelayed(queue.cfg) && old(Idle(queue.items, clock.time)) ==> Drained(queue.items)
  {
    ghost var idle := Undelayed(queue.cfg) && Idle(queue.items, clock.time);
    while true
      invariant queue.Valid() && s.Balanced() && s.leaseLost == 0 && Covers(queue.items, ids)
      invariant forall c :: Surplus(s, queue.attempts, c, attests) == old(Surplus(s, queue.attempts, c, attests))
      invariant idle ==> Idle(queue.items, clock.time)
      decreases Burden(queue.cfg, queue.items, ids)
    {
      var found, goOn := DeliverOne(queue, clock, worker, judge, attests, s, ids);
      if !goOn {
        return;
      }
    }
  }

  /** `_run_items` for a lone worker on a fixed set of items, whatever each delivery's verdict:
      it ends, its counters grow exactly with the attempt log, it meets at most one lease loss,
      and without one and without retry delay it leaves every item successful or failed. */
  method RunItems(queue: SqliteQueue, clock: Clock, worker: string, judge: (nat, nat) -> Verdict, attests: bool, s: QueueRunSummary,
                  ghost ids: seq<nat>)
    requires queue.Valid() && s.Balanced() && s.leaseLost == 0 && Covers(queue.items, ids)
    modifies queue, clock, s
    ensures queue.Valid() && s.Balanced() && s.leaseLost <= 1
    ensures GrewAlike(s.processed - old(s.processed), s.completed - old(s.completed), s.retryScheduled - old(s.retryScheduled),
                      s.terminalFailed - old(s.terminalFailed), s.transitionUnknown - old(s.transitionUnknown),
                      old(queue.attempts), queue.attempts, attests)
    ensures s.leaseLost == 1 ==> exists id, n :: judge(id, n).LeaseLost?
    ensures s.leaseLost == 0 && Undelayed(queue.cfg) && old(Idle(queue.items, clock.time)) ==> Drained(queue.items)
  {
    LogMeans(queue.attempts, attests);
    DeliverAll(queue, clock, worker, judge, attests, s, ids);
    LogMeans(queue.attempts, attests);
    assert Surplus(s, queue.attempts, Processed, attests) == old(Surplus(s, queue.attempts, Processed, attests));
    assert Surplus(s, queue.attempts, Completed, attests) == old(Surplus(s, queue.attempts, Completed, attests));
    assert Surplus(s, queue.attempts, Retried, attests) == old(Surplus(s, queue.attempts, Retried, attests));
    assert Surplus(s, queue.attempts, Ended, attests) == old(Surplus(s, queue.attempts, Ended, attests));
    assert Surplus(s, queue.attempts, Unknown, attests) == old(Surplus(s, queue.attempts, Unknown, attests));
  }
}
