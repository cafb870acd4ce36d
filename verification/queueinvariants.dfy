/** What every reachable queue database satisfies: the attempt/lease bijection, bounded
    delivery and retry conservation. */
module QueueInvariants {
  import opened Options
  import opened QueueSpec

  // ---------- The invariant ----------

  predicate IsOpen(a: Attempt, id: nat) { a.item == id && a.outcome.None? }

  function Count(attempts: seq<Attempt>, id: nat): nat {
    if attempts == [] then 0
    else Count(attempts[..|attempts| - 1], id) + if attempts[|attempts| - 1].item == id then 1 else 0
  }

  /** Attempts closed by an outcome that costs a retry. */
  predicate CostsRetry(a: Attempt, id: nat) {
    a.item == id && a.outcome.Some? &&
    (a.outcome.value == RetryScheduled || a.outcome.value == TerminalFailure || a.outcome.value == LeaseExpired)
  }

  function RetriesSpent(attempts: seq<Attempt>, id: nat): nat {
    if attempts == [] then 0
    else RetriesSpent(attempts[..|attempts| - 1], id) + if CostsRetry(attempts[|attempts| - 1], id) then 1 else 0
  }

  function ForcedFailures(admin: seq<AdminEvent>, id: nat): nat {
    if admin == [] then 0
    else
      var e := admin[|admin| - 1];
      ForcedFailures(admin[..|admin| - 1], id) + if e.item == id && !e.completes then 1 else 0
  }

  /** In progress, token, claim time and open attempt go together; the open attempt is unique,
      carries the token, and is the item's newest. */
  ghost predicate LeaseOk(db: Db, id: nat)
    requires id in db.items
  {
    var it := db.items[id];
    && (it.status == InProgress <==> it.token != 0)
    && (it.status == InProgress <==> it.claimedAt.Some?)
    && (it.availableAt.Some? ==> it.status == Pending)
    && (it.status == InProgress ==>
          exists k :: 0 <= k < |db.attempts| && IsOpen(db.attempts[k], id))
    && (forall k :: 0 <= k < |db.attempts| && IsOpen(db.attempts[k], id) ==>
          db.attempts[k].token == it.token && it.status == InProgress && db.attempts[k].claimedBy == it.claimedBy)
  }

  ghost predicate RetriesOk(cfg: Config, db: Db, id: nat)
    requires id in db.items
  {
    var it := db.items[id];
    && (it.status == Pending || it.status == InProgress ==> it.retryCount <= cfg.maxRetries)
    && Count(db.attempts, id) <= it.retryCount + (if it.status == Pending then 0 else 1)
    && Count(db.attempts, id) <= cfg.maxRetries + 1
    && it.retryCount == RetriesSpent(db.attempts, id) + ForcedFailures(db.admin, id)
  }

  ghost predicate TokensDistinct(attempts: seq<Attempt>) {
    forall j, k :: 0 <= j < k < |attempts| ==> attempts[j].token != attempts[k].token
  }

  /** Only an item's newest attempt can be open. */
  ghost predicate OlderClosed(attempts: seq<Attempt>) {
    forall j, k :: 0 <= j < k < |attempts| && attempts[j].item == attempts[k].item ==> attempts[j].outcome.Some?
  }

  /** Attempts and override records belong to known items. */
  ghost predicate Owned(db: Db) {
    && (forall k :: 0 <= k < |db.attempts| ==> db.attempts[k].item in db.items && db.attempts[k].token != 0)
    && (forall k :: 0 <= k < |db.admin| ==> db.admin[k].item in db.items)
  }

  ghost predicate Inv(cfg: Config, db: Db) {
    && TokensDistinct(db.attempts)
    && OlderClosed(db.attempts)
    && Owned(db)
    && forall id :: id in db.items ==> LeaseOk(db, id) && RetriesOk(cfg, db, id)
  }

  // ---------- What an effect may do to a row ----------

  /** The shape every accepted change has; the invariant needs no more. */
  predicate Shape(cfg: Config, it: Item, op: Op, c: Change) {
    && c.item.payload == it.payload && c.item.reference == it.reference && c.item.createdAt == it.createdAt
    && (c.closes.Some? <==> it.token != 0 && c.item.token == 0)
    && (c.opens <==> it.token == 0 && c.item.token != 0)
    && (!c.opens && c.closes.None? ==> c.item.token == it.token && (it.token != 0 ==> c.item.claimedBy == it.claimedBy))
    && (c.item.status == InProgress <==> c.item.token != 0)
    && (c.item.status == InProgress <==> c.item.claimedAt.Some?)
    && (c.item.availableAt.Some? ==> c.item.status == Pending)
    && (c.opens ==> it.status == Pending && op.Claim? && c.item.token == op.token)
    && c.item.retryCount == it.retryCount +
         (if (c.closes.Some? && c.closes.value in {RetryScheduled, TerminalFailure, LeaseExpired})
             || (c.admin.Some? && !c.admin.value.completes) then 1 else 0)
    && (c.closes.Some? && c.admin.Some? ==> c.closes.value == AdminOverride)
    && (c.admin.Some? ==> c.admin.value.item == op.id && c.item.token == 0)
    && (c.item.status == Pending ==> c.item.retryCount > it.retryCount || it.status == Pending)
    && (c.item.status == Pending || c.item.status == InProgress ==>
          c.item.retryCount <= cfg.maxRetries || (it.status in {Pending, InProgress} && c.item.retryCount == it.retryCount))
  }

  /** A failure is only written with the count that is current. */
  predicate CountIsCurrent(it: Item, op: Op) {
    op.Fail? && Holds(it, op.worker, op.token) ==> op.seenCount == it.retryCount
  }

  lemma EffectShape(cfg: Config, it: Item, op: Op)
    requires Effect(cfg, it, op).Some? && CountIsCurrent(it, op)
    requires it.status == InProgress <==> it.token != 0
    requires it.status == InProgress <==> it.claimedAt.Some?
    requires it.availableAt.Some? ==> it.status == Pending
    ensures Shape(cfg, it, op, Effect(cfg, it, op).value)
  {
  }

  // ---------- Counting under the three kinds of change ----------

  lemma {:induction false} CountSame(a: seq<Attempt>, b: seq<Attempt>, id: nat)
    requires |a| == |b| && forall k :: 0 <= k < |a| ==> a[k].item == b[k].item
    ensures Count(a, id) == Count(b, id)
  {
    if a != [] {
      CountSame(a[..|a| - 1], b[..|b| - 1], id);
    }
  }

  lemma {:induction false} SpentSame(a: seq<Attempt>, b: seq<Attempt>, id: nat)
    requires |a| == |b| && forall k :: 0 <= k < |a| ==> (CostsRetry(a[k], id) <==> CostsRetry(b[k], id))
    ensures RetriesSpent(a, id) == RetriesSpent(b, id)
  {
    if a != [] {
      SpentSame(a[..|a| - 1], b[..|b| - 1], id);
    }
  }

  /** Closing the one open attempt adds its cost. */
  lemma {:induction false} SpentByClosing(a: seq<Attempt>, b: seq<Attempt>, id: nat, k: nat)
    requires |a| == |b| && k < |a| && (forall j :: 0 <= j < |a| && j != k ==> a[j] == b[j])
    requires !CostsRetry(a[k], id)
    ensures RetriesSpent(b, id) == RetriesSpent(a, id) + if CostsRetry(b[k], id) then 1 else 0
  {
    var n := |a| - 1;
    if k == n {
      SpentSame(a[..n], b[..n], id);
    } else {
      SpentByClosing(a[..n], b[..n], id, k);
    }
  }

  lemma CountStarted(a: seq<Attempt>, x: Attempt, id: nat)
    ensures Count(a + [x], id) == Count(a, id) + if x.item == id then 1 else 0
    ensures RetriesSpent(a + [x], id) == RetriesSpent(a, id) + if CostsRetry(x, id) then 1 else 0
  {
  }

  lemma ForcedAppended(a: seq<AdminEvent>, e: AdminEvent, id: nat)
    ensures ForcedFailures(a + [e], id) == ForcedFailures(a, id) + if e.item == id && !e.completes then 1 else 0
  {
  }

  lemma {:induction false} NoneOwned(db: Db, id: nat)
    requires Owned(db) && id !in db.items
    ensures Count(db.attempts, id) == 0 && RetriesSpent(db.attempts, id) == 0 && ForcedFailures(db.admin, id) == 0
    decreases |db.attempts| + |db.admin|
  {
    if db.attempts != [] {
      NoneOwned(db.(attempts := db.attempts[..|db.attempts| - 1]), id);
    } else if db.admin != [] {
      NoneOwned(db.(admin := db.admin[..|db.admin| - 1]), id);
    }
  }

  // ---------- One change keeps the invariant ----------

  /** Closing touches exactly the item's open attempt. */
  lemma ClosesOne(db: Db, id: nat, outcome: Outcome, now: nat) returns (k: nat)
    requires TokensDistinct(db.attempts) && id in db.items && LeaseOk(db, id) && db.items[id].token != 0
    ensures k < |db.attempts| && IsOpen(db.attempts[k], id) && db.attempts[k].token == db.items[id].token
    ensures CloseAttempt(db.attempts, id, db.items[id].token, outcome, now) ==
            db.attempts[k := db.attempts[k].(outcome := Some(outcome), finishedAt := Some(now))]
  {
    k :| 0 <= k < |db.attempts| && IsOpen(db.attempts[k], id);
    var closed := CloseAttempt(db.attempts, id, db.items[id].token, outcome, now);
    forall j: nat | j < |closed| && j != k ensures closed[j] == db.attempts[j] {
      assert db.attempts[j].token != db.attempts[k].token;
    }
  }

  /** The attempts after a change, in one of three forms. */
  lemma AttemptsAfter(cfg: Config, db: Db, op: Op, c: Change) returns (k: nat)
    requires Inv(cfg, db) && op.id in db.items && Shape(cfg, db.items[op.id], op, c)
    ensures c.closes.Some? ==>
              && k < |db.attempts| && IsOpen(db.attempts[k], op.id)
              && Changed(db, op, c).attempts == db.attempts[k := db.attempts[k].(outcome := c.closes, finishedAt := Some(op.now))]
    ensures c.opens ==>
              Changed(db, op, c).attempts == db.attempts + [Attempt(op.id, c.item.token, c.item.claimedBy, op.now, None, None)]
    ensures c.closes.None? && !c.opens ==> Changed(db, op, c).attempts == db.attempts
  {
    k := 0;
    if c.closes.Some? {
      k := ClosesOne(db, op.id, c.closes.value, op.now);
    }
  }

  lemma CloseKeepsLease(cfg: Config, db: Db, op: Op, c: Change)
    requires Inv(cfg, db) && op.id in db.items && Shape(cfg, db.items[op.id], op, c) && c.closes.Some?
    ensures LeaseOk(Changed(db, op, c), op.id) && TokensDistinct(Changed(db, op, c).attempts)
  {
  }

  lemma OpenKeepsLease(cfg: Config, db: Db, op: Op, c: Change)
    requires Inv(cfg, db) && op.id in db.items && Shape(cfg, db.items[op.id], op, c) && c.opens
    requires FreshToken(db.attempts, op.token)
    ensures LeaseOk(Changed(db, op, c), op.id) && TokensDistinct(Changed(db, op, c).attempts)
  {
    var k := AttemptsAfter(cfg, db, op, c);
    var b := Changed(db, op, c).attempts;
    var n := |db.attempts|;
    assert IsOpen(b[n], op.id);
    forall j | 0 <= j < n ensures !IsOpen(b[j], op.id) && b[j].token != op.token {
      assert b[j] == db.attempts[j];
    }
  }

  lemma PlainKeepsLease(cfg: Config, db: Db, op: Op, c: Change)
    requires Inv(cfg, db) && op.id in db.items && Shape(cfg, db.items[op.id], op, c) && !c.opens && c.closes.None?
    ensures LeaseOk(Changed(db, op, c), op.id) && TokensDistinct(Changed(db, op, c).attempts)
  {
    var k := AttemptsAfter(cfg, db, op, c);
    assert LeaseOk(db, op.id);
  }

  lemma OthersKeepLease(cfg: Config, db: Db, op: Op, c: Change, id: nat)
    requires Inv(cfg, db) && op.id in db.items && Shape(cfg, db.items[op.id], op, c)
    requires id in db.items && id != op.id
    ensures LeaseOk(Changed(db, op, c), id)
  {
    var k := AttemptsAfter(cfg, db, op, c);
    var b := Changed(db, op, c).attempts;
    assert forall j: nat :: j < |db.attempts| && (c.closes.Some? ==> j != k) ==> b[j] == db.attempts[j];
    assert LeaseOk(db, id);
    if db.items[id].status == InProgress {
      var j :| 0 <= j < |db.attempts| && IsOpen(db.attempts[j], id);
      assert IsOpen(b[j], id);
    }
    forall j | 0 <= j < |b| && IsOpen(b[j], id)
      ensures b[j].token == db.items[id].token && db.items[id].status == InProgress && b[j].claimedBy == db.items[id].claimedBy
    {
      assert j < |db.attempts| && IsOpen(db.attempts[j], id);
    }
  }

  lemma AttemptCounts(cfg: Config, db: Db, op: Op, c: Change, id: nat)
    requires Inv(cfg, db) && op.id in db.items && Shape(cfg, db.items[op.id], op, c)
    ensures Count(Changed(db, op, c).attempts, id) == Count(db.attempts, id) + if c.opens && id == op.id then 1 else 0
    ensures RetriesSpent(Changed(db, op, c).attempts, id) == RetriesSpent(db.attempts, id) +
              if id == op.id && c.closes.Some? && c.closes.value in {RetryScheduled, TerminalFailure, LeaseExpired} then 1 else 0
  {
    var k := AttemptsAfter(cfg, db, op, c);
    var b := Changed(db, op, c).attempts;
    if c.closes.Some? {
      CountSame(db.attempts, b, id);
      SpentByClosing(db.attempts, b, id, k);
    } else if c.opens {
      CountStarted(db.attempts, b[|db.attempts|], id);
    }
  }

  lemma ChangeKeepsOlderClosed(cfg: Config, db: Db, op: Op, c: Change)
    requires Inv(cfg, db) && op.id in db.items && Shape(cfg, db.items[op.id], op, c)
    ensures OlderClosed(Changed(db, op, c).attempts)
  {
  }

  lemma ChangeKeepsRetries(cfg: Config, db: Db, op: Op, c: Change, id: nat)
    requires Inv(cfg, db) && op.id in db.items && Shape(cfg, db.items[op.id], op, c) && id in db.items
    ensures RetriesOk(cfg, Changed(db, op, c), id)
  {
    assert RetriesOk(cfg, db, id);
    AttemptCounts(cfg, db, op, c, id);
    if c.admin.Some? { ForcedAppended(db.admin, c.admin.value, id); }
  }

  lemma ChangeKeepsOwned(cfg: Config, db: Db, op: Op, c: Change)
    requires Inv(cfg, db) && op.id in db.items && Shape(cfg, db.items[op.id], op, c)
    ensures Owned(Changed(db, op, c))
  {
  }

  lemma AddKeepsInv(cfg: Config, db: Db, op: Op)
    requires Inv(cfg, db) && op.Add? && Accepts(cfg, db, op)
    requires op.item.availableAt.Some? ==> op.item.status == Pending
    ensures Inv(cfg, Apply(cfg, db, op))
  {
    var after := Apply(cfg, db, op);
    NoneOwned(db, op.id);
    forall id | id in after.items ensures LeaseOk(after, id) && RetriesOk(cfg, after, id) {
      if id != op.id {
        assert LeaseOk(db, id) && RetriesOk(cfg, db, id);
      }
    }
  }

  /** Every committed write keeps the invariant. */
  lemma ApplyKeepsInv(cfg: Config, db: Db, op: Op)
    requires Inv(cfg, db) && (op.id in db.items ==> CountIsCurrent(db.items[op.id], op))
    ensures Inv(cfg, Apply(cfg, db, op))
  {
    if Accepts(cfg, db, op) {
      if op.Add? {
        AddKeepsInv(cfg, db, op);
      } else {
        var c := Effect(cfg, db.items[op.id], op).value;
        assert LeaseOk(db, op.id);
        EffectShape(cfg, db.items[op.id], op);
        if c.closes.Some? { CloseKeepsLease(cfg, db, op, c); }
        else if c.opens { OpenKeepsLease(cfg, db, op, c); }
        else { PlainKeepsLease(cfg, db, op, c); }
        ChangeKeepsOwned(cfg, db, op, c);
        ChangeKeepsOlderClosed(cfg, db, op, c);
        forall id | id in db.items ensures LeaseOk(Changed(db, op, c), id) && RetriesOk(cfg, Changed(db, op, c), id) {
          ChangeKeepsRetries(cfg, db, op, c, id);
          if id != op.id { OthersKeepLease(cfg, db, op, c, id); }
        }
      }
    }
  }
}
