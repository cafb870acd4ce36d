/** What the queue's methods are proved against: rival writes, stale leases, the claim loop. */
module QueueSteps {
  import opened Options
  import opened QueueSpec
  import opened QueueInvariants
  import opened QueueRuns

  // ---------- Rival workers ----------

  /** A rival write; `OptimisticFailIsAtomic` excludes failures with an outdated count. */
  function Rival(cfg: Config, db: Db, op: Op): Db {
    if op.id in db.items && !CountIsCurrent(db.items[op.id], op) then db else Apply(cfg, db, op)
  }

  function Rivals(cfg: Config, db: Db, ops: seq<Op>): Db
    decreases |ops|
  {
    if ops == [] then db else Rivals(cfg, Rival(cfg, db, ops[0]), ops[1..])
  }

  lemma {:induction false} RivalsInTwo(cfg: Config, db: Db, a: seq<Op>, b: seq<Op>)
    ensures Rivals(cfg, db, a + b) == Rivals(cfg, Rivals(cfg, db, a), b)
    decreases |a|
  {
    if a == [] {
      assert a + b == b;
    } else {
      assert (a + b)[1..] == a[1..] + b;
      RivalsInTwo(cfg, Rival(cfg, db, a[0]), a[1..], b);
    }
  }

  lemma RivalKeeps(cfg: Config, db: Db, op: Op, id: nat)
    requires Inv(cfg, db)
    ensures var n := Rival(cfg, db, op);
            && Inv(cfg, n)
            && (forall token :: TokenUsed(db, token) ==> TokenUsed(n, token))
            && (id in db.items ==>
                  && id in n.items && n.items[id].payload == db.items[id].payload
                  && (n.items[id].token == db.items[id].token != 0 ==> n.items[id].retryCount == db.items[id].retryCount)
                  && (n.items[id].token != db.items[id].token && n.items[id].token != 0 ==> !TokenUsed(db, n.items[id].token)))
  {
    if !(op.id in db.items && !CountIsCurrent(db.items[op.id], op)) {
      ApplyKeepsInv(cfg, db, op);
      forall token | TokenUsed(db, token) ensures TokenUsed(Apply(cfg, db, op), token) {
        TokensStayUsed(cfg, db, op, token);
      }
      if id in db.items { WriteKeepsRow(cfg, db, op, id); }
    }
  }

  /** What rivals leave alone: the invariant and every payload. */
  lemma {:induction false} RivalsKeep(cfg: Config, db: Db, ops: seq<Op>, id: nat)
    requires Inv(cfg, db)
    ensures Inv(cfg, Rivals(cfg, db, ops))
    ensures id in db.items ==> id in Rivals(cfg, db, ops).items && Rivals(cfg, db, ops).items[id].payload == db.items[id].payload
    decreases |ops|
  {
    if ops != [] {
      RivalKeeps(cfg, db, ops[0], id);
      RivalsKeep(cfg, Rival(cfg, db, ops[0]), ops[1..], id);
    }
  }

  /** Rows stay, and so does what they carry. */
  predicate SamePayloads(a: Db, b: Db) {
    forall id :: id in a.items ==> id in b.items && b.items[id].payload == a.items[id].payload
  }

  lemma RivalsKeepPayloads(cfg: Config, db: Db, ops: seq<Op>)
    requires Inv(cfg, db)
    ensures SamePayloads(db, Rivals(cfg, db, ops))
  {
    forall id | id in db.items
      ensures id in Rivals(cfg, db, ops).items && Rivals(cfg, db, ops).items[id].payload == db.items[id].payload
    {
      RivalsKeep(cfg, db, ops, id);
    }
  }

  /** A claim token, once replaced, does not come back. */
  lemma {:induction false} NotRevived(cfg: Config, db: Db, ops: seq<Op>, id: nat, token: nat)
    requires Inv(cfg, db) && id in db.items && token != 0 && TokenUsed(db, token) && db.items[id].token != token
    ensures id in Rivals(cfg, db, ops).items && Rivals(cfg, db, ops).items[id].token != token
    decreases |ops|
  {
    if ops != [] {
      RivalKeeps(cfg, db, ops[0], id);
      NotRevived(cfg, Rival(cfg, db, ops[0]), ops[1..], id, token);
    }
  }

  /** While a claim lasts, its item's count does not change. */
  lemma {:induction false} RivalsKeepCount(cfg: Config, db: Db, ops: seq<Op>, id: nat)
    requires Inv(cfg, db) && id in db.items && db.items[id].token != 0
    ensures id in Rivals(cfg, db, ops).items
    ensures Rivals(cfg, db, ops).items[id].token == db.items[id].token ==>
              Rivals(cfg, db, ops).items[id].retryCount == db.items[id].retryCount
    decreases |ops|
  {
    if ops != [] {
      var n := Rival(cfg, db, ops[0]);
      RivalKeeps(cfg, db, ops[0], id);
      assert LeaseOk(db, id);
      HeldTokenUsed(db, id);
      if n.items[id].token == db.items[id].token {
        RivalsKeepCount(cfg, n, ops[1..], id);
      } else {
        NotRevived(cfg, n, ops[1..], id, db.items[id].token);
      }
    }
  }

  // ---------- Stale leases ----------

  function Expired(cfg: Config, it: Item, now: nat): Item {
    Requeued(cfg, it, it.retryCount + 1, true, it.claimedBy, now)
  }

  /** The rows still in `stale` are as they were; every other stale row has expired. */
  ghost predicate Reclaiming(cfg: Config, rows: map<nat, Item>, items: map<nat, Item>, stale: set<nat>, now: nat) {
    && items.Keys == rows.Keys && stale <= rows.Keys
    && (forall id :: id in stale ==> items[id] == rows[id] && Stale(cfg, rows[id], now) && rows[id].token != 0)
    && forall id :: id in rows && id !in stale ==>
         items[id] == if Stale(cfg, rows[id], now) then Expired(cfg, rows[id], now) else rows[id]
  }

  lemma StaleHaveTokens(cfg: Config, db: Db, now: nat)
    requires Inv(cfg, db)
    ensures forall id :: id in db.items && Stale(cfg, db.items[id], now) ==> db.items[id].token != 0
  {
  }

  lemma {:induction false} RunOneMore(cfg: Config, db: Db, ops: seq<Op>, op: Op)
    ensures RunOps(cfg, db, ops + [op]) == Apply(cfg, RunOps(cfg, db, ops), op)
    decreases |ops|
  {
    if ops == [] {
      assert [op][1..] == [];
    } else {
      assert (ops + [op])[1..] == ops[1..] + [op];
      RunOneMore(cfg, Apply(cfg, db, ops[0]), ops[1..], op);
    }
  }

  lemma {:induction false} ExpiriesKeepInv(cfg: Config, db: Db, ops: seq<Op>)
    requires Inv(cfg, db) && forall op :: op in ops ==> op.Expire?
    ensures Inv(cfg, RunOps(cfg, db, ops))
    decreases |ops|
  {
    if ops != [] {
      assert ops[0] in ops;
      ApplyKeepsInv(cfg, db, ops[0]);
      ExpiriesKeepInv(cfg, Apply(cfg, db, ops[0]), ops[1..]);
    }
  }

  /** The whole seconds of the lease's age exceed the timeout. */
  predicate Outlived(cfg: Config, it: Item, now: nat) {
    && it.status == InProgress && it.claimedAt.Some?
    && now as int / 1_000_000 - it.claimedAt.value as int / 1_000_000 > cfg.leaseTimeout
  }

  /** The row after its lease expired: back to pending while retries are left, failed otherwise. */
  predicate ExpiredRow(cfg: Config, a: Item, b: Item, now: nat) {
    var n := a.retryCount + 1;
    var again := n <= cfg.maxRetries;
    b == a.(status := if again then Pending else Failed, retryCount := n, claimedBy := if again then "" else a.claimedBy,
            claimedAt := None, token := 0, availableAt := if again then cfg.due(now, n) else None)
  }

  /** Exactly the leases that outlived their timeout have expired. */
  ghost predicate Reclaimed(cfg: Config, db: Db, expiries: seq<Op>, now: nat) {
    && (forall op :: op in expiries ==> op.Expire?)
    && var after := RunOps(cfg, db, expiries);
       && after.items.Keys == db.items.Keys
       && forall id :: id in db.items ==>
            if Outlived(cfg, db.items[id], now) then ExpiredRow(cfg, db.items[id], after.items[id], now)
            else after.items[id] == db.items[id]
  }

  // ---------- Settling one row ----------

  /** The credential is the row's current claim. */
  predicate Presented(it: Item, worker: string, token: nat) {
    it.status == InProgress && it.claimedBy == worker && it.token == token && token != 0
  }

  /** The row after a failure, when the count was `n`. */
  predicate FailedRow(cfg: Config, a: Item, b: Item, worker: string, n: nat, retry: bool, now: nat) {
    var again := retry && n + 1 <= cfg.maxRetries;
    b == a.(status := if again then Pending else Failed, retryCount := n + 1, claimedBy := if again then "" else worker,
            claimedAt := None, token := 0, availableAt := if again then cfg.due(now, n + 1) else None)
  }

  /** The database after an override: the row, its open attempt, and the audit event. */
  predicate ForcedRow(cfg: Config, a: Db, b: Db, id: nat, completes: bool, retry: bool, reason: string, now: nat)
    requires id in a.items
  {
    var it := a.items[id];
    var n := it.retryCount + 1;
    var to := if completes then Successful else if retry && n <= cfg.maxRetries then Pending else Failed;
    && b.items == a.items[id := it.(status := to, retryCount := if completes then it.retryCount else n, claimedBy := "",
                                    claimedAt := None, token := 0, availableAt := if to == Pending then cfg.due(now, n) else None)]
    && b.admin == a.admin + [AdminEvent(id, completes, reason, it.status, to, now)]
    && b.poison == a.poison && |b.attempts| == |a.attempts|
    && forall k :: 0 <= k < |a.attempts| ==>
         b.attempts[k] == if a.attempts[k].item == id && a.attempts[k].token == it.token && it.token != 0 && a.attempts[k].outcome.None?
                          then a.attempts[k].(outcome := Some(AdminOverride), finishedAt := Some(now)) else a.attempts[k]
  }

  // ---------- Claiming one row ----------

  predicate Eligible(it: Item, now: nat) { it.status == Pending && Due(it, now) }

  /** `ORDER BY created_at, id`. */
  predicate NoLater(items: map<nat, Item>, a: nat, b: nat)
    requires a in items && b in items
  {
    items[a].createdAt < items[b].createdAt || (items[a].createdAt == items[b].createdAt && a <= b)
  }

  /** The pending item that is due, with the least creation time and then the least id. */
  ghost predicate OldestOf(items: map<nat, Item>, id: nat, now: nat) {
    && id in items && items[id].status == Pending && (items[id].availableAt.None? || items[id].availableAt.value <= now)
    && forall other :: other in items && other != id && items[other].status == Pending
                       && (items[other].availableAt.None? || items[other].availableAt.value <= now) ==>
         items[id].createdAt < items[other].createdAt || (items[id].createdAt == items[other].createdAt && id < other)
  }

  /** Everything pending is to be delivered later. */
  ghost predicate NothingDue(items: map<nat, Item>, now: nat) {
    forall id :: id in items && items[id].status == Pending ==> items[id].availableAt.Some? && items[id].availableAt.value > now
  }

  function PendingIds(items: map<nat, Item>): set<nat> {
    set id | id in items && items[id].status == Pending
  }

  /** A token no attempt has: one more than the largest. */
  function UnusedToken(attempts: seq<Attempt>): (token: nat)
    ensures FreshToken(attempts, token)
    ensures forall k :: 0 <= k < |attempts| ==> attempts[k].token < token
  {
    if attempts == [] then 1
    else
      var rest := UnusedToken(attempts[..|attempts| - 1]);
      if attempts[|attempts| - 1].token < rest then rest else attempts[|attempts| - 1].token + 1
  }

  /** The row is pending and due, and its due time is the one that was read. */
  predicate StillOffered(it: Item, seen: Seen, now: nat) {
    it.status == Pending && it.availableAt == seen.availableAt && (it.availableAt.None? || it.availableAt.value <= now)
  }

  /** The database just after a claim: an item that was due is leased to the worker under a
      new token with a decodable payload, and its new attempt is the last one. */
  ghost predicate HandedOut(before: Db, after: Db, id: nat, worker: string, now: nat) {
    && id in before.items && id in after.items
    && before.items[id].status == Pending && (before.items[id].availableAt.None? || before.items[id].availableAt.value <= now)
    && var it := after.items[id];
       && FreshToken(before.attempts, it.token)
       && it == before.items[id].(status := InProgress, claimedBy := worker, claimedAt := Some(now), token := it.token,
                                  availableAt := None)
       && it.payload.Valid?
       && after == Db(before.items[id := it], before.attempts + [Attempt(id, it.token, worker, now, None, None)],
                      before.admin, before.poison)
  }

  lemma ClaimMeans(cfg: Config, db: Db, id: nat, seen: Seen, worker: string, token: nat, now: nat)
    requires var op := Claim(id, seen, worker, token, now); Accepts(cfg, db, op)
    requires db.items[id].payload == seen.payload
    ensures HandedOut(db, Apply(cfg, db, Claim(id, seen, worker, token, now)), id, worker, now)
  {
  }

  ghost predicate OneFailed(a: map<nat, Item>, b: map<nat, Item>, id: nat) {
    && id in a && b.Keys == a.Keys
    && (forall other :: other in a && other != id ==> b[other] == a[other])
    && (b[id] == a[id] || (a[id].status == Pending && b[id].status == Failed && b[id].retryCount == a[id].retryCount))
  }

  lemma OneLessPending(a: map<nat, Item>, b: map<nat, Item>, id: nat)
    requires OneFailed(a, b, id) && a[id].status == Pending && b[id].status == Failed
    ensures PendingIds(b) < PendingIds(a)
  {
    assert id in PendingIds(a) && id !in PendingIds(b);
  }

  /** What claiming alone may do to other rows: expire a lease, or quarantine a payload. */
  predicate Drifted(cfg: Config, a: Item, b: Item) {
    || b == a
    || (a.status == InProgress && b.retryCount == a.retryCount + 1
        && (b.status == Failed || (b.status == Pending && b.retryCount <= cfg.maxRetries)))
    || (a.status == Pending && b.status == Failed && b.retryCount == a.retryCount)
  }

  ghost predicate AllDrifted(cfg: Config, a: map<nat, Item>, b: map<nat, Item>) {
    a.Keys == b.Keys && forall id :: id in a ==> Drifted(cfg, a[id], b[id])
  }

  lemma DriftsAgain(cfg: Config, a: map<nat, Item>, b: map<nat, Item>, c: map<nat, Item>, now: nat)
    requires AllDrifted(cfg, b, c) && a.Keys == b.Keys
    requires forall id :: id in a ==> b[id] == a[id] || (Outlived(cfg, a[id], now) && ExpiredRow(cfg, a[id], b[id], now))
    ensures AllDrifted(cfg, a, c)
  {
  }

  lemma DriftsOn(cfg: Config, a: map<nat, Item>, b: map<nat, Item>, c: map<nat, Item>, id: nat)
    requires AllDrifted(cfg, a, b) && id in b && c.Keys == b.Keys
    requires forall other :: other in b && other != id ==> c[other] == b[other]
    requires c[id] == b[id] || (b[id].status == Pending && c[id].status == Failed && c[id].retryCount == b[id].retryCount)
    ensures AllDrifted(cfg, a, c)
  {
  }

  // ---------- The claim loop ----------

  function RivalsAt(rivals: seq<seq<Op>>, round: nat): seq<Op> {
    if round < |rivals| then rivals[round] else []
  }

  /** All writes of the lost rounds, in order: in each the rivals' first, then the quarantine
      of an undecodable payload, if that is what the round found. */
  function Woven(rivals: seq<seq<Op>>, lost: seq<seq<Op>>): seq<Op> {
    if lost == [] then []
    else
      var n := |lost| - 1;
      Woven(rivals, lost[..n]) + RivalsAt(rivals, n) + lost[n]
  }

  /** The database a worker looked at after it had lost these rounds. */
  function Looked(cfg: Config, db: Db, rivals: seq<seq<Op>>, lost: seq<seq<Op>>): Db {
    Rivals(cfg, db, Woven(rivals, lost))
  }

  /** The database its guarded write met: rivals were faster. */
  function Met(cfg: Config, db: Db, rivals: seq<seq<Op>>, lost: seq<seq<Op>>): Db {
    Rivals(cfg, Looked(cfg, db, rivals, lost), RivalsAt(rivals, |lost|))
  }

  /** A round of its own writes nothing, or quarantines a stored payload that does not decode. */
  predicate OwnRound(db: Db, own: seq<Op>) {
    own == [] ||
    (|own| == 1 && own[0].Poison? && own[0].seen.payload.Malformed?
     && own[0].id in db.items && db.items[own[0].id].payload == own[0].seen.payload)
  }

  predicate OwnRounds(db: Db, lost: seq<seq<Op>>) {
    forall k :: 0 <= k < |lost| ==> OwnRound(db, lost[k])
  }

  lemma {:induction false} AloneOnlyQuarantines(db: Db, lost: seq<seq<Op>>)
    requires OwnRounds(db, lost)
    ensures forall op :: op in Woven([], lost) ==> op.Poison?
  {
    if lost != [] {
      AloneOnlyQuarantines(db, lost[..|lost| - 1]);
      assert OwnRound(db, lost[|lost| - 1]);
    }
  }

  /** A search is under way: `now` is what `db` became through the lost rounds. */
  ghost predicate Searching(cfg: Config, db: Db, now: Db, rivals: seq<seq<Op>>, lost: seq<seq<Op>>) {
    && now == Looked(cfg, db, rivals, lost) && OwnRounds(now, lost)
    && (rivals == [] ==> AllDrifted(cfg, db.items, now.items))
  }

  /** How a search ends: nothing was eligible when it looked, or the oldest eligible item was
      handed out, and still was due when the guarded write met it. */
  ghost predicate SearchEnds(cfg: Config, db: Db, after: Db, rivals: seq<seq<Op>>, lost: seq<seq<Op>>, lookedAt: nat,
                             claimed: Option<nat>, worker: string, now: nat) {
    var looked := Looked(cfg, db, rivals, lost);
    && Searching(cfg, db, looked, rivals, lost)
    && match claimed
       case None => after == looked && NothingDue(looked.items, lookedAt)
       case Some(id) => OldestOf(looked.items, id, lookedAt) && HandedOut(Met(cfg, db, rivals, lost), after, id, worker, now)
  }

  lemma RoundLost(cfg: Config, db: Db, was: Db, now: Db, rivals: seq<seq<Op>>, lost: seq<seq<Op>>, own: seq<Op>, id: nat)
    requires Searching(cfg, db, was, rivals, lost) && OwnRound(now, own) && SamePayloads(was, now)
    requires now == Rivals(cfg, Rivals(cfg, was, RivalsAt(rivals, |lost|)), own)
    requires rivals == [] ==> OneFailed(was.items, now.items, id)
    ensures Searching(cfg, db, now, rivals, lost + [own])
  {
    assert (lost + [own])[..|lost|] == lost;
    var before, others := Woven(rivals, lost), RivalsAt(rivals, |lost|);
    RivalsInTwo(cfg, db, before + others, own);
    RivalsInTwo(cfg, db, before, others);
    assert forall k :: 0 <= k < |lost| ==> OwnRound(was, lost[k]);
    if rivals == [] {
      DriftsOn(cfg, db.items, was.items, now.items, id);
    }
  }
}
