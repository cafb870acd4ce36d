/** The queue database as a value and every committed write on it as a guarded operation on
    one row. A guard that does not hold leaves the database as it is. */
module QueueSpec {
  import opened Options

  datatype QueueStatus = Pending | InProgress | Successful | Failed

  datatype Outcome = Succeeded | RetryScheduled | TerminalFailure | LeaseExpired | AdminOverride

  /** Stored payload text, as decoding it would find it. */
  datatype Payload = Valid(value: string) | Malformed(error: string)

  /** Token 0 is the empty claim token, transaction 0 the empty binding. Times are
      microseconds. */
  datatype Item = Item(
    reference: string,
    payload: Payload,
    status: QueueStatus,
    retryCount: nat,
    createdAt: nat,
    claimedBy: string,
    claimedAt: Option<nat>,
    token: nat,
    transactionId: nat,
    availableAt: Option<nat>)

  /** An attempt's sequence number is its position plus one. */
  datatype Attempt = Attempt(
    item: nat, token: nat, claimedBy: string, startedAt: nat, finishedAt: Option<nat>, outcome: Option<Outcome>)

  datatype AdminEvent = AdminEvent(
    item: nat, completes: bool, reason: string, previous: QueueStatus, next: QueueStatus, createdAt: nat)

  datatype PoisonEvent = PoisonEvent(item: nat, error: string, createdAt: nat)

  datatype Db = Db(items: map<nat, Item>, attempts: seq<Attempt>, admin: seq<AdminEvent>, poison: seq<PoisonEvent>)

  /** `due(now, n)` is the time at which the n-th retry becomes available, none without delay. */
  datatype Config = Config(leaseTimeout: nat, maxRetries: nat, due: (nat, nat) -> Option<nat>)

  /** What the selecting read of `next_item` saw of a row. */
  datatype Seen = Seen(payload: Payload, availableAt: Option<nat>)

  /** The committed writes. `seen` values were read earlier, outside the write. */
  datatype Op =
    | Expire(id: nat, token: nat, now: nat)
    | Claim(id: nat, seen: Seen, worker: string, token: nat, now: nat)
    | Poison(id: nat, seen: Seen, now: nat)
    | Renew(id: nat, worker: string, token: nat, now: nat)
    | Complete(id: nat, worker: string, token: nat, now: nat)
    | Fail(id: nat, worker: string, token: nat, seenCount: nat, retry: bool, now: nat)
    | Force(id: nat, completes: bool, retry: bool, reason: string, now: nat)
    | Bind(id: nat, worker: string, token: nat, transactionId: nat, now: nat)
    | Add(id: nat, item: Item, now: nat)

  // ---------- Guards ----------

  /** The claim a worker presents is the item's current one. */
  predicate Holds(it: Item, worker: string, token: nat) {
    it.status == InProgress && it.claimedBy == worker && it.token == token && token != 0
  }

  /** Lease age in whole seconds, as the stale query computes it. */
  predicate Stale(cfg: Config, it: Item, now: nat) {
    it.status == InProgress && it.claimedAt.Some? &&
    now as int / 1_000_000 - it.claimedAt.value as int / 1_000_000 > cfg.leaseTimeout
  }

  predicate Due(it: Item, now: nat) {
    it.availableAt.None? || it.availableAt.value <= now
  }

  predicate Claimable(it: Item, seen: Seen, now: nat) {
    it.status == Pending && it.availableAt == seen.availableAt && Due(it, now)
  }

  /** A new delivery token is one no attempt carries. */
  predicate FreshToken(attempts: seq<Attempt>, token: nat) {
    token != 0 && forall k :: 0 <= k < |attempts| ==> attempts[k].token != token
  }

  predicate NewItem(it: Item) {
    it.status == Pending && it.retryCount == 0 && it.claimedAt.None? && it.token == 0 && it.transactionId == 0
  }

  // ---------- Effects on one row ----------

  /** What an accepted operation does: the new row, and what it closes, opens or records. */
  datatype Change = Change(
    item: Item, closes: Option<Outcome>, opens: bool, admin: Option<AdminEvent>, poison: Option<string>)

  function Plain(it: Item): Change { Change(it, None, false, None, None) }

  function Released(it: Item, status: QueueStatus, count: nat, claimedBy: string, available: Option<nat>): Item {
    it.(status := status, retryCount := count, claimedBy := claimedBy, claimedAt := None, token := 0, availableAt := available)
  }

  /** Back to pending with a due time when retries remain, failed otherwise. */
  function Requeued(cfg: Config, it: Item, count: nat, retry: bool, keep: string, now: nat): Item {
    if retry && count <= cfg.maxRetries then Released(it, Pending, count, "", cfg.due(now, count))
    else Released(it, Failed, count, keep, None)
  }

  function Closing(it: Item, outcome: Outcome): Change { Change(it, Some(outcome), false, None, None) }

  function Forced(cfg: Config, it: Item, op: Op): Change
    requires op.Force?
  {
    var to := if op.completes then Released(it, Successful, it.retryCount, "", None)
              else Requeued(cfg, it, it.retryCount + 1, op.retry, "", op.now);
    Change(to, if it.token != 0 then Some(AdminOverride) else None, false,
           Some(AdminEvent(op.id, op.completes, op.reason, it.status, to.status, op.now)), None)
  }

  /** The change the operation makes to its row, or none when its guard fails. */
  function Effect(cfg: Config, it: Item, op: Op): Option<Change> {
    match op
    case Expire(_, token, now) =>
      if Stale(cfg, it, now) && it.token == token && token != 0 then
        Some(Closing(Requeued(cfg, it, it.retryCount + 1, true, it.claimedBy, now), LeaseExpired))
      else None
    case Claim(_, seen, worker, token, now) =>
      if Claimable(it, seen, now) && seen.payload.Valid? && token != 0 then
        Some(Plain(it.(status := InProgress, claimedBy := worker, claimedAt := Some(now), token := token, availableAt := None))
               .(opens := true))
      else None
    case Poison(_, seen, now) =>
      if Claimable(it, seen, now) && seen.payload.Malformed? then
        Some(Plain(Released(it, Failed, it.retryCount, "", None)).(poison := Some(seen.payload.error)))
      else None
    case Renew(_, worker, token, now) =>
      if Holds(it, worker, token) then Some(Plain(it.(claimedAt := Some(now)))) else None
    case Complete(_, worker, token, now) =>
      if Holds(it, worker, token) then
        Some(Closing(Released(it, Successful, it.retryCount, it.claimedBy, None), Succeeded))
      else None
    case Fail(_, worker, token, seen, retry, now) =>
      if Holds(it, worker, token) then
        var to := Requeued(cfg, it, seen + 1, retry, worker, now);
        Some(Closing(to, if to.status == Pending then RetryScheduled else TerminalFailure))
      else None
    case Force(_, _, _, _, _) => Some(Forced(cfg, it, op))
    case Bind(_, worker, token, tx, _) =>
      if Holds(it, worker, token) && tx != 0 && (it.transactionId == 0 || it.transactionId == tx) then
        Some(Plain(it.(transactionId := tx)))
      else None
    case Add(_, _, _) => None
  }

  // ---------- The database ----------

  function CloseAttempt(attempts: seq<Attempt>, id: nat, token: nat, outcome: Outcome, now: nat): seq<Attempt> {
    seq(|attempts|, k requires 0 <= k < |attempts| =>
      if attempts[k].item == id && attempts[k].token == token && attempts[k].outcome.None?
      then attempts[k].(outcome := Some(outcome), finishedAt := Some(now)) else attempts[k])
  }

  predicate Accepts(cfg: Config, db: Db, op: Op) {
    if op.Add? then op.id !in db.items && NewItem(op.item)
    else
      && op.id in db.items && Effect(cfg, db.items[op.id], op).Some?
      && (op.Claim? ==> FreshToken(db.attempts, op.token))
  }

  function Changed(db: Db, op: Op, c: Change): Db
    requires op.id in db.items
  {
    var closed := if c.closes.Some? then CloseAttempt(db.attempts, op.id, db.items[op.id].token, c.closes.value, op.now)
                  else db.attempts;
    var started := if c.opens then [Attempt(op.id, c.item.token, c.item.claimedBy, op.now, None, None)] else [];
    Db(db.items[op.id := c.item], closed + started,
       if c.admin.Some? then db.admin + [c.admin.value] else db.admin,
       if c.poison.Some? then db.poison + [PoisonEvent(op.id, c.poison.value, op.now)] else db.poison)
  }

  function Apply(cfg: Config, db: Db, op: Op): Db {
    if !Accepts(cfg, db, op) then db
    else if op.Add? then db.(items := db.items[op.id := op.item])
    else Changed(db, op, Effect(cfg, db.items[op.id], op).value)
  }

  /** Any interleaving of any workers' writes. */
  function RunOps(cfg: Config, db: Db, ops: seq<Op>): Db
    decreases |ops|
  {
    if ops == [] then db else RunOps(cfg, Apply(cfg, db, ops[0]), ops[1..])
  }

  const EMPTY := Db(map[], [], [], [])
}
