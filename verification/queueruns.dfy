/** Whole runs of the queue: arbitrary interleavings of reads and writes by any number of
    workers. The claim and the failure read first and write later under a guard; here they
    are shown to act as if they were atomic. */
module QueueRuns {
  import opened Options
  import opened QueueSpec
  import opened QueueInvariants

  /** A worker's read of its item's retry count, in `fail`. */
  datatype CountRead = CountRead(id: nat, worker: string, token: nat, count: nat)

  datatype World = World(db: Db, counts: set<CountRead>, looked: set<(nat, Seen)>)

  datatype Step =
    | Look(id: nat, now: nat)
    | ReadCount(id: nat, worker: string, token: nat)
    | Write(op: Op)

  /** A worker writes what it has read before, however long ago. */
  predicate WasRead(w: World, op: Op) {
    if op.Claim? || op.Poison? then (op.id, op.seen) in w.looked
    else if op.Fail? then CountRead(op.id, op.worker, op.token, op.seenCount) in w.counts
    else true
  }

  function Next(cfg: Config, w: World, step: Step): World {
    match step
    case Look(id, now) =>
      if id in w.db.items && w.db.items[id].status == Pending && Due(w.db.items[id], now)
      then w.(looked := w.looked + {(id, Seen(w.db.items[id].payload, w.db.items[id].availableAt))})
      else w
    case ReadCount(id, worker, token) =>
      if id in w.db.items && Holds(w.db.items[id], worker, token)
      then w.(counts := w.counts + {CountRead(id, worker, token, w.db.items[id].retryCount)})
      else w
    case Write(op) => if WasRead(w, op) then w.(db := Apply(cfg, w.db, op)) else w
  }

  function Run(cfg: Config, w: World, steps: seq<Step>): World
    decreases |steps|
  {
    if steps == [] then w else Run(cfg, Next(cfg, w, steps[0]), steps[1..])
  }

  const START := World(EMPTY, {}, {})

  // ---------- The invariant of runs ----------

  predicate TokenUsed(db: Db, token: nat) {
    exists k :: 0 <= k < |db.attempts| && db.attempts[k].token == token
  }

  /** A count read under a claim is still the count while that claim lasts. */
  ghost predicate CountFrozen(db: Db, r: CountRead) {
    && r.id in db.items && TokenUsed(db, r.token)
    && (Holds(db.items[r.id], r.worker, r.token) ==> db.items[r.id].retryCount == r.count)
  }

  ghost predicate WorldInv(cfg: Config, w: World) {
    && Inv(cfg, w.db)
    && (forall r :: r in w.counts ==> CountFrozen(w.db, r))
    && (forall s :: s in w.looked ==> s.0 in w.db.items && w.db.items[s.0].payload == s.1.payload)
  }

  lemma HeldTokenUsed(db: Db, id: nat)
    requires id in db.items && LeaseOk(db, id) && db.items[id].token != 0
    ensures TokenUsed(db, db.items[id].token)
  {
  }

  lemma TokensStayUsed(cfg: Config, db: Db, op: Op, token: nat)
    requires Inv(cfg, db) && TokenUsed(db, token)
    requires op.id in db.items ==> CountIsCurrent(db.items[op.id], op)
    ensures TokenUsed(Apply(cfg, db, op), token)
  {
    if Accepts(cfg, db, op) && !op.Add? {
      var c := Effect(cfg, db.items[op.id], op).value;
      assert LeaseOk(db, op.id);
      EffectShape(cfg, db.items[op.id], op);
      var k := AttemptsAfter(cfg, db, op, c);
      var j :| 0 <= j < |db.attempts| && db.attempts[j].token == token;
      assert Changed(db, op, c).attempts[j].token == token;
    }
  }

  /** What one write leaves alone on any row: the payload, and the count while a claim lasts. */
  lemma WriteKeepsRow(cfg: Config, db: Db, op: Op, id: nat)
    requires Inv(cfg, db) && id in db.items
    requires op.id in db.items ==> CountIsCurrent(db.items[op.id], op)
    ensures var after := Apply(cfg, db, op);
            && id in after.items && after.items[id].payload == db.items[id].payload
            && (after.items[id].token == db.items[id].token != 0 ==>
                  after.items[id].retryCount == db.items[id].retryCount && after.items[id].claimedBy == db.items[id].claimedBy)
            && (after.items[id].token != db.items[id].token && after.items[id].token != 0 ==>
                  !TokenUsed(db, after.items[id].token))
  {
    if Accepts(cfg, db, op) && !op.Add? && op.id == id {
      assert LeaseOk(db, id);
      EffectShape(cfg, db.items[id], op);
    }
  }

  lemma WriteKeepsCounts(cfg: Config, db: Db, op: Op, r: CountRead)
    requires Inv(cfg, db) && CountFrozen(db, r)
    requires op.id in db.items ==> CountIsCurrent(db.items[op.id], op)
    ensures CountFrozen(Apply(cfg, db, op), r)
  {
    WriteKeepsRow(cfg, db, op, r.id);
    TokensStayUsed(cfg, db, op, r.token);
    assert LeaseOk(db, r.id);
  }

  lemma ReadIsCurrent(cfg: Config, w: World, op: Op)
    requires WorldInv(cfg, w) && WasRead(w, op) && op.id in w.db.items
    ensures CountIsCurrent(w.db.items[op.id], op)
  {
  }

  lemma WriteKeepsWorld(cfg: Config, w: World, op: Op)
    requires WorldInv(cfg, w) && WasRead(w, op)
    ensures WorldInv(cfg, w.(db := Apply(cfg, w.db, op)))
  {
    if op.id in w.db.items { ReadIsCurrent(cfg, w, op); }
    ApplyKeepsInv(cfg, w.db, op);
    forall r | r in w.counts ensures CountFrozen(Apply(cfg, w.db, op), r) {
      WriteKeepsCounts(cfg, w.db, op, r);
    }
    forall s | s in w.looked
      ensures s.0 in Apply(cfg, w.db, op).items && Apply(cfg, w.db, op).items[s.0].payload == s.1.payload
    {
      WriteKeepsRow(cfg, w.db, op, s.0);
    }
  }

  lemma NextKeepsWorld(cfg: Config, w: World, step: Step)
    requires WorldInv(cfg, w)
    ensures WorldInv(cfg, Next(cfg, w, step))
  {
    match step
    case Look(id, now) =>
    case ReadCount(id, worker, token) =>
      if id in w.db.items && Holds(w.db.items[id], worker, token) {
        assert LeaseOk(w.db, id);
        HeldTokenUsed(w.db, id);
        assert CountFrozen(w.db, CountRead(id, worker, token, w.db.items[id].retryCount));
      }
    case Write(op) =>
      if WasRead(w, op) { WriteKeepsWorld(cfg, w, op); }
  }

  lemma {:induction false} RunKeepsWorld(cfg: Config, w: World, steps: seq<Step>)
    requires WorldInv(cfg, w)
    ensures WorldInv(cfg, Run(cfg, w, steps))
    decreases |steps|
  {
    if steps != [] {
      NextKeepsWorld(cfg, w, steps[0]);
      RunKeepsWorld(cfg, Next(cfg, w, steps[0]), steps[1..]);
    }
  }

  // ---------- What holds of every run ----------

  /** Every database any interleaving reaches satisfies the invariant. */
  lemma ReachableInv(cfg: Config, steps: seq<Step>)
    ensures WorldInv(cfg, Run(cfg, START, steps))
  {
    RunKeepsWorld(cfg, START, steps);
  }

  /** No item is ever handed out more than `maxRetries + 1` times. */
  lemma BoundedDelivery(cfg: Config, steps: seq<Step>, id: nat)
    requires id in Run(cfg, START, steps).db.items
    ensures Count(Run(cfg, START, steps).db.attempts, id) <= cfg.maxRetries + 1
  {
    ReachableInv(cfg, steps);
    assert RetriesOk(cfg, Run(cfg, START, steps).db, id);
  }

  /** Retry conservation: the count is the retries the attempts cost plus the forced failures. */
  lemma RetryConservation(cfg: Config, steps: seq<Step>, id: nat)
    requires id in Run(cfg, START, steps).db.items
    ensures var db := Run(cfg, START, steps).db;
            db.items[id].retryCount == RetriesSpent(db.attempts, id) + ForcedFailures(db.admin, id)
  {
    ReachableInv(cfg, steps);
    assert RetriesOk(cfg, Run(cfg, START, steps).db, id);
  }

  /** In progress, token, claim time and exactly one open attempt go together. */
  lemma LeaseBijection(cfg: Config, steps: seq<Step>, id: nat)
    requires id in Run(cfg, START, steps).db.items
    ensures var db := Run(cfg, START, steps).db;
            var it := db.items[id];
            && (it.status == InProgress <==> it.token != 0)
            && (it.status == InProgress <==> it.claimedAt.Some?)
            && (it.status == InProgress <==>
                  exists k :: 0 <= k < |db.attempts| && IsOpen(db.attempts[k], id) && db.attempts[k].token == it.token)
            && forall j, k :: 0 <= j < |db.attempts| && 0 <= k < |db.attempts| ==>
                 IsOpen(db.attempts[j], id) && IsOpen(db.attempts[k], id) ==> j == k
  {
    ReachableInv(cfg, steps);
    var db := Run(cfg, START, steps).db;
    assert LeaseOk(db, id);
  }

  /** The optimistic failure is atomic: if it is accepted, the count it writes is the current
      count plus one, whatever happened since the count was read, and the item waits for a retry
      exactly when one was asked for and is left. */
  lemma OptimisticFailIsAtomic(cfg: Config, steps: seq<Step>, op: Op)
    requires op.Fail?
    requires var w := Run(cfg, START, steps); WasRead(w, op) && Accepts(cfg, w.db, op)
    ensures var db := Run(cfg, START, steps).db;
            var n := db.items[op.id].retryCount + 1;
            var again := op.retry && n <= cfg.maxRetries;
            && op.seenCount == db.items[op.id].retryCount
            && Apply(cfg, db, op).items[op.id] ==
               db.items[op.id].(status := if again then Pending else Failed, retryCount := n,
                                claimedBy := if again then "" else op.worker, claimedAt := None, token := 0,
                                availableAt := if again then cfg.due(op.now, n) else None)
            && Apply(cfg, db, op) == Apply(cfg, db, op.(seenCount := db.items[op.id].retryCount))
  {
    ReachableInv(cfg, steps);
    ReadIsCurrent(cfg, Run(cfg, START, steps), op);
  }

  /** The optimistic claim is atomic: the payload that was decoded is the stored one, the item
      is due at the time of the claim, and the claim is the one the current row would get. */
  lemma OptimisticClaimIsAtomic(cfg: Config, steps: seq<Step>, op: Op)
    requires op.Claim?
    requires var w := Run(cfg, START, steps); WasRead(w, op) && Accepts(cfg, w.db, op)
    ensures var db := Run(cfg, START, steps).db;
            var it := db.items[op.id];
            && op.seen == Seen(it.payload, it.availableAt) && it.payload.Valid?
            && it.status == Pending && (it.availableAt.None? || it.availableAt.value <= op.now)
            && Apply(cfg, db, op).items[op.id] ==
               it.(status := InProgress, claimedBy := op.worker, claimedAt := Some(op.now), token := op.token, availableAt := None)
  {
    ReachableInv(cfg, steps);
    WriteKeepsRow(cfg, Run(cfg, START, steps).db, op, op.id);
  }

  /** A quarantined item records the decoding error of the payload it really stores. */
  lemma OptimisticPoisonIsAtomic(cfg: Config, steps: seq<Step>, op: Op)
    requires op.Poison?
    requires var w := Run(cfg, START, steps); WasRead(w, op) && Accepts(cfg, w.db, op)
    ensures var db := Run(cfg, START, steps).db;
            && db.items[op.id].payload == Malformed(op.seen.payload.error)
            && Apply(cfg, db, op).poison == db.poison + [PoisonEvent(op.id, op.seen.payload.error, op.now)]
  {
    ReachableInv(cfg, steps);
  }

  // ---------- Attempts are append-only, and closed ones are final ----------

  ghost predicate Extends(a: seq<Attempt>, b: seq<Attempt>) {
    && |a| <= |b|
    && forall k :: 0 <= k < |a| ==>
         && (b[k].item, b[k].token, b[k].claimedBy, b[k].startedAt) == (a[k].item, a[k].token, a[k].claimedBy, a[k].startedAt)
         && (a[k].outcome.Some? ==> b[k] == a[k])
  }

  lemma WriteExtends(cfg: Config, db: Db, op: Op)
    requires Inv(cfg, db) && (op.id in db.items ==> CountIsCurrent(db.items[op.id], op))
    ensures Extends(db.attempts, Apply(cfg, db, op).attempts)
  {
    if Accepts(cfg, db, op) && !op.Add? {
      var c := Effect(cfg, db.items[op.id], op).value;
      assert LeaseOk(db, op.id);
      EffectShape(cfg, db.items[op.id], op);
      var k := AttemptsAfter(cfg, db, op, c);
    }
  }

  /** In every run the attempt log only grows, and a closed attempt is never rewritten. */
  lemma {:induction false} RunExtends(cfg: Config, w: World, steps: seq<Step>)
    requires WorldInv(cfg, w)
    ensures Extends(w.db.attempts, Run(cfg, w, steps).db.attempts)
    decreases |steps|
  {
    if steps != [] {
      var n := Next(cfg, w, steps[0]);
      NextKeepsWorld(cfg, w, steps[0]);
      if steps[0].Write? && WasRead(w, steps[0].op) {
        if steps[0].op.id in w.db.items { ReadIsCurrent(cfg, w, steps[0].op); }
        WriteExtends(cfg, w.db, steps[0].op);
      }
      RunExtends(cfg, n, steps[1..]);
    }
  }

  /** A worker's write that presents a claim token. */
  predicate Presents(op: Op, token: nat) {
    (op.Renew? || op.Complete? || op.Fail? || op.Bind? || op.Expire?) && op.token == token
  }

  lemma ClosedTokenRefused(cfg: Config, db: Db, k: nat, op: Op)
    requires Inv(cfg, db) && k < |db.attempts| && db.attempts[k].outcome.Some?
    requires Presents(op, db.attempts[k].token)
    ensures !Accepts(cfg, db, op)
  {
  }

  /** Fencing: once an attempt is closed, nothing that presents its token is ever accepted
      again, in any continuation of the run. */
  lemma ClosedIsFenced(cfg: Config, before: seq<Step>, after: seq<Step>, k: nat, op: Op)
    requires var db := Run(cfg, START, before).db;
             k < |db.attempts| && db.attempts[k].outcome.Some? && Presents(op, db.attempts[k].token)
    ensures !Accepts(cfg, Run(cfg, Run(cfg, START, before), after).db, op)
  {
    var w := Run(cfg, START, before);
    ReachableInv(cfg, before);
    RunKeepsWorld(cfg, w, after);
    RunExtends(cfg, w, after);
    ClosedTokenRefused(cfg, Run(cfg, w, after).db, k, op);
  }
}
