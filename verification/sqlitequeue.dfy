/** The queue as its methods work: tables updated in place, rows read first and written
    under a guard. Rival workers may write between a read and the guarded write. */
module SqliteQueues {
  import opened Options
  import opened Texts
  import opened QueueSpec
  import opened QueueInvariants
  import opened QueueSteps

  datatype ForceError = BlankReason | NotFound

  /** Time as the store reads it: it never goes back. */
  class Clock {
    var time: nat

    constructor (time: nat)
      ensures this.time == time
    {
      this.time := time;
    }

    method Now() returns (now: nat)
      modifies this
      ensures now == time >= old(time)
    {
      var passed: nat :| true;
      time := time + passed;
      now := time;
    }
  }

  class SqliteQueue {
    const cfg: Config
    var items: map<nat, Item>
    var attempts: seq<Attempt>
    var admin: seq<AdminEvent>
    var poison: seq<PoisonEvent>

    constructor (cfg: Config)
      ensures Valid() && this.cfg == cfg && State() == EMPTY
    {
      this.cfg, items, attempts, admin, poison := cfg, map[], [], [], [];
    }

    function State(): Db
      reads this
    {
      Db(items, attempts, admin, poison)
    }

    ghost predicate Valid()
      reads this
    {
      Inv(cfg, State())
    }

    /** Rival workers act; their writes are given. */
    method LetRivals(ops: seq<Op>)
      modifies this
      ensures State() == Rivals(cfg, old(State()), ops)
    {
      var db := Rivals(cfg, State(), ops);
      items, attempts, admin, poison := db.items, db.attempts, db.admin, db.poison;
    }

    /** `add`: one row, unless its id is in use. */
    method AddItem(id: nat, item: Item) returns (ok: bool)
      modifies this
      ensures ok == (id !in old(items))
      ensures State() == if ok then old(State()).(items := old(items)[id := item]) else old(State())
      ensures NewItem(item) ==> State() == Apply(cfg, old(State()), Add(id, item, 0))
    {
      ok := id !in items;
      if ok {
        items := items[id := item];
      }
    }

    method RenewLease(id: nat, worker: string, token: nat, now: nat) returns (ok: bool)
      modifies this
      ensures State() == Apply(cfg, old(State()), Renew(id, worker, token, now))
      ensures ok == (id in old(items) && Presented(old(items)[id], worker, token))
      ensures items == if ok then old(items)[id := old(items)[id].(claimedAt := Some(now))] else old(items)
    {
      ok := id in items && Holds(items[id], worker, token);
      if ok {
        items := items[id := items[id].(claimedAt := Some(now))];
      }
    }

    method CompleteItem(id: nat, worker: string, token: nat, now: nat) returns (ok: bool)
      modifies this
      ensures State() == Apply(cfg, old(State()), Complete(id, worker, token, now))
      ensures ok == (id in old(items) && Presented(old(items)[id], worker, token))
      ensures items ==
              if ok then old(items)[id := old(items)[id].(status := Successful, claimedAt := None, token := 0, availableAt := None)]
              else old(items)
    {
      ok := id in items && Holds(items[id], worker, token);
      if ok {
        items := items[id := items[id].(status := Successful, claimedAt := None, token := 0, availableAt := None)];
        attempts := CloseAttempt(attempts, id, token, Succeeded, now);
      }
    }

    /** The guarded update of `fail`, with the count its caller read. */
    method WriteFailure(id: nat, worker: string, token: nat, seen: nat, retry: bool, now: nat) returns (outcome: Option<Outcome>)
      modifies this
      ensures State() == Apply(cfg, old(State()), Fail(id, worker, token, seen, retry, now))
      ensures outcome.Some? == Accepts(cfg, old(State()), Fail(id, worker, token, seen, retry, now))
      ensures outcome.Some? ==> id in old(items) && id in items && FailedRow(cfg, old(items)[id], items[id], worker, seen, retry, now)
      ensures outcome.Some? ==> outcome.value == if retry && seen + 1 <= cfg.maxRetries then RetryScheduled else TerminalFailure
    {
      var count := seen + 1;
      var pending := retry && count <= cfg.maxRetries;
      if id !in items || !Holds(items[id], worker, token) {
        return None;
      }
      items := items[id := items[id].(status := if pending then Pending else Failed, retryCount := count,
                                      claimedBy := if pending then "" else worker, claimedAt := None, token := 0,
                                      availableAt := if pending then cfg.due(now, count) else None)];
      outcome := Some(if pending then RetryScheduled else TerminalFailure);
      attempts := CloseAttempt(attempts, id, token, outcome.value, now);
    }

    /** `fail`: the count is read first; `rivals` write before the guarded update. A failure
        that is accepted is the one an atomic `fail` would have made at that moment: it waits for
        a retry exactly when one is asked for and left. */
    method FailItem(id: nat, worker: string, token: nat, retry: bool, rivals: seq<Op>, now: nat)
      returns (outcome: Option<Outcome>)
      requires Valid()
      modifies this
      ensures outcome.None? ==> State() == old(State()) || State() == Rivals(cfg, old(State()), rivals)
      ensures rivals == [] ==> (outcome.Some? <==> id in old(items) && Presented(old(items)[id], worker, token))
      ensures outcome.Some? ==>
                && id in Rivals(cfg, old(State()), rivals).items
                && var mid := Rivals(cfg, old(State()), rivals);
                   && Accepts(cfg, mid, Fail(id, worker, token, mid.items[id].retryCount, retry, now))
                   && State() == Apply(cfg, mid, Fail(id, worker, token, mid.items[id].retryCount, retry, now))
                   && Presented(mid.items[id], worker, token) && id in items
                   && var n := mid.items[id].retryCount;
                      && FailedRow(cfg, mid.items[id], items[id], worker, n, retry, now)
                      && outcome.value == if retry && n + 1 <= cfg.maxRetries then RetryScheduled else TerminalFailure
    {
      if id !in items || !Holds(items[id], worker, token) {
        return None;
      }
      var seen := items[id].retryCount;
      RivalsKeepCount(cfg, State(), rivals, id);
      LetRivals(rivals);
      outcome := WriteFailure(id, worker, token, seen, retry, now);
    }

    /** The writes of an override, under one lock. */
    method WriteForce(id: nat, completes: bool, retry: bool, reason: string, now: nat)
      requires id in items
      modifies this
      ensures State() == Apply(cfg, old(State()), Force(id, completes, retry, reason, now))
      ensures ForcedRow(cfg, old(State()), State(), id, completes, retry, reason, now)
    {
      var it := items[id];
      var count, status := it.retryCount, Successful;
      if !completes {
        count := count + 1;
        status := if retry && count <= cfg.maxRetries then Pending else Failed;
      }
      var available := if status == Pending then cfg.due(now, count) else None;
      items := items[id := it.(status := status, retryCount := count, claimedBy := "", claimedAt := None, token := 0,
                               availableAt := available)];
      if it.token != 0 {
        attempts := CloseAttempt(attempts, id, it.token, AdminOverride, now);
      }
      admin := admin + [AdminEvent(id, completes, reason, it.status, status, now)];
    }

    /** `_force_transition`: a blank reason or an unknown item is refused; the audit event
        carries the stripped reason. */
    method ForceItem(id: nat, completes: bool, retry: bool, reason: string, now: nat) returns (error: Option<ForceError>)
      modifies this
      ensures error == if Blank(reason) then Some(BlankReason) else if id !in old(items) then Some(NotFound) else None
      ensures State() == if error.Some? then old(State())
                         else Apply(cfg, old(State()), Force(id, completes, retry, Strip(reason), now))
      ensures error.None? ==> ForcedRow(cfg, old(State()), State(), id, completes, retry, Strip(reason), now)
    {
      StripBlank(reason);
      if Strip(reason) == "" {
        return Some(BlankReason);
      }
      if id !in items {
        return Some(NotFound);
      }
      WriteForce(id, completes, retry, Strip(reason), now);
      error := None;
    }

    /** One row of the reclaim loop. */
    method ExpireItem(id: nat, row: Item, now: nat)
      requires id in items && items[id] == row && Stale(cfg, row, now) && row.token != 0
      modifies this
      ensures State() == Apply(cfg, old(State()), Expire(id, row.token, now))
      ensures items == old(items)[id := Expired(cfg, row, now)]
    {
      var count := row.retryCount + 1;
      var pending := count <= cfg.maxRetries;
      items := items[id := row.(status := if pending then Pending else Failed, retryCount := count,
                                claimedBy := if pending then "" else row.claimedBy, claimedAt := None, token := 0,
                                availableAt := if pending then cfg.due(now, count) else None)];
      attempts := CloseAttempt(attempts, id, row.token, LeaseExpired, now);
    }

    method ReclaimOne(rows: map<nat, Item>, ghost stale: set<nat>, id: nat, now: nat, ghost db: Db, ghost ops: seq<Op>)
      returns (ghost after: seq<Op>)
      requires id in stale && Reclaiming(cfg, rows, items, stale, now) && State() == RunOps(cfg, db, ops)
      modifies this
      ensures Reclaiming(cfg, rows, items, stale - {id}, now)
      ensures after == ops + [Expire(id, rows[id].token, now)] && State() == RunOps(cfg, db, after)
    {
      ExpireItem(id, rows[id], now);
      after := ops + [Expire(id, rows[id].token, now)];
      RunOneMore(cfg, db, ops, Expire(id, rows[id].token, now));
    }

    /** The reclaim transaction of `next_item`: every stale lease, and nothing else, expires. */
    method ReclaimStale(now: nat) returns (ghost ops: seq<Op>)
      requires Valid()
      modifies this
      ensures State() == RunOps(cfg, old(State()), ops)
      ensures Reclaimed(cfg, old(State()), ops, now)
    {
      var rows := items;
      var stale := set id | id in rows && Stale(cfg, rows[id], now);
      StaleHaveTokens(cfg, State(), now);
      ops := [];
      while stale != {}
        invariant Reclaiming(cfg, rows, items, stale, now)
        invariant State() == RunOps(cfg, old(State()), ops)
        invariant forall op :: op in ops ==> op.Expire?
        decreases stale
      {
        var id :| id in stale;
        ops := ReclaimOne(rows, stale, id, now, old(State()), ops);
        stale := stale - {id};
      }
    }

    /** The selecting read: the eligible row with the least creation time, then id. */
    method Oldest(now: nat) returns (found: Option<nat>)
      ensures if found.Some? then OldestOf(items, found.value, now) else NothingDue(items, now)
    {
      var left := set id | id in items && Eligible(items[id], now);
      found := None;
      while left != {}
        invariant left <= items.Keys
        invariant found.Some? ==> found.value in items && Eligible(items[found.value], now)
        invariant forall id :: id in items && Eligible(items[id], now) && id !in left ==>
                    found.Some? && NoLater(items, found.value, id)
        decreases left
      {
        var id :| id in left;
        if found.None? || NoLater(items, id, found.value) {
          found := Some(id);
        }
        left := left - {id};
      }
    }

    /** The guarded quarantine of an undecodable payload. */
    method WritePoison(id: nat, seen: Seen, now: nat) returns (ok: bool)
      requires seen.payload.Malformed?
      modifies this
      ensures State() == Apply(cfg, old(State()), Poison(id, seen, now))
      ensures ok == (id in old(items) && StillOffered(old(items)[id], seen, now))
      ensures if ok then items == old(items)[id := old(items)[id].(status := Failed, claimedBy := "", claimedAt := None,
                                                                    token := 0, availableAt := None)]
                         && poison == old(poison) + [PoisonEvent(id, seen.payload.error, now)]
              else items == old(items) && poison == old(poison)
    {
      ok := id in items && Claimable(items[id], seen, now);
      if ok {
        items := items[id := items[id].(status := Failed, claimedBy := "", claimedAt := None, token := 0, availableAt := None)];
        poison := poison + [PoisonEvent(id, seen.payload.error, now)];
      }
    }

    /** The guarded claim under a token nobody has used. */
    method WriteClaim(id: nat, seen: Seen, worker: string, token: nat, now: nat) returns (ok: bool)
      requires seen.payload.Valid? && FreshToken(attempts, token)
      modifies this
      ensures State() == Apply(cfg, old(State()), Claim(id, seen, worker, token, now))
      ensures ok == (id in old(items) && StillOffered(old(items)[id], seen, now))
      ensures ok == Accepts(cfg, old(State()), Claim(id, seen, worker, token, now))
    {
      ok := id in items && Claimable(items[id], seen, now);
      if ok {
        items := items[id := items[id].(status := InProgress, claimedBy := worker, claimedAt := Some(now), token := token,
                                        availableAt := None)];
        attempts := attempts + [Attempt(id, token, worker, now, None, None)];
      }
    }

    method Quarantine(id: nat, seen: Seen, clock: Clock)
      requires Valid() && seen.payload.Malformed?
      modifies this, clock
      ensures Valid() && clock.time >= old(clock.time)
      ensures State() == Rivals(cfg, old(State()), [Poison(id, seen, clock.time)])
      ensures old(id in items && Claimable(items[id], seen, clock.time)) ==> PendingIds(items) < old(PendingIds(items))
      ensures OneFailed(old(items), items, id) || items == old(items)
    {
      var now := clock.Now();
      ApplyKeepsInv(cfg, State(), Poison(id, seen, now));
      var ok := WritePoison(id, seen, now);
      assert [Poison(id, seen, now)][1..] == [];
      if ok {
        OneLessPending(old(items), items, id);
      }
    }

    method Take(id: nat, seen: Seen, worker: string, clock: Clock) returns (ok: bool)
      requires Valid() && seen.payload.Valid? && id in items && items[id].payload == seen.payload
      modifies this, clock
      ensures Valid() && clock.time >= old(clock.time)
      ensures old(Claimable(items[id], seen, clock.time)) ==> ok
      ensures if ok then HandedOut(old(State()), State(), id, worker, clock.time) else State() == old(State())
    {
      var token := UnusedToken(attempts);
      var now := clock.Now();
      ApplyKeepsInv(cfg, State(), Claim(id, seen, worker, token, now));
      ok := WriteClaim(id, seen, worker, token, now);
      if ok {
        ClaimMeans(cfg, old(State()), id, seen, worker, token, now);
      }
    }

    /** One round of the claim loop on the selected row. Lost, it leaves the rivals' writes and
        perhaps its own quarantine behind. */
    method ClaimRound(id: nat, worker: string, clock: Clock, rivals: seq<Op>) returns (claimed: bool, ghost own: seq<Op>)
      requires Valid() && id in items && Eligible(items[id], clock.time)
      modifies this, clock
      ensures Valid() && clock.time >= old(clock.time)
      ensures claimed ==> HandedOut(Rivals(cfg, old(State()), rivals), State(), id, worker, clock.time)
      ensures !claimed ==> State() == Rivals(cfg, Rivals(cfg, old(State()), rivals), own) && OwnRound(State(), own)
      ensures !claimed ==> SamePayloads(old(State()), State())
      ensures !claimed && rivals == [] ==> PendingIds(items) < old(PendingIds(items)) && OneFailed(old(items), items, id)
    {
      var seen := Seen(items[id].payload, items[id].availableAt);
      RivalsKeep(cfg, State(), rivals, id);
      RivalsKeepPayloads(cfg, State(), rivals);
      LetRivals(rivals);
      claimed, own := false, [];
      ghost var mid := State();
      if seen.payload.Malformed? {
        Quarantine(id, seen, clock);
        own := [Poison(id, seen, clock.time)];
        RivalsKeepPayloads(cfg, mid, own);
      } else {
        claimed := Take(id, seen, worker, clock);
      }
    }

    /** The claim loop of `next_item`: another round whenever a rival was faster or the payload
        was quarantined. It ends as soon as rivals do, and it takes the oldest item that was due
        when it looked. */
    method ClaimOldest(worker: string, clock: Clock, rivals: seq<seq<Op>>)
      returns (claimed: Option<nat>, ghost lost: seq<seq<Op>>, ghost lookedAt: nat)
      requires Valid()
      modifies this, clock
      ensures Valid() && old(clock.time) <= lookedAt <= clock.time
      ensures SearchEnds(cfg, old(State()), State(), rivals, lost, lookedAt, claimed, worker, clock.time)
    {
      var round := 0;
      lost, lookedAt := [], clock.time;
      while true
        invariant Valid() && round <= |rivals| && clock.time >= old(clock.time)
        invariant round == if |lost| < |rivals| then |lost| else |rivals|
        invariant Searching(cfg, old(State()), State(), rivals, lost)
        decreases |rivals| - round, PendingIds(items)
      {
        var now := clock.Now();
        lookedAt := now;
        var oldest := Oldest(now);
        if oldest.None? {
          return None, lost, lookedAt;
        }
        var others := if round < |rivals| then rivals[round] else [];
        round := if round < |rivals| then round + 1 else round;
        ghost var was := State();
        ghost var own;
        var ok;
        ok, own := ClaimRound(oldest.value, worker, clock, others);
        if ok {
          return oldest, lost, lookedAt;
        }
        RoundLost(cfg, old(State()), was, State(), rivals, lost, own, oldest.value);
        lost := lost + [own];
      }
    }

    /** `next_item`: stale leases expire first, then the claim loop runs. */
    method NextItem(worker: string, clock: Clock, rivals: seq<seq<Op>>)
      returns (claimed: Option<nat>, ghost expiries: seq<Op>, ghost reclaimedAt: nat, ghost lost: seq<seq<Op>>, ghost lookedAt: nat)
      requires Valid()
      modifies this, clock
      ensures Valid() && old(clock.time) <= reclaimedAt <= lookedAt <= clock.time
      ensures Reclaimed(cfg, old(State()), expiries, reclaimedAt)
      ensures SearchEnds(cfg, RunOps(cfg, old(State()), expiries), State(), rivals, lost, lookedAt, claimed, worker, clock.time)
    {
      var now := clock.Now();
      reclaimedAt := now;
      ghost var db := State();
      expiries := ReclaimStale(now);
      ExpiriesKeepInv(cfg, db, expiries);
      claimed, lost, lookedAt := ClaimOldest(worker, clock, rivals);
    }
  }
}
