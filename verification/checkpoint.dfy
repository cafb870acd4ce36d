/** The fenced checkpoint: one atomic step over the queue and the transaction store. */
module Checkpoints {
  import opened Options
  import opened Records
  import opened Objects
  import opened Tables
  import opened TransactionStores
  import Q = QueueSpec
  import SqliteQueues

  /** Who saves: the item, the worker and the claim token, and the revision last seen. */
  datatype Writer = Writer(item: nat, worker: string, token: nat, revision: int)

  predicate ClaimCurrent(db: Q.Db, w: Writer, id: nat) {
    && w.item in db.items && Q.Holds(db.items[w.item], w.worker, w.token)
    && (db.items[w.item].transactionId == 0 || db.items[w.item].transactionId == id)
  }

  /** Why a fenced save is refused, in the order in which the reasons are looked for. */
  function FencedRefusal(db: Q.Db, st: Store, w: Writer, id: nat, v: Snapshot, rows: seq<StepRow>, initial: bool): Option<SaveError> {
    if w.token == 0 then Some(NoCredential)
    else if w.revision < 0 || (initial && w.revision != 0) then Some(BadRevision)
    else if initial && id == 0 then Some(BlankId)
    else if !ClaimCurrent(db, w, id) then Some(StaleClaim)
    else if initial && id in st.headers then Some(AlreadyExists)
    else Refusal(st, id, v, rows, Some(Fence(w.revision, w.item, w.token)))
  }

  /** What the caller hands over makes sense in itself. */
  predicate WellFormed(w: Writer, id: nat, initial: bool) {
    w.token != 0 && w.revision >= 0 && (initial ==> w.revision == 0 && id != 0)
  }

  /** The row is gone, not in progress, claimed by another worker or under another token, or bound
      to another transaction. */
  predicate ClaimLost(items: map<nat, Q.Item>, w: Writer, id: nat) {
    || w.item !in items
    || items[w.item].status != Q.InProgress
    || items[w.item].claimedBy != w.worker
    || items[w.item].token != w.token
    || (items[w.item].transactionId != 0 && items[w.item].transactionId != id)
  }

  predicate RepeatedStep(rows: seq<StepRow>) {
    exists i, j :: 0 <= i < j < |rows| && rows[i].name == rows[j].name && rows[i].order == rows[j].order
  }

  /** Each reason, and that nothing else is refused: a caller can tell a lost claim from a used
      transaction id, a changed definition, a stale revision and a repeated step. */
  lemma RefusalReasons(db: Q.Db, st: Store, w: Writer, id: nat, v: Snapshot, rows: seq<StepRow>, initial: bool)
    ensures var r := FencedRefusal(db, st, w, id, v, rows, initial);
            var current := WellFormed(w, id, initial) && !ClaimLost(db.items, w, id);
            var stored := id in st.headers;
            var usable := current && !(initial && stored);
            var same := usable && !(stored && st.headers[id].identity != v.identity);
            var latest := same && w.revision == if stored then st.headers[id].revision else 0;
            && (r == Some(NoCredential) <==> w.token == 0)
            && (r == Some(BadRevision) <==> w.token != 0 && (w.revision < 0 || (initial && w.revision != 0)))
            && (r == Some(BlankId) <==> w.token != 0 && initial && w.revision == 0 && id == 0)
            && (r == Some(StaleClaim) <==> WellFormed(w, id, initial) && ClaimLost(db.items, w, id))
            && (r == Some(AlreadyExists) <==> current && initial && stored)
            && (r == Some(IdentityImmutable) <==> usable && stored && st.headers[id].identity != v.identity)
            && (r == Some(StaleRevision) <==> same && w.revision != if stored then st.headers[id].revision else 0)
            && (r == Some(DuplicateStepId) <==> latest && RepeatedStep(rows))
            && (r == None <==> latest && !RepeatedStep(rows))
  {
    assert DistinctKeys(rows) <==> !RepeatedStep(rows) by {
      if RepeatedStep(rows) {
        var i, j :| 0 <= i < j < |rows| && rows[i].name == rows[j].name && rows[i].order == rows[j].order;
        assert rows[i].StepKey() == rows[j].StepKey();
      }
    }
  }

  /** The header an accepted save writes: the snapshot's fields, one revision on, under the
      writer's item and token. */
  lemma SavedHeader(st: Store, w: Writer, id: nat, v: Snapshot)
    requires w.revision >= 0
    ensures NextHeader(st, id, v, Some(Fence(w.revision, w.item, w.token))) ==
            Header(v.reference, v.identity, v.status, v.retryCount, v.category, v.disposition, v.failureCode,
                   (if id in st.headers then st.headers[id].revision else 0) + 1, Some(w.item), w.token)
  {
  }

  function Bound(db: Q.Db, w: Writer, id: nat): Q.Db
    requires w.item in db.items
  {
    db.(items := db.items[w.item := db.items[w.item].(transactionId := id)])
  }

  /** `_save_queue_transaction_fenced`: both databases change together, or neither does. */
  method SaveFenced(queue: SqliteQueues.SqliteQueue, store: TransactionStore, w: Writer, id: nat, tx: Transaction, initial: bool)
    returns (r: Result<nat, SaveError>)
    requires store as object != tx && queue as object != tx && queue as object != store
    modifies queue, store
    ensures r == Failure(StaleClaim) <==> WellFormed(w, id, initial) && ClaimLost(old(queue.items), w, id)
    ensures r == Failure(AlreadyExists) <==>
            WellFormed(w, id, initial) && !ClaimLost(old(queue.items), w, id) && initial && id in old(store.headers)
    ensures var v := old(tx.View());
            match FencedRefusal(old(queue.State()), old(store.State()), w, id, v, old(Rows(tx.steps)), initial)
            case Some(e) => r == Failure(e) && queue.State() == old(queue.State()) && store.State() == old(store.State())
            case None =>
              var h := NextHeader(old(store.State()), id, v, Some(Fence(w.revision, w.item, w.token)));
              && r == Success(h.revision)
              && store.State() == Write(old(store.State()), id, h, old(Rows(tx.steps)), v.history)
              && queue.State() == if initial then Bound(old(queue.State()), w, id) else old(queue.State())
  {
    RefusalReasons(queue.State(), store.State(), w, id, tx.View(), Rows(tx.steps), initial);
    if w.token == 0 {
      return Failure(NoCredential);
    }
    if w.revision < 0 || (initial && w.revision != 0) {
      return Failure(BadRevision);
    }
    if initial && id == 0 {
      return Failure(BlankId);
    }
    var saved := store.State();
    if !ClaimCurrent(queue.State(), w, id) {
      return Failure(StaleClaim);
    }
    if initial && id in store.headers {
      return Failure(AlreadyExists);
    }
    r := store.WriteTransactionRows(id, tx, Some(Fence(w.revision, w.item, w.token)));
    if r.Failure? {
      store.Restore(saved);
      return;
    }
    if initial {
      queue.items := queue.items[w.item := queue.items[w.item].(transactionId := id)];
    }
  }

  /** The binding half of an initial save is the queue's own `Bind` step, and it is accepted. */
  lemma BindingIsAQueueStep(cfg: Q.Config, db: Q.Db, w: Writer, id: nat, now: nat)
    requires w.token != 0 && id != 0 && ClaimCurrent(db, w, id)
    ensures var op := Q.Bind(w.item, w.worker, w.token, id, now);
            Q.Accepts(cfg, db, op) && Q.Apply(cfg, db, op) == Bound(db, w, id)
  {
    assert Q.Effect(cfg, db.items[w.item], Q.Bind(w.item, w.worker, w.token, id, now)).Some?;
  }
}
