/** What every reachable state of the whole system satisfies. */
module SystemInvariants {
  import opened Options
  import opened Records
  import opened EngineSpec
  import opened EngineFacts
  import EngineLemmas
  import opened EngineRuns
  import opened EngineChain
  import opened RecoverySpec
  import Sessions
  import opened Tables
  import opened SystemSpec
  import Q = QueueSpec
  import QI = QueueInvariants
  import QR = QueueRuns

  // ---------- Plans: what a session still has to save ----------

  /** The rest of a run over the snapshot last saved: histories extend one another, only the
      last checkpoint can be successful, and nothing is left to save over a success. */
  ghost predicate PlanOk(base: Snapshot, plan: seq<Snapshot>) {
    && (plan != [] ==> base.status != Successful)
    && (forall k :: 0 <= k < |plan| ==>
          plan[k].identity == base.identity && Numbered(plan[k].history) && SuccessFinal(plan[k]) && base.history <= plan[k].history)
    && (forall j, k :: 0 <= j < k < |plan| ==> plan[j].history <= plan[k].history)
    && (forall k :: 0 <= k < |plan| - 1 ==> plan[k].status == InProgress)
  }

  lemma PlanAdvances(base: Snapshot, plan: seq<Snapshot>)
    requires PlanOk(base, plan) && plan != []
    ensures PlanOk(plan[0], plan[1..])
  {
  }

  /** The checkpoints of a run that starts from a snapshot or its resumption. */
  lemma RunIsPlan(base: Snapshot, t: Snapshot, maxRetries: nat, oracle: Oracle)
    requires Continues(base, t) && Numbered(base.history) && SuccessFinal(t) && base.status != Successful
    ensures PlanOk(base, Run(t, maxRetries, oracle).log)
  {
    RunContinues(t, maxRetries, oracle);
    RunKeepsSuccess(t, maxRetries, oracle);
    RunCheckpoints(t, maxRetries, oracle);
    RunChains(t, maxRetries, oracle);
    var log := Run(t, maxRetries, oracle).log;
    forall k | 0 <= k < |log|
      ensures log[k].identity == base.identity && Numbered(log[k].history) && base.history <= log[k].history
    {
      assert Continues(t, log[k]);
      ContinuesTransitive(base, t, log[k]);
    }
  }

  // ---------- The invariant ----------

  ghost predicate AttemptFor(db: Q.Db, token: nat, item: nat) {
    exists k :: 0 <= k < |db.attempts| && db.attempts[k].token == token && db.attempts[k].item == item
  }

  ghost predicate SessionOk(s: Sys, token: nat, l: Session) {
    && token != 0 && l.item in s.queue.items && AttemptFor(s.queue, token, l.item)
    && match l.phase
       case Claimed(b) => b == 0 || s.queue.items[l.item].transactionId == b
       case Working(tx, revision, base, plan) =>
         && s.queue.items[l.item].transactionId == tx && tx in s.stored
         && revision <= s.stored[tx].revision
         && (revision == s.stored[tx].revision ==> s.stored[tx].snapshot == base)
         && (Q.Holds(s.queue.items[l.item], l.worker, token) ==> revision == s.stored[tx].revision)
         && PlanOk(base, plan)
  }

  /** Bindings and stored transactions point at each other. */
  ghost predicate BindingOk(s: Sys) {
    && (forall id :: id in s.queue.items && s.queue.items[id].transactionId != 0 ==>
          s.queue.items[id].transactionId in s.stored && s.stored[s.queue.items[id].transactionId].item == id)
    && (forall tx :: tx in s.stored ==>
          tx != 0 && s.stored[tx].item in s.queue.items && s.queue.items[s.stored[tx].item].transactionId == tx)
  }

  ghost predicate StoredOk(st: Stored) {
    Numbered(st.snapshot.history) && SuccessFinal(st.snapshot)
  }

  function SavesOf(saves: seq<SaveRecord>, tx: nat): nat {
    if saves == [] then 0
    else SavesOf(saves[..|saves| - 1], tx) + if saves[|saves| - 1].tx == tx then 1 else 0
  }

  /** Every save was made by an attempt of its item, on a stored transaction. */
  ghost predicate SavesOwned(attempts: seq<Q.Attempt>, saves: seq<SaveRecord>, stored: map<nat, Stored>) {
    forall i :: 0 <= i < |saves| ==>
      saves[i].attempt < |attempts| && attempts[saves[i].attempt].item == saves[i].item && saves[i].tx in stored
  }

  /** Successive saves for an item are made by attempts that never go back. */
  ghost predicate SavesInOrder(saves: seq<SaveRecord>) {
    forall i, j :: 0 <= i < j < |saves| && saves[i].item == saves[j].item ==> saves[i].attempt <= saves[j].attempt
  }

  /** A transaction's revision is the number of saves it has had. */
  ghost predicate SavesCounted(saves: seq<SaveRecord>, stored: map<nat, Stored>) {
    forall tx :: tx in stored ==> stored[tx].revision == SavesOf(saves, tx)
  }

  ghost predicate SavesOk(s: Sys) {
    SavesOwned(s.queue.attempts, s.saves, s.stored) && SavesInOrder(s.saves) && SavesCounted(s.saves, s.stored)
  }

  predicate ForcedComplete(admin: seq<Q.AdminEvent>, id: nat) {
    exists k :: 0 <= k < |admin| && admin[k].item == id && admin[k].completes
  }

  /** A successful item is the successful end of its transaction, or an operator's decision. */
  ghost predicate SuccessOk(s: Sys, id: nat)
    requires id in s.queue.items
  {
    var it := s.queue.items[id];
    it.status == Q.Successful ==>
      || ForcedComplete(s.queue.admin, id)
      || (it.transactionId in s.stored && s.stored[it.transactionId].snapshot.status == Successful)
  }

  ghost predicate SessionsOk(s: Sys) {
    forall token :: token in s.sessions ==> SessionOk(s, token, s.sessions[token])
  }

  ghost predicate AllStoredOk(s: Sys) {
    forall tx :: tx in s.stored ==> StoredOk(s.stored[tx])
  }

  ghost predicate AllSuccessOk(s: Sys) {
    forall id :: id in s.queue.items ==> SuccessOk(s, id)
  }

  ghost predicate SysInv(cfg: Q.Config, s: Sys) {
    && QI.Inv(cfg, s.queue) && SessionsOk(s) && BindingOk(s) && AllStoredOk(s) && SavesOk(s) && AllSuccessOk(s)
  }

  // ---------- What a queue write leaves alone ----------

  /** The queue moved on: no binding changed, no claim came back, attempts only grew. */
  ghost predicate QueueMoved(before: Q.Db, after: Q.Db) {
    && (forall id :: id in before.items ==>
          id in after.items && after.items[id].transactionId == before.items[id].transactionId)
    && (forall id :: id in after.items && id !in before.items ==>
          after.items[id].transactionId == 0 && after.items[id].status == Q.Pending)
    && QR.Extends(before.attempts, after.attempts)
    && before.admin <= after.admin
    && (forall id, worker, token :: id in before.items && QR.TokenUsed(before, token) && Q.Holds(after.items[id], worker, token) ==>
          Q.Holds(before.items[id], worker, token))
  }

  predicate SuccessByQueue(before: Q.Db, after: Q.Db, id: nat)
    requires id in before.items && id in after.items
  {
    after.items[id].status == Q.Successful && before.items[id].status != Q.Successful
  }

  lemma EffectKeepsBinding(cfg: Q.Config, it: Q.Item, op: Q.Op)
    requires Q.Effect(cfg, it, op).Some? && !op.Bind?
    ensures Q.Effect(cfg, it, op).value.item.transactionId == it.transactionId
  {
  }

  lemma WriteKeepsRows(cfg: Q.Config, db: Q.Db, op: Q.Op)
    requires !op.Bind?
    ensures var after := Q.Apply(cfg, db, op);
            && db.admin <= after.admin
            && (forall id :: id in db.items ==>
                  id in after.items && after.items[id].transactionId == db.items[id].transactionId)
            && (forall id :: id in after.items && id !in db.items ==>
                  after.items[id].transactionId == 0 && after.items[id].status == Q.Pending)
  {
  }

  lemma WriteRevivesNoClaim(cfg: Q.Config, db: Q.Db, op: Q.Op, id: nat, worker: string, token: nat)
    requires QI.Inv(cfg, db) && (op.id in db.items ==> QI.CountIsCurrent(db.items[op.id], op))
    requires id in db.items && QR.TokenUsed(db, token)
    ensures id in Q.Apply(cfg, db, op).items
    ensures Q.Holds(Q.Apply(cfg, db, op).items[id], worker, token) ==> Q.Holds(db.items[id], worker, token)
  {
    QR.WriteKeepsRow(cfg, db, op, id);
    assert QI.LeaseOk(db, id);
  }

  lemma WriteMoves(cfg: Q.Config, db: Q.Db, op: Q.Op)
    requires QI.Inv(cfg, db) && !op.Bind? && (op.id in db.items ==> QI.CountIsCurrent(db.items[op.id], op))
    ensures QueueMoved(db, Q.Apply(cfg, db, op))
    ensures QI.Inv(cfg, Q.Apply(cfg, db, op))
  {
    var after := Q.Apply(cfg, db, op);
    QI.ApplyKeepsInv(cfg, db, op);
    QR.WriteExtends(cfg, db, op);
    WriteKeepsRows(cfg, db, op);
    forall id, worker, token | id in db.items && QR.TokenUsed(db, token) && Q.Holds(after.items[id], worker, token)
      ensures Q.Holds(db.items[id], worker, token)
    {
      WriteRevivesNoClaim(cfg, db, op, id, worker, token);
    }
  }

  lemma QueueMoveKeepsSession(s: Sys, queue: Q.Db, token: nat, l: Session)
    requires SessionOk(s, token, l) && QueueMoved(s.queue, queue)
    ensures SessionOk(s.(queue := queue), token, l)
  {
  }

  lemma QueueMoveKeepsSaves(s: Sys, queue: Q.Db)
    requires SavesOk(s) && QueueMoved(s.queue, queue)
    ensures SavesOk(s.(queue := queue))
  {
  }

  lemma QueueMoveKeepsBindings(s: Sys, queue: Q.Db)
    requires BindingOk(s) && QueueMoved(s.queue, queue)
    ensures BindingOk(s.(queue := queue))
  {
  }

  lemma QueueMoveKeepsSuccess(s: Sys, queue: Q.Db, id: nat)
    requires QueueMoved(s.queue, queue) && id in queue.items
    requires id in s.queue.items ==> SuccessOk(s, id)
    requires id in s.queue.items && SuccessByQueue(s.queue, queue, id) ==>
               ForcedComplete(queue.admin, id)
               || (s.queue.items[id].transactionId in s.stored && s.stored[s.queue.items[id].transactionId].snapshot.status == Successful)
    ensures SuccessOk(s.(queue := queue), id)
  {
  }

  /** An item the queue marks successful is forced, or its transaction is successful. */
  ghost predicate Justified(s: Sys, queue: Q.Db) {
    forall id :: id in s.queue.items && id in queue.items && SuccessByQueue(s.queue, queue, id) ==>
      ForcedComplete(queue.admin, id)
      || (s.queue.items[id].transactionId in s.stored && s.stored[s.queue.items[id].transactionId].snapshot.status == Successful)
  }

  /** A queue write by anyone, with the sessions, storage and saves as they were. */
  lemma QueueMoveKeeps(cfg: Q.Config, s: Sys, op: Q.Op)
    requires SysInv(cfg, s) && !op.Bind? && (op.id in s.queue.items ==> QI.CountIsCurrent(s.queue.items[op.id], op))
    requires Justified(s, Q.Apply(cfg, s.queue, op))
    ensures SysInv(cfg, s.(queue := Q.Apply(cfg, s.queue, op)))
    ensures QueueMoved(s.queue, Q.Apply(cfg, s.queue, op))
  {
    var queue := Q.Apply(cfg, s.queue, op);
    WriteMoves(cfg, s.queue, op);
    QueueMoveKeepsSaves(s, queue);
    QueueMoveKeepsBindings(s, queue);
    forall token | token in s.sessions ensures SessionOk(s.(queue := queue), token, s.sessions[token]) {
      QueueMoveKeepsSession(s, queue, token, s.sessions[token]);
    }
    forall id | id in queue.items ensures SuccessOk(s.(queue := queue), id) {
      QueueMoveKeepsSuccess(s, queue, id);
    }
  }

  // ---------- Every move keeps the invariant ----------

  lemma OutsideSuccessIsForced(cfg: Q.Config, db: Q.Db, op: Q.Op, id: nat)
    requires id in db.items && !op.Complete?
    requires id in Q.Apply(cfg, db, op).items && SuccessByQueue(db, Q.Apply(cfg, db, op), id)
    ensures ForcedComplete(Q.Apply(cfg, db, op).admin, id)
  {
    var after := Q.Apply(cfg, db, op);
    assert op.Force? && op.completes && op.id == id;
    assert after.admin[|db.admin|].item == id;
  }

  lemma OutsideJustified(cfg: Q.Config, s: Sys, op: Q.Op)
    requires !op.Complete?
    ensures Justified(s, Q.Apply(cfg, s.queue, op))
  {
    var queue := Q.Apply(cfg, s.queue, op);
    forall id | id in s.queue.items && id in queue.items && SuccessByQueue(s.queue, queue, id)
      ensures ForcedComplete(queue.admin, id)
    {
      OutsideSuccessIsForced(cfg, s.queue, op, id);
    }
  }

  /** A write that completes nothing, and carries no outdated count. */
  lemma WriteKeeps(cfg: Q.Config, s: Sys, op: Q.Op)
    requires SysInv(cfg, s) && !op.Bind? && !op.Complete?
    requires op.id in s.queue.items ==> QI.CountIsCurrent(s.queue.items[op.id], op)
    ensures SysInv(cfg, s.(queue := Q.Apply(cfg, s.queue, op)))
  {
    OutsideJustified(cfg, s, op);
    QueueMoveKeeps(cfg, s, op);
  }

  lemma ClaimedSession(cfg: Q.Config, s: Sys, op: Q.Op)
    requires op.Claim? && Q.Accepts(cfg, s.queue, op)
    ensures SessionOk(s.(queue := Q.Apply(cfg, s.queue, op)), op.token,
                      Session(op.id, op.worker, Claimed(s.queue.items[op.id].transactionId)))
  {
    var queue := Q.Apply(cfg, s.queue, op);
    var n := |s.queue.attempts|;
    assert queue.attempts[n].token == op.token && queue.attempts[n].item == op.id;
    EffectKeepsBinding(cfg, s.queue.items[op.id], op);
  }

  lemma ClaimKeeps(cfg: Q.Config, s: Sys, op: Q.Op)
    requires SysInv(cfg, s) && op.Claim? && Q.Accepts(cfg, s.queue, op)
    ensures SysInv(cfg, AfterClaim(cfg, s, op))
  {
    WriteKeeps(cfg, s, op);
    ClaimedSession(cfg, s, op);
    SessionReplaced(cfg, s.(queue := Q.Apply(cfg, s.queue, op)), op.token,
                    Session(op.id, op.worker, Claimed(s.queue.items[op.id].transactionId)));
  }

  /** Only the sessions changed, and the new ones are in order. */
  lemma SessionsReplaced(cfg: Q.Config, s: Sys, sessions: map<nat, Session>)
    requires SysInv(cfg, s)
    requires forall token :: token in sessions ==>
               (token in s.sessions && sessions[token] == s.sessions[token]) || SessionOk(s, token, sessions[token])
    ensures SysInv(cfg, s.(sessions := sessions))
  {
  }

  lemma SessionReplaced(cfg: Q.Config, s: Sys, token: nat, l: Session)
    requires SysInv(cfg, s) && SessionOk(s, token, l)
    ensures SysInv(cfg, s.(sessions := s.sessions[token := l]))
  {
    SessionsReplaced(cfg, s, s.sessions[token := l]);
  }

  lemma LoadedSession(s: Sys, token: nat, retryBusiness: bool, maxRetries: nat, oracle: Oracle)
    requires token in s.sessions && s.sessions[token].phase.Claimed? && s.sessions[token].phase.boundTo in s.stored
    requires SessionOk(s, token, s.sessions[token]) && s.sessions[token].phase.boundTo != 0
    requires StoredOk(s.stored[s.sessions[token].phase.boundTo])
    ensures SessionOk(s, token, Loaded(s, token, retryBusiness, maxRetries, oracle))
  {
    var d := s.stored[s.sessions[token].phase.boundTo].snapshot;
    if d.status != Successful {
      Sessions.ResumeContinues(d, retryBusiness);
      Sessions.ResumeKeepsSuccess(d, retryBusiness);
      RunIsPlan(d, Resumed(d, retryBusiness), maxRetries, oracle);
    }
  }

  lemma LoadKeeps(cfg: Q.Config, s: Sys, token: nat, retryBusiness: bool, maxRetries: nat, oracle: Oracle)
    requires SysInv(cfg, s)
    requires token in s.sessions && s.sessions[token].phase.Claimed? && s.sessions[token].phase.boundTo in s.stored
    requires s.sessions[token].phase.boundTo != 0
    ensures SysInv(cfg, s.(sessions := s.sessions[token := Loaded(s, token, retryBusiness, maxRetries, oracle)]))
  {
    LoadedSession(s, token, retryBusiness, maxRetries, oracle);
    SessionReplaced(cfg, s, token, Loaded(s, token, retryBusiness, maxRetries, oracle));
  }

  lemma CrashKeeps(cfg: Q.Config, s: Sys, token: nat)
    requires SysInv(cfg, s)
    ensures SysInv(cfg, s.(sessions := s.sessions - {token}))
  {
    SessionsReplaced(cfg, s, s.sessions - {token});
  }

  lemma FailKeeps(cfg: Q.Config, s: Sys, token: nat, retry: bool, now: nat)
    requires SysInv(cfg, s) && token in s.sessions && HoldsClaim(s, token)
    ensures SysInv(cfg, s.(queue := Q.Apply(cfg, s.queue, CurrentFail(s, token, retry, now)), sessions := s.sessions - {token}))
  {
    var op := CurrentFail(s, token, retry, now);
    WriteKeeps(cfg, s, op);
    CrashKeeps(cfg, s.(queue := Q.Apply(cfg, s.queue, op)), token);
  }

  /** A session has the durable state of its item's transaction in hand. */
  ghost predicate InHand(s: Sys, token: nat) {
    && token in s.sessions && s.sessions[token].phase.Working?
    && var l := s.sessions[token];
       var p := l.phase;
       && l.item in s.queue.items && s.queue.items[l.item].transactionId == p.tx
       && p.tx in s.stored && p.tx != 0 && s.stored[p.tx] == Stored(p.base, p.revision, l.item)
       && PlanOk(p.base, p.plan) && StoredOk(s.stored[p.tx])
       && token != 0 && AttemptFor(s.queue, token, l.item)
  }

  /** A session that holds its claim has the durable state in hand. */
  lemma HolderIsCurrent(cfg: Q.Config, s: Sys, token: nat)
    requires SysInv(cfg, s) && token in s.sessions && s.sessions[token].phase.Working? && HoldsClaim(s, token)
    ensures InHand(s, token)
  {
  }

  lemma CompleteJustified(cfg: Q.Config, s: Sys, op: Q.Op)
    requires op.Complete? && op.id in s.queue.items
    requires var tx := s.queue.items[op.id].transactionId; tx in s.stored && s.stored[tx].snapshot.status == Successful
    ensures Justified(s, Q.Apply(cfg, s.queue, op))
  {
  }

  lemma CompleteKeeps(cfg: Q.Config, s: Sys, token: nat, now: nat)
    requires SysInv(cfg, s) && MayComplete(s, token)
    ensures SysInv(cfg, AfterComplete(cfg, s, token, now))
  {
    var l := s.sessions[token];
    var op := Q.Complete(l.item, l.worker, token, now);
    HolderIsCurrent(cfg, s, token);
    CompleteJustified(cfg, s, op);
    QueueMoveKeeps(cfg, s, op);
    CrashKeeps(cfg, s.(queue := Q.Apply(cfg, s.queue, op)), token);
  }

  // ---------- Saves ----------

  lemma {:induction false} AttemptOfToken(attempts: seq<Q.Attempt>, k: nat)
    requires k < |attempts| && QI.TokensDistinct(attempts)
    ensures AttemptOf(attempts, attempts[k].token) == k
  {
    if k < |attempts| - 1 {
      assert attempts[k].token != attempts[|attempts| - 1].token;
      AttemptOfToken(attempts[..|attempts| - 1], k);
    }
  }

  ghost predicate NewestFor(attempts: seq<Q.Attempt>, k: nat, item: nat) {
    && k < |attempts| && attempts[k].item == item
    && forall j :: 0 <= j < |attempts| && attempts[j].item == item ==> j <= k
  }

  /** The attempt behind a current claim is its item's newest. */
  lemma HolderIsNewest(cfg: Q.Config, s: Sys, token: nat)
    requires SysInv(cfg, s) && token in s.sessions && HoldsClaim(s, token)
    ensures NewestFor(s.queue.attempts, AttemptOf(s.queue.attempts, token), s.sessions[token].item)
  {
    var item := s.sessions[token].item;
    assert QI.LeaseOk(s.queue, item);
    var k :| 0 <= k < |s.queue.attempts| && QI.IsOpen(s.queue.attempts[k], item);
    AttemptOfToken(s.queue.attempts, k);
  }

  lemma {:induction false} SavesOfUnknown(saves: seq<SaveRecord>, tx: nat)
    requires forall i :: 0 <= i < |saves| ==> saves[i].tx != tx
    ensures SavesOf(saves, tx) == 0
  {
    if saves != [] { SavesOfUnknown(saves[..|saves| - 1], tx); }
  }

  ghost predicate OneStored(before: map<nat, Stored>, after: map<nat, Stored>, tx: nat) {
    tx in after && after.Keys == before.Keys + {tx} && forall x :: x in before && x != tx ==> after[x] == before[x]
  }

  lemma SaveRecorded(s: Sys, token: nat, tx: nat, revision: nat, stored: map<nat, Stored>)
    requires token in s.sessions && SavesOk(s)
    requires NewestFor(s.queue.attempts, AttemptOf(s.queue.attempts, token), s.sessions[token].item)
    requires OneStored(s.stored, stored, tx) && stored[tx].revision == SavesOf(s.saves, tx) + 1
    ensures SavesOk(s.(stored := stored, saves := Recorded(s, token, tx, revision)))
  {
  }

  // ---------- A later save ----------

  lemma HeadExtends(base: Snapshot, plan: seq<Snapshot>)
    requires PlanOk(base, plan) && plan != [] && Numbered(base.history)
    ensures base.history <= plan[0].history && Numbered(plan[0].history) && base.status != Successful
    ensures base.identity == plan[0].identity && SuccessFinal(plan[0])
    ensures plan[0].(history := Merge(base.history, plan[0].history)) == plan[0]
  {
    MergeFaithfulExactly(base.history, plan[0].history);
  }

  /** No lost history: the saved snapshot is stored exactly, and it extends what was stored. */
  lemma SaveStoresExactly(s: Sys, token: nat)
    requires InHand(s, token) && MaySave(s, token)
    ensures var p := s.sessions[token].phase;
            && SavedState(s, token) == s.stored[p.tx := Stored(p.plan[0], p.revision + 1, s.sessions[token].item)]
            && p.base.history <= p.plan[0].history && Numbered(p.plan[0].history) && SuccessFinal(p.plan[0])
            && p.base.status != Successful && p.base.identity == p.plan[0].identity
  {
    HeadExtends(s.sessions[token].phase.base, s.sessions[token].phase.plan);
  }

  /** A save leaves every other session in order: none of them can be current any more. */
  lemma SaveKeepsOther(s: Sys, token: nat, other: nat, stored: map<nat, Stored>)
    requires InHand(s, token) && HoldsClaim(s, token) && BindingOk(s)
    requires var p := s.sessions[token].phase;
             OneStored(s.stored, stored, p.tx) && stored[p.tx].revision == s.stored[p.tx].revision + 1
    requires other in s.sessions && other != token && SessionOk(s, other, s.sessions[other])
    ensures SessionOk(s.(stored := stored), other, s.sessions[other])
  {
  }

  lemma SaverOk(s: Sys, token: nat)
    requires InHand(s, token) && MaySave(s, token)
    ensures SessionOk(AfterSave(s, token), token, AfterSave(s, token).sessions[token])
  {
    SaveStoresExactly(s, token);
    PlanAdvances(s.sessions[token].phase.base, s.sessions[token].phase.plan);
  }

  lemma SaveKeepsSessions(s: Sys, token: nat)
    requires InHand(s, token) && MaySave(s, token) && BindingOk(s) && SessionsOk(s)
    ensures SessionsOk(AfterSave(s, token))
  {
    forall other | other in AfterSave(s, token).sessions
      ensures SessionOk(AfterSave(s, token), other, AfterSave(s, token).sessions[other])
    {
      if other == token {
        SaverOk(s, token);
      } else {
        SaveKeepsOther(s, token, other, SavedState(s, token));
      }
    }
  }

  lemma SaveKeepsBindings(s: Sys, token: nat)
    requires InHand(s, token) && MaySave(s, token) && BindingOk(s)
    ensures BindingOk(AfterSave(s, token))
  {
  }

  lemma SaveKeepsSnapshots(s: Sys, token: nat, tx: nat)
    requires InHand(s, token) && MaySave(s, token) && tx in AfterSave(s, token).stored
    requires tx in s.stored ==> StoredOk(s.stored[tx])
    ensures StoredOk(AfterSave(s, token).stored[tx])
  {
    SaveStoresExactly(s, token);
  }

  lemma SaveKeepsRecords(s: Sys, token: nat)
    requires InHand(s, token) && MaySave(s, token) && SavesOk(s)
    requires NewestFor(s.queue.attempts, AttemptOf(s.queue.attempts, token), s.sessions[token].item)
    ensures SavesOk(AfterSave(s, token))
  {
    var p := s.sessions[token].phase;
    SaveRecorded(s, token, p.tx, p.revision + 1, SavedState(s, token));
  }

  lemma SaveKeepsSuccess(s: Sys, token: nat, id: nat)
    requires InHand(s, token) && MaySave(s, token) && id in s.queue.items && SuccessOk(s, id) && BindingOk(s)
    ensures SuccessOk(AfterSave(s, token), id)
  {
  }

  lemma SaveKeeps(cfg: Q.Config, s: Sys, token: nat)
    requires SysInv(cfg, s) && MaySave(s, token)
    ensures SysInv(cfg, AfterSave(s, token))
  {
    HolderIsCurrent(cfg, s, token);
    HolderIsNewest(cfg, s, token);
    SaveKeepsRecords(s, token);
    SaveKeepsBindings(s, token);
    forall tx | tx in AfterSave(s, token).stored ensures StoredOk(AfterSave(s, token).stored[tx]) {
      SaveKeepsSnapshots(s, token, tx);
    }
    SaveKeepsSessions(s, token);
    forall id | id in s.queue.items ensures SuccessOk(AfterSave(s, token), id) {
      SaveKeepsSuccess(s, token, id);
    }
  }

  // ---------- The first save ----------

  /** Binding changes one row, and only its binding. */
  ghost predicate BoundNow(before: Q.Db, after: Q.Db, item: nat, tx: nat) {
    item in before.items && after == before.(items := before.items[item := before.items[item].(transactionId := tx)])
  }

  lemma BindIsAccepted(cfg: Q.Config, s: Sys, m: Move)
    requires m.Initialize? && MayInitialize(s, m) && m.token != 0
    ensures BoundNow(s.queue, AfterInitialize(cfg, s, m).queue, s.sessions[m.token].item, m.tx)
  {
  }

  lemma InitializeKeepsOther(s: Sys, item: nat, tx: nat, queue: Q.Db, stored: map<nat, Stored>, token: nat)
    requires token in s.sessions && SessionOk(s, token, s.sessions[token]) && BindingOk(s)
    requires BoundNow(s.queue, queue, item, tx) && s.queue.items[item].transactionId == 0
    requires OneStored(s.stored, stored, tx) && tx !in s.stored
    ensures SessionOk(s.(queue := queue, stored := stored), token, s.sessions[token])
  {
  }

  lemma BuiltIsPlanned(t: Snapshot, maxRetries: nat, oracle: Oracle)
    requires Buildable(t)
    ensures StoredOk(Stored(t, 1, 0)) && PlanOk(t, Run(t, maxRetries, oracle).log)
  {
    Sessions.NewSuccessFinal(t);
    RunIsPlan(t, t, maxRetries, oracle);
  }

  lemma InitializerOk(cfg: Q.Config, s: Sys, m: Move)
    requires m.Initialize? && MayInitialize(s, m) && SessionOk(s, m.token, s.sessions[m.token])
    ensures SessionOk(AfterInitialize(cfg, s, m), m.token, AfterInitialize(cfg, s, m).sessions[m.token])
  {
    BindIsAccepted(cfg, s, m);
    BuiltIsPlanned(m.built, m.maxRetries, m.oracle);
    var l := s.sessions[m.token];
    var k :| 0 <= k < |s.queue.attempts| && s.queue.attempts[k].token == m.token && s.queue.attempts[k].item == l.item;
    assert AfterInitialize(cfg, s, m).queue.attempts[k].token == m.token;
  }

  lemma InitializeKeepsBindings(cfg: Q.Config, s: Sys, m: Move)
    requires m.Initialize? && MayInitialize(s, m) && BindingOk(s) && m.token != 0
    ensures BindingOk(AfterInitialize(cfg, s, m))
    ensures s.queue.items[s.sessions[m.token].item].transactionId == 0
  {
    BindIsAccepted(cfg, s, m);
  }

  lemma InitializeKeepsRecords(cfg: Q.Config, s: Sys, m: Move)
    requires m.Initialize? && MayInitialize(s, m) && SavesOk(s) && m.token != 0
    requires NewestFor(s.queue.attempts, AttemptOf(s.queue.attempts, m.token), s.sessions[m.token].item)
    ensures SavesOk(AfterInitialize(cfg, s, m))
  {
    BindIsAccepted(cfg, s, m);
    SavesOfUnknown(s.saves, m.tx);
    SaveRecorded(s, m.token, m.tx, 1, AfterInitialize(cfg, s, m).stored);
  }

  lemma InitializeKeepsSessions(cfg: Q.Config, s: Sys, m: Move, token: nat)
    requires m.Initialize? && MayInitialize(s, m) && BindingOk(s) && m.token != 0
    requires token in s.sessions && SessionOk(s, token, s.sessions[token]) && SessionOk(s, m.token, s.sessions[m.token])
    ensures SessionOk(AfterInitialize(cfg, s, m), token, AfterInitialize(cfg, s, m).sessions[token])
  {
    if token == m.token {
      InitializerOk(cfg, s, m);
    } else {
      BindIsAccepted(cfg, s, m);
      InitializeKeepsBindings(cfg, s, m);
      InitializeKeepsOther(s, s.sessions[m.token].item, m.tx, AfterInitialize(cfg, s, m).queue, AfterInitialize(cfg, s, m).stored, token);
    }
  }

  lemma InitializeKeepsStored(cfg: Q.Config, s: Sys, m: Move)
    requires m.Initialize? && MayInitialize(s, m) && AllStoredOk(s)
    ensures AllStoredOk(AfterInitialize(cfg, s, m))
  {
  }

  lemma InitializeKeepsAllSessions(cfg: Q.Config, s: Sys, m: Move)
    requires m.Initialize? && MayInitialize(s, m) && BindingOk(s) && SessionsOk(s)
    ensures SessionsOk(AfterInitialize(cfg, s, m))
  {
    forall token | token in AfterInitialize(cfg, s, m).sessions
      ensures SessionOk(AfterInitialize(cfg, s, m), token, AfterInitialize(cfg, s, m).sessions[token])
    {
      InitializeKeepsSessions(cfg, s, m, token);
    }
  }

  lemma InitializeKeepsAllSuccess(cfg: Q.Config, s: Sys, m: Move)
    requires m.Initialize? && MayInitialize(s, m) && BindingOk(s) && AllSuccessOk(s) && m.token != 0
    ensures AllSuccessOk(AfterInitialize(cfg, s, m))
  {
  }

  lemma InitializeKeeps(cfg: Q.Config, s: Sys, m: Move)
    requires SysInv(cfg, s) && m.Initialize? && MayInitialize(s, m)
    ensures SysInv(cfg, AfterInitialize(cfg, s, m))
  {
    assert SessionOk(s, m.token, s.sessions[m.token]);
    HolderIsNewest(cfg, s, m.token);
    QI.ApplyKeepsInv(cfg, s.queue, Q.Bind(s.sessions[m.token].item, s.sessions[m.token].worker, m.token, m.tx, m.now));
    InitializeKeepsRecords(cfg, s, m);
    InitializeKeepsBindings(cfg, s, m);
    InitializeKeepsStored(cfg, s, m);
    InitializeKeepsAllSessions(cfg, s, m);
    InitializeKeepsAllSuccess(cfg, s, m);
  }
}
