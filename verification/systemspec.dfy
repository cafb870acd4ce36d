/** Queue, transaction storage and workers together. A worker session is known by its claim
    token; its engine run is an arbitrary run of the engine specification, whose checkpoints
    it saves one by one. Any session may stop at any point. */
module SystemSpec {
  import opened Options
  import opened Records
  import opened EngineSpec
  import opened RecoverySpec
  import opened Tables
  import Q = QueueSpec

  /** A stored transaction: its snapshot, its revision, and the item it belongs to. */
  datatype Stored = Stored(snapshot: Snapshot, revision: nat, item: nat)

  datatype Phase =
    | Claimed(boundTo: nat)
    | Working(tx: nat, revision: nat, base: Snapshot, plan: seq<Snapshot>)

  /** `base` is the snapshot last saved or loaded, `plan` the checkpoints still to be saved. */
  datatype Session = Session(item: nat, worker: string, phase: Phase)

  /** One accepted fenced save: the attempt (by position) that made it. */
  datatype SaveRecord = SaveRecord(item: nat, attempt: nat, tx: nat, revision: nat)

  datatype Sys = Sys(queue: Q.Db, stored: map<nat, Stored>, sessions: map<nat, Session>, saves: seq<SaveRecord>)

  datatype Move =
    | Environment(op: Q.Op)
    | ClaimItem(op: Q.Op)
    | Initialize(token: nat, tx: nat, built: Snapshot, maxRetries: nat, oracle: Oracle, now: nat)
    | LoadAndRun(token: nat, provided: seq<Key>, identity: Option<string>, retryBusiness: bool, maxRetries: nat, oracle: Oracle)
    | Save(token: nat)
    | CompleteItem(token: nat, now: nat)
    | FailItem(token: nat, retry: bool, now: nat)
    | Crash(token: nat)

  /** What a builder may hand over for a first save: wired, pending, without history; its
      steps may have any status. */
  predicate Buildable(t: Snapshot) {
    && ValidForExecution(t) && t.identity != ""
    && t.status == Pending && t.history == []
  }

  /** Writes that no worker session decides on. */
  predicate FromOutside(op: Q.Op) {
    op.Add? || op.Expire? || op.Poison? || op.Force? || op.Renew?
  }

  predicate HoldsClaim(s: Sys, token: nat)
    requires token in s.sessions
  {
    var l := s.sessions[token];
    l.item in s.queue.items && Q.Holds(s.queue.items[l.item], l.worker, token)
  }

  /** The attempt a claim token belongs to. */
  function AttemptOf(attempts: seq<Q.Attempt>, token: nat): nat
  {
    if attempts == [] || attempts[|attempts| - 1].token == token then (if attempts == [] then 0 else |attempts| - 1)
    else AttemptOf(attempts[..|attempts| - 1], token)
  }

  /** The initial fenced save: the transaction does not exist, the item is unbound or bound to it. */
  predicate MayInitialize(s: Sys, m: Move)
    requires m.Initialize?
  {
    && m.token in s.sessions && s.sessions[m.token].phase == Claimed(0)
    && Buildable(m.built) && m.tx != 0 && m.tx !in s.stored
    && HoldsClaim(s, m.token)
    && var bound := s.queue.items[s.sessions[m.token].item].transactionId;
       bound == 0 || bound == m.tx
  }

  predicate MayLoad(s: Sys, m: Move)
    requires m.LoadAndRun?
  {
    && m.token in s.sessions && s.sessions[m.token].phase.Claimed?
    && var tx := s.sessions[m.token].phase.boundTo;
       && tx != 0 && tx in s.stored
       && Prepare(s.stored[tx].snapshot, m.provided, m.retryBusiness, m.identity).Success?
  }

  /** The fence of a later save: the claim, the binding, the revision, the identity. */
  predicate MaySave(s: Sys, token: nat) {
    && token in s.sessions && s.sessions[token].phase.Working? && s.sessions[token].phase.plan != []
    && HoldsClaim(s, token)
    && var l := s.sessions[token].phase;
       && (s.queue.items[s.sessions[token].item].transactionId == 0
           || s.queue.items[s.sessions[token].item].transactionId == l.tx)
       && l.tx in s.stored && s.stored[l.tx].revision == l.revision
       && s.stored[l.tx].snapshot.identity == l.plan[0].identity
  }

  /** A finished run whose transaction is successful. */
  predicate MayComplete(s: Sys, token: nat) {
    && token in s.sessions && s.sessions[token].phase.Working?
    && s.sessions[token].phase.plan == [] && s.sessions[token].phase.base.status == Successful
    && HoldsClaim(s, token)
  }

  function Recorded(s: Sys, token: nat, tx: nat, revision: nat): seq<SaveRecord>
    requires token in s.sessions
  {
    s.saves + [SaveRecord(s.sessions[token].item, AttemptOf(s.queue.attempts, token), tx, revision)]
  }

  /** The session after it loaded the transaction its item is bound to. */
  function Loaded(s: Sys, token: nat, retryBusiness: bool, maxRetries: nat, oracle: Oracle): Session
    requires token in s.sessions && s.sessions[token].phase.Claimed? && s.sessions[token].phase.boundTo in s.stored
  {
    var l := s.sessions[token];
    var st := s.stored[l.phase.boundTo];
    var plan := if st.snapshot.status == Successful then []
                else Run(Resumed(st.snapshot, retryBusiness), maxRetries, oracle).log;
    l.(phase := Working(l.phase.boundTo, st.revision, st.snapshot, plan))
  }

  function CurrentFail(s: Sys, token: nat, retry: bool, now: nat): Q.Op
    requires token in s.sessions && HoldsClaim(s, token)
  {
    var l := s.sessions[token];
    Q.Fail(l.item, l.worker, token, s.queue.items[l.item].retryCount, retry, now)
  }

  /** What a save does to storage. */
  function SavedState(s: Sys, token: nat): map<nat, Stored>
    requires MaySave(s, token)
  {
    var p := s.sessions[token].phase;
    var st := s.stored[p.tx];
    s.stored[p.tx := Stored(p.plan[0].(history := Merge(st.snapshot.history, p.plan[0].history)), st.revision + 1, s.sessions[token].item)]
  }

  /** The state after a fenced save. */
  function AfterSave(s: Sys, token: nat): Sys
    requires MaySave(s, token)
  {
    var l := s.sessions[token];
    Sys(s.queue, SavedState(s, token),
        s.sessions[token := l.(phase := Working(l.phase.tx, l.phase.revision + 1, l.phase.plan[0], l.phase.plan[1..]))],
        Recorded(s, token, l.phase.tx, l.phase.revision + 1))
  }

  /** The state after the first save: transaction, binding and revision 1 appear together. */
  function AfterInitialize(cfg: Q.Config, s: Sys, m: Move): Sys
    requires m.Initialize? && MayInitialize(s, m)
  {
    var l := s.sessions[m.token];
    Sys(Q.Apply(cfg, s.queue, Q.Bind(l.item, l.worker, m.token, m.tx, m.now)),
        s.stored[m.tx := Stored(m.built, 1, l.item)],
        s.sessions[m.token := l.(phase := Working(m.tx, 1, m.built, Run(m.built, m.maxRetries, m.oracle).log))],
        Recorded(s, m.token, m.tx, 1))
  }

  function AfterClaim(cfg: Q.Config, s: Sys, op: Q.Op): Sys
    requires op.Claim? && Q.Accepts(cfg, s.queue, op)
  {
    s.(queue := Q.Apply(cfg, s.queue, op),
       sessions := s.sessions[op.token := Session(op.id, op.worker, Claimed(s.queue.items[op.id].transactionId))])
  }

  function AfterComplete(cfg: Q.Config, s: Sys, token: nat, now: nat): Sys
    requires MayComplete(s, token)
  {
    var l := s.sessions[token];
    s.(queue := Q.Apply(cfg, s.queue, Q.Complete(l.item, l.worker, token, now)), sessions := s.sessions - {token})
  }

  function Next(cfg: Q.Config, s: Sys, m: Move): Sys {
    match m
    case Environment(op) => if FromOutside(op) then s.(queue := Q.Apply(cfg, s.queue, op)) else s
    case ClaimItem(op) => if op.Claim? && Q.Accepts(cfg, s.queue, op) then AfterClaim(cfg, s, op) else s
    case Initialize(_, _, _, _, _, _) => if MayInitialize(s, m) then AfterInitialize(cfg, s, m) else s
    case LoadAndRun(token, _, _, retryBusiness, maxRetries, oracle) =>
      if MayLoad(s, m) then s.(sessions := s.sessions[token := Loaded(s, token, retryBusiness, maxRetries, oracle)]) else s
    case Save(token) => if MaySave(s, token) then AfterSave(s, token) else s
    case CompleteItem(token, now) => if MayComplete(s, token) then AfterComplete(cfg, s, token, now) else s
    case FailItem(token, retry, now) =>
      if token in s.sessions && HoldsClaim(s, token)
      then s.(queue := Q.Apply(cfg, s.queue, CurrentFail(s, token, retry, now)), sessions := s.sessions - {token})
      else s
    case Crash(token) => s.(sessions := s.sessions - {token})
  }

  function RunMoves(cfg: Q.Config, s: Sys, moves: seq<Move>): Sys
    decreases |moves|
  {
    if moves == [] then s else RunMoves(cfg, Next(cfg, s, moves[0]), moves[1..])
  }

  const START := Sys(Q.EMPTY, map[], map[], [])
}
