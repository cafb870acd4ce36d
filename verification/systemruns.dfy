/** What holds of every run of the whole system, whatever workers, steps, crashes, lease
    expiries and operators do. */
module SystemRuns {
  import opened Options
  import opened Records
  import opened EngineFacts
  import opened RecoverySpec
  import opened SystemSpec
  import opened SystemInvariants
  import Q = QueueSpec
  import QI = QueueInvariants
  import QR = QueueRuns

  predicate OnStorage(m: Move) { m.Initialize? || m.LoadAndRun? || m.Save? }

  lemma InitializeMoveKeeps(cfg: Q.Config, s: Sys, m: Move)
    requires SysInv(cfg, s) && m.Initialize?
    ensures SysInv(cfg, Next(cfg, s, m))
  {
    if MayInitialize(s, m) { InitializeKeeps(cfg, s, m); }
  }

  lemma LoadMoveKeeps(cfg: Q.Config, s: Sys, m: Move)
    requires SysInv(cfg, s) && m.LoadAndRun?
    ensures SysInv(cfg, Next(cfg, s, m))
  {
    if MayLoad(s, m) { LoadKeeps(cfg, s, m.token, m.retryBusiness, m.maxRetries, m.oracle); }
  }

  lemma SaveMoveKeeps(cfg: Q.Config, s: Sys, m: Move)
    requires SysInv(cfg, s) && m.Save?
    ensures SysInv(cfg, Next(cfg, s, m))
  {
    if MaySave(s, m.token) { SaveKeeps(cfg, s, m.token); }
  }

  lemma QueueMoveKeeps(cfg: Q.Config, s: Sys, m: Move)
    requires SysInv(cfg, s) && !OnStorage(m)
    ensures SysInv(cfg, Next(cfg, s, m))
  {
    if m.Environment? {
      if FromOutside(m.op) { WriteKeeps(cfg, s, m.op); }
    } else if m.ClaimItem? {
      if m.op.Claim? && Q.Accepts(cfg, s.queue, m.op) { ClaimKeeps(cfg, s, m.op); }
    } else if m.CompleteItem? {
      if MayComplete(s, m.token) { CompleteKeeps(cfg, s, m.token, m.now); }
    } else if m.FailItem? {
      if m.token in s.sessions && HoldsClaim(s, m.token) { FailKeeps(cfg, s, m.token, m.retry, m.now); }
    } else {
      CrashKeeps(cfg, s, m.token);
    }
  }

  lemma NextKeeps(cfg: Q.Config, s: Sys, m: Move)
    requires SysInv(cfg, s)
    ensures SysInv(cfg, Next(cfg, s, m))
  {
    if m.Initialize? { InitializeMoveKeeps(cfg, s, m); }
    else if m.LoadAndRun? { LoadMoveKeeps(cfg, s, m); }
    else if m.Save? { SaveMoveKeeps(cfg, s, m); }
    else { QueueMoveKeeps(cfg, s, m); }
  }

  lemma {:induction false} RunKeeps(cfg: Q.Config, s: Sys, moves: seq<Move>)
    requires SysInv(cfg, s)
    ensures SysInv(cfg, RunMoves(cfg, s, moves))
    decreases |moves|
  {
    if moves != [] {
      NextKeeps(cfg, s, moves[0]);
      RunKeeps(cfg, Next(cfg, s, moves[0]), moves[1..]);
    }
  }

  /** A state some run leads to. */
  ghost predicate Reachable(cfg: Q.Config, s: Sys) {
    exists moves :: s == RunMoves(cfg, START, moves)
  }

  /** The whole invariant holds in every reachable state. */
  lemma ReachableInv(cfg: Q.Config, s: Sys)
    requires Reachable(cfg, s)
    ensures SysInv(cfg, s)
  {
    var moves :| s == RunMoves(cfg, START, moves);
    RunKeeps(cfg, START, moves);
  }

  // ---------- What time does to a state ----------

  /** A stored transaction later: history extended at its end, identity and owner kept, and
      nothing at all once it is successful. */
  ghost predicate StoredLater(a: Stored, b: Stored) {
    && a.snapshot.history <= b.snapshot.history && a.snapshot.identity == b.snapshot.identity
    && a.item == b.item && a.revision <= b.revision
    && (a.snapshot.status == Successful ==> b == a)
  }

  ghost predicate Later(a: Sys, b: Sys) {
    && (forall tx :: tx in a.stored ==> tx in b.stored && StoredLater(a.stored[tx], b.stored[tx]))
    && (forall id :: id in a.queue.items ==>
          id in b.queue.items && (a.queue.items[id].transactionId != 0 ==>
            b.queue.items[id].transactionId == a.queue.items[id].transactionId))
    && QR.Extends(a.queue.attempts, b.queue.attempts)
  }

  lemma LaterTransitive(a: Sys, b: Sys, c: Sys)
    requires Later(a, b) && Later(b, c)
    ensures Later(a, c)
  {
  }

  lemma WriteLater(cfg: Q.Config, s: Sys, op: Q.Op, sessions: map<nat, Session>)
    requires QI.Inv(cfg, s.queue) && !op.Bind? && (op.id in s.queue.items ==> QI.CountIsCurrent(s.queue.items[op.id], op))
    ensures Later(s, s.(queue := Q.Apply(cfg, s.queue, op), sessions := sessions))
  {
    WriteMoves(cfg, s.queue, op);
  }

  lemma QueueMoveLater(cfg: Q.Config, s: Sys, m: Move)
    requires QI.Inv(cfg, s.queue) && !OnStorage(m)
    ensures Later(s, Next(cfg, s, m))
  {
    var n := Next(cfg, s, m);
    if m.Environment? {
      if FromOutside(m.op) { WriteLater(cfg, s, m.op, s.sessions); }
    } else if m.ClaimItem? {
      if m.op.Claim? && Q.Accepts(cfg, s.queue, m.op) { WriteLater(cfg, s, m.op, n.sessions); }
    } else if m.CompleteItem? {
      if MayComplete(s, m.token) {
        var l := s.sessions[m.token];
        WriteLater(cfg, s, Q.Complete(l.item, l.worker, m.token, m.now), n.sessions);
      }
    } else if m.FailItem? {
      if m.token in s.sessions && HoldsClaim(s, m.token) {
        WriteLater(cfg, s, CurrentFail(s, m.token, m.retry, m.now), n.sessions);
      }
    }
  }

  lemma SaveLater(s: Sys, token: nat)
    requires InHand(s, token) && MaySave(s, token)
    ensures Later(s, AfterSave(s, token))
  {
    SaveStoresExactly(s, token);
  }

  lemma InitializeLater(cfg: Q.Config, s: Sys, m: Move)
    requires m.Initialize? && MayInitialize(s, m) && BindingOk(s) && m.token != 0
    ensures Later(s, AfterInitialize(cfg, s, m))
  {
    BindIsAccepted(cfg, s, m);
    InitializeKeepsBindings(cfg, s, m);
  }

  lemma InitializerHasToken(s: Sys, m: Move)
    requires SessionsOk(s) && m.Initialize? && MayInitialize(s, m)
    ensures m.token != 0
  {
  }

  lemma InitializeMoveLater(cfg: Q.Config, s: Sys, m: Move)
    requires SysInv(cfg, s) && m.Initialize?
    ensures Later(s, Next(cfg, s, m))
  {
    if MayInitialize(s, m) {
      InitializerHasToken(s, m);
      InitializeLater(cfg, s, m);
    }
  }

  lemma SaveMoveLater(cfg: Q.Config, s: Sys, m: Move)
    requires SysInv(cfg, s) && m.Save?
    ensures Later(s, Next(cfg, s, m))
  {
    if MaySave(s, m.token) {
      HolderIsCurrent(cfg, s, m.token);
      SaveLater(s, m.token);
    }
  }

  lemma LoadMoveLater(cfg: Q.Config, s: Sys, m: Move)
    requires m.LoadAndRun?
    ensures Later(s, Next(cfg, s, m))
  {
    LaterReflexive(s, s.(sessions := Next(cfg, s, m).sessions));
  }

  lemma LaterReflexive(s: Sys, t: Sys)
    requires t == s.(sessions := t.sessions)
    ensures Later(s, t)
  {
  }

  lemma NextLater(cfg: Q.Config, s: Sys, m: Move)
    requires SysInv(cfg, s)
    ensures Later(s, Next(cfg, s, m))
  {
    if m.Initialize? { InitializeMoveLater(cfg, s, m); }
    else if m.LoadAndRun? { LoadMoveLater(cfg, s, m); }
    else if m.Save? { SaveMoveLater(cfg, s, m); }
    else { QueueMoveLater(cfg, s, m); }
  }

  /** Over any run, stored histories only grow at their end, identities and bindings never
      change, attempts are append-only, and a successful transaction is frozen. */
  lemma {:induction false} RunLater(cfg: Q.Config, s: Sys, moves: seq<Move>)
    requires SysInv(cfg, s)
    ensures Later(s, RunMoves(cfg, s, moves))
    decreases |moves|
  {
    if moves != [] {
      var n := Next(cfg, s, moves[0]);
      NextLater(cfg, s, moves[0]);
      NextKeeps(cfg, s, moves[0]);
      RunLater(cfg, n, moves[1..]);
      LaterTransitive(s, n, RunMoves(cfg, n, moves[1..]));
    }
  }

  // ---------- No lost history ----------

  ghost predicate StoresExactly(s: Sys, next: Sys, token: nat)
    requires MaySave(s, token)
  {
    var p := s.sessions[token].phase;
    && p.tx in next.stored
    && next.stored[p.tx] == Stored(p.plan[0], s.stored[p.tx].revision + 1, s.stored[p.tx].item)
    && s.stored[p.tx].snapshot.history <= p.plan[0].history
    && Numbered(p.plan[0].history)
  }

  /** In every reachable state an accepted save stores exactly the snapshot the worker holds,
      one revision further; what was stored before is a prefix of it, and it is numbered 1..n. */
  lemma NoLostHistory(cfg: Q.Config, s: Sys, token: nat)
    requires Reachable(cfg, s) && MaySave(s, token)
    ensures StoresExactly(s, AfterSave(s, token), token)
  {
    ReachableInv(cfg, s);
    HolderIsCurrent(cfg, s, token);
    SaveKept(s, token);
  }

  lemma SaveKept(s: Sys, token: nat)
    requires InHand(s, token) && MaySave(s, token)
    ensures StoresExactly(s, AfterSave(s, token), token)
  {
    SaveStoresExactly(s, token);
  }

  /** Whatever is stored stays stored, as a prefix, under the same definition identity. */
  lemma HistoryOnlyGrows(cfg: Q.Config, s: Sys, after: seq<Move>, tx: nat)
    requires Reachable(cfg, s) && tx in s.stored
    ensures var t := RunMoves(cfg, s, after);
            && tx in t.stored && s.stored[tx].snapshot.history <= t.stored[tx].snapshot.history
            && Numbered(t.stored[tx].snapshot.history)
            && s.stored[tx].snapshot.identity == t.stored[tx].snapshot.identity
  {
    ReachableInv(cfg, s);
    RunLater(cfg, s, after);
    RunKeeps(cfg, s, after);
    assert StoredOk(RunMoves(cfg, s, after).stored[tx]);
  }

  // ---------- Who may work on a stored transaction ----------

  /** A worker starts to run a stored transaction only under its own definition: the identity
      matches, and the steps are the stored ones, each once. */
  lemma OnlyItsDefinitionRuns(cfg: Q.Config, s: Sys, m: Move, token: nat)
    requires token in Next(cfg, s, m).sessions && Next(cfg, s, m).sessions[token].phase.Working?
    requires token in s.sessions && s.sessions[token].phase.Claimed? && !m.Initialize?
    requires Next(cfg, s, m).sessions[token].phase.plan != []
    ensures m.LoadAndRun? && m.token == token && s.sessions[token].phase.boundTo in s.stored
    ensures var d := s.stored[s.sessions[token].phase.boundTo].snapshot;
            && d.status != Successful && m.identity == Some(d.identity) && d.identity != ""
            && multiset(m.provided) == multiset(Keys(d.steps))
            && Next(cfg, s, m).sessions[token].phase.base == d
  {
    assert m.LoadAndRun? && m.token == token && MayLoad(s, m);
    PrepareAcceptsExactly(s.stored[s.sessions[token].phase.boundTo].snapshot, m.provided, m.retryBusiness, m.identity);
  }

  // ---------- Fencing ----------

  /** A worker with checkpoints left to save is refused exactly when it lost its claim: the
      revision and the binding never turn away the current holder. */
  lemma OnlyLostClaimsAreRefused(cfg: Q.Config, s: Sys, token: nat)
    requires Reachable(cfg, s)
    requires token in s.sessions && s.sessions[token].phase.Working? && s.sessions[token].phase.plan != []
    ensures MaySave(s, token) <==> HoldsClaim(s, token)
  {
    ReachableInv(cfg, s);
    if HoldsClaim(s, token) {
      HolderIsCurrent(cfg, s, token);
      HeadExtends(s.sessions[token].phase.base, s.sessions[token].phase.plan);
    }
  }

  lemma ClosedLosesClaim(cfg: Q.Config, s: Sys, k: nat)
    requires SysInv(cfg, s) && k < |s.queue.attempts| && s.queue.attempts[k].outcome.Some?
    requires s.queue.attempts[k].token in s.sessions
    ensures !HoldsClaim(s, s.queue.attempts[k].token)
  {
  }

  /** Once an attempt is closed, its session saves, completes and fails nothing more, in any
      continuation. */
  lemma ClosedAttemptIsFenced(cfg: Q.Config, s: Sys, after: seq<Move>, k: nat, token: nat)
    requires Reachable(cfg, s)
    requires k < |s.queue.attempts| && s.queue.attempts[k].outcome.Some? && s.queue.attempts[k].token == token
    ensures var t := RunMoves(cfg, s, after);
            !MaySave(t, token) && !MayComplete(t, token) && (token in t.sessions ==> !HoldsClaim(t, token))
  {
    ReachableInv(cfg, s);
    RunLater(cfg, s, after);
    RunKeeps(cfg, s, after);
    var t := RunMoves(cfg, s, after);
    if token in t.sessions { ClosedLosesClaim(cfg, t, k); }
  }

  /** Successive saves for an item are owned by attempts that never go back, and a
      transaction's revision is the number of saves it has had. */
  lemma SaversNeverGoBack(cfg: Q.Config, s: Sys)
    requires Reachable(cfg, s)
    ensures SavesInOrder(s.saves) && SavesOwned(s.queue.attempts, s.saves, s.stored) && SavesCounted(s.saves, s.stored)
  {
    ReachableInv(cfg, s);
  }

  // ---------- Bindings ----------

  /** Items and transactions are bound one to one, each to a transaction that exists and
      points back. */
  lemma BindingIsMutual(cfg: Q.Config, s: Sys)
    requires Reachable(cfg, s)
    ensures BindingOk(s)
    ensures var items := s.queue.items;
            forall a, b :: a in items && b in items && items[a].transactionId == items[b].transactionId != 0 ==> a == b
  {
    ReachableInv(cfg, s);
  }

  /** A binding appears only in the step that creates the transaction, at revision 1. */
  lemma BoundAtCreation(cfg: Q.Config, s: Sys, m: Move, id: nat)
    requires Reachable(cfg, s) && id in s.queue.items && s.queue.items[id].transactionId == 0
    requires id in Next(cfg, s, m).queue.items && Next(cfg, s, m).queue.items[id].transactionId != 0
    ensures m.Initialize? && MayInitialize(s, m) && id == s.sessions[m.token].item
    ensures m.tx !in s.stored && Next(cfg, s, m).queue.items[id].transactionId == m.tx
    ensures m.tx in Next(cfg, s, m).stored && Next(cfg, s, m).stored[m.tx] == Stored(m.built, 1, id)
  {
    ReachableInv(cfg, s);
    BindsOnlyByInitialize(cfg, s, m, id);
  }

  lemma BindsOnlyByInitialize(cfg: Q.Config, s: Sys, m: Move, id: nat)
    requires SessionsOk(s) && id in s.queue.items && s.queue.items[id].transactionId == 0
    requires id in Next(cfg, s, m).queue.items && Next(cfg, s, m).queue.items[id].transactionId != 0
    ensures m.Initialize? && MayInitialize(s, m) && id == s.sessions[m.token].item
    ensures Next(cfg, s, m).queue.items[id].transactionId == m.tx
  {
    if m.Initialize? && MayInitialize(s, m) {
      InitializerHasToken(s, m);
      BindIsAccepted(cfg, s, m);
    } else if !OnStorage(m) {
      UnboundStays(cfg, s, m, id);
    }
  }

  lemma UnboundStays(cfg: Q.Config, s: Sys, m: Move, id: nat)
    requires !OnStorage(m) && id in s.queue.items
    ensures id in Next(cfg, s, m).queue.items
    ensures Next(cfg, s, m).queue.items[id].transactionId == s.queue.items[id].transactionId
  {
  }

  // ---------- End-to-end agreement ----------

  /** An item that is successful without an operator's word is bound to a stored transaction
      whose status is successful. */
  lemma SuccessAgrees(cfg: Q.Config, s: Sys, id: nat)
    requires Reachable(cfg, s)
    requires id in s.queue.items && s.queue.items[id].status == Q.Successful && !ForcedComplete(s.queue.admin, id)
    ensures var tx := s.queue.items[id].transactionId;
            tx in s.stored && s.stored[tx].item == id && s.stored[tx].snapshot.status == Successful
  {
    ReachableInv(cfg, s);
    assert SuccessOk(s, id);
  }

  /** A transaction that is durably successful is never saved again, by any worker, whatever
      happens to its item: no step of it is started any more. */
  lemma SuccessIsFrozen(cfg: Q.Config, s: Sys, after: seq<Move>, tx: nat)
    requires Reachable(cfg, s) && tx in s.stored && s.stored[tx].snapshot.status == Successful
    ensures var t := RunMoves(cfg, s, after);
            && tx in t.stored && t.stored[tx] == s.stored[tx]
            && forall token :: token in t.sessions && t.sessions[token].phase.Working? && t.sessions[token].phase.tx == tx ==>
                 !MaySave(t, token)
  {
    ReachableInv(cfg, s);
    RunLater(cfg, s, after);
    RunKeeps(cfg, s, after);
    var t := RunMoves(cfg, s, after);
    forall token | token in t.sessions && t.sessions[token].phase.Working? && t.sessions[token].phase.tx == tx
      ensures !MaySave(t, token)
    {
      if MaySave(t, token) {
        HolderIsCurrent(cfg, t, token);
        SaveStoresExactly(t, token);
      }
    }
  }

  /** Across all deliveries, crashes and resumes a recorded success of a step is the step's
      last event in the stored history, and there is at most one. */
  lemma StoredSuccessIsFinal(cfg: Q.Config, s: Sys, tx: nat, i: nat)
    requires Reachable(cfg, s) && tx in s.stored && i < |s.stored[tx].snapshot.steps|
    ensures var d := s.stored[tx].snapshot;
            var key := d.steps[i].StepKey();
            && (forall k: nat :: SucceededAt(d, k, key) ==> d.steps[i].status == Successful && !MentionsAfter(d, k, key))
            && (forall j: nat, k: nat :: SucceededAt(d, j, key) && SucceededAt(d, k, key) ==> j == k)
  {
    ReachableInv(cfg, s);
    assert StoredOk(s.stored[tx]);
    var d := s.stored[tx].snapshot;
    var key := d.steps[i].StepKey();
    forall j: nat, k: nat | SucceededAt(d, j, key) && SucceededAt(d, k, key) ensures j == k {
      assert !MentionsAfter(d, j, key) && !MentionsAfter(d, k, key);
      assert d.history[j].step == Some(key) && d.history[k].step == Some(key);
    }
  }
}
