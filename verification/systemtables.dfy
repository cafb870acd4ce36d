/** The system's saves are the table writes: storage as tables, seen through `Load`, moves as
    the system's storage does, and the table-level fence lets through the same saves. */
module SystemTables {
  import opened Options
  import opened Records
  import opened Tables
  import opened TransactionStores
  import opened Checkpoints
  import opened SystemSpec
  import opened SystemInvariants
  import opened SystemRuns
  import Q = QueueSpec

  ghost predicate ReadsAs(st: Store, tx: nat, r: Stored) {
    && tx in st.headers && Load(st, tx) == Some(r.snapshot)
    && st.headers[tx].revision == r.revision && st.headers[tx].queueItem == Some(r.item)
  }

  /** Reading every transaction back gives the system's storage. */
  ghost predicate Represents(st: Store, stored: map<nat, Stored>) {
    && st.headers.Keys == stored.Keys && st.history.Keys <= stored.Keys
    && forall tx :: tx in stored ==> ReadsAs(st, tx, stored[tx])
  }

  /** A listing of a snapshot's steps in any order. */
  ghost predicate Lists(rows: seq<StepRow>, v: Snapshot) {
    DistinctKeys(rows) && SortRows(rows) == v.steps
  }

  function SaverOf(s: Sys, token: nat): Writer
    requires token in s.sessions && s.sessions[token].phase.Working?
  {
    Writer(s.sessions[token].item, s.sessions[token].worker, token, s.sessions[token].phase.revision)
  }

  lemma HeaderIdentity(st: Store, stored: map<nat, Stored>, tx: nat)
    requires Represents(st, stored) && tx in stored
    ensures st.headers[tx].identity == stored[tx].snapshot.identity
    ensures StoredHistory(st, tx) == stored[tx].snapshot.history && st.headers[tx].revision == stored[tx].revision
  {
  }

  lemma WriteReadsAs(st: Store, tx: nat, v: Snapshot, rows: seq<StepRow>, fence: Fence)
    requires Lists(rows, v) && fence.revision == if tx in st.headers then st.headers[tx].revision else 0
    ensures ReadsAs(Write(st, tx, NextHeader(st, tx, v, Some(fence)), rows, v.history), tx,
                    Stored(v.(history := Merge(StoredHistory(st, tx), v.history)), fence.revision + 1, fence.queueItem))
  {
    WrittenRows(st, tx, NextHeader(st, tx, v, Some(fence)), rows, v.history);
  }

  lemma OthersReadAs(st: Store, tx: nat, h: Header, rows: seq<StepRow>, history: seq<Entry>, other: nat, r: Stored)
    requires other != tx && ReadsAs(st, other, r)
    ensures ReadsAs(Write(st, tx, h, rows, history), other, r)
  {
    WriteFrames(st, tx, h, rows, history, other);
  }

  lemma OneMoreRepresented(st: Store, stored: map<nat, Stored>, w: Store, tx: nat, r: Stored)
    requires Represents(st, stored) && ReadsAs(w, tx, r)
    requires w.headers.Keys == st.headers.Keys + {tx} && w.history.Keys == st.history.Keys + {tx}
    requires forall other :: other in stored && other != tx ==> ReadsAs(w, other, stored[other])
    ensures Represents(w, stored[tx := r])
  {
  }

  lemma WriteOneMore(st: Store, stored: map<nat, Stored>, tx: nat, h: Header, rows: seq<StepRow>, history: seq<Entry>, r: Stored)
    requires Represents(st, stored) && ReadsAs(Write(st, tx, h, rows, history), tx, r)
    ensures Represents(Write(st, tx, h, rows, history), stored[tx := r])
  {
    forall other | other in stored && other != tx ensures ReadsAs(Write(st, tx, h, rows, history), other, stored[other]) {
      OthersReadAs(st, tx, h, rows, history, other, stored[other]);
    }
    OneMoreRepresented(st, stored, Write(st, tx, h, rows, history), tx, r);
  }

  /** One write, seen through `Load`. */
  lemma WriteRepresents(st: Store, stored: map<nat, Stored>, tx: nat, v: Snapshot, rows: seq<StepRow>, fence: Fence)
    requires Represents(st, stored) && Lists(rows, v)
    requires fence.revision == if tx in stored then stored[tx].revision else 0
    ensures Represents(Write(st, tx, NextHeader(st, tx, v, Some(fence)), rows, v.history),
                       stored[tx := Stored(v.(history := Merge(StoredHistory(st, tx), v.history)), fence.revision + 1, fence.queueItem)])
  {
    if tx in stored { HeaderIdentity(st, stored, tx); }
    WriteReadsAs(st, tx, v, rows, fence);
    WriteOneMore(st, stored, tx, NextHeader(st, tx, v, Some(fence)), rows, v.history,
                 Stored(v.(history := Merge(StoredHistory(st, tx), v.history)), fence.revision + 1, fence.queueItem));
  }

  lemma FenceAgrees(s: Sys, st: Store, token: nat, rows: seq<StepRow>)
    requires Represents(st, s.stored) && token in s.sessions && token != 0
    requires s.sessions[token].phase.Working? && s.sessions[token].phase.plan != [] && s.sessions[token].phase.tx in s.stored
    requires Lists(rows, s.sessions[token].phase.plan[0])
    ensures var p := s.sessions[token].phase;
            FencedRefusal(s.queue, st, SaverOf(s, token), p.tx, p.plan[0], rows, false).None? <==> MaySave(s, token)
  {
    HeaderIdentity(st, s.stored, s.sessions[token].phase.tx);
  }

  /** A save of the system is accepted by the tables' fence exactly when the system allows it,
      and it leaves the tables representing the system's next storage. */
  lemma SaveRefines(s: Sys, st: Store, token: nat, rows: seq<StepRow>)
    requires Represents(st, s.stored) && token in s.sessions && token != 0
    requires s.sessions[token].phase.Working? && s.sessions[token].phase.plan != [] && s.sessions[token].phase.tx in s.stored
    requires Lists(rows, s.sessions[token].phase.plan[0])
    ensures var p := s.sessions[token].phase;
            var refused := FencedRefusal(s.queue, st, SaverOf(s, token), p.tx, p.plan[0], rows, false);
            && (refused.None? <==> MaySave(s, token))
            && (MaySave(s, token) ==>
                  Represents(Write(st, p.tx, NextHeader(st, p.tx, p.plan[0], Some(Fence(p.revision, s.sessions[token].item, token))),
                                   rows, p.plan[0].history),
                             AfterSave(s, token).stored))
  {
    var p := s.sessions[token].phase;
    FenceAgrees(s, st, token, rows);
    if MaySave(s, token) {
      HeaderIdentity(st, s.stored, p.tx);
      WriteRepresents(st, s.stored, p.tx, p.plan[0], rows, Fence(p.revision, s.sessions[token].item, token));
    }
  }

  /** The first save: accepted by the tables' fence exactly when the system allows it. */
  lemma InitializeRefines(cfg: Q.Config, s: Sys, st: Store, m: Move, rows: seq<StepRow>)
    requires Represents(st, s.stored) && m.Initialize? && m.token in s.sessions && m.token != 0
    requires s.sessions[m.token].phase == Claimed(0) && Buildable(m.built) && Lists(rows, m.built)
    ensures var l := s.sessions[m.token];
            var w := Writer(l.item, l.worker, m.token, 0);
            && (FencedRefusal(s.queue, st, w, m.tx, m.built, rows, true).None? <==> MayInitialize(s, m))
            && (MayInitialize(s, m) ==>
                  Represents(Write(st, m.tx, NextHeader(st, m.tx, m.built, Some(Fence(0, l.item, m.token))), rows, m.built.history),
                             AfterInitialize(cfg, s, m).stored))
  {
    if MayInitialize(s, m) {
      WriteRepresents(st, s.stored, m.tx, m.built, rows, Fence(0, s.sessions[m.token].item, m.token));
    }
  }

  /** Why a reachable session is refused: with checkpoints left to save, only for a lost claim, and
      the refusal says so. */
  lemma RefusedAsStale(cfg: Q.Config, s: Sys, st: Store, token: nat, rows: seq<StepRow>)
    requires Reachable(cfg, s) && Represents(st, s.stored)
    requires token in s.sessions && s.sessions[token].phase.Working? && s.sessions[token].phase.plan != []
    requires Lists(rows, s.sessions[token].phase.plan[0])
    ensures var p := s.sessions[token].phase;
            FencedRefusal(s.queue, st, SaverOf(s, token), p.tx, p.plan[0], rows, false) ==
            if HoldsClaim(s, token) then None else Some(StaleClaim)
  {
    ReachableInv(cfg, s);
    assert SessionOk(s, token, s.sessions[token]);
    if HoldsClaim(s, token) {
      OnlyLostClaimsAreRefused(cfg, s, token);
      FenceAgrees(s, st, token, rows);
    } else {
      LostIsStale(s, st, token, rows);
    }
  }

  lemma LostIsStale(s: Sys, st: Store, token: nat, rows: seq<StepRow>)
    requires token in s.sessions && s.sessions[token].phase.Working? && s.sessions[token].phase.plan != [] && token != 0
    requires !HoldsClaim(s, token)
    ensures var p := s.sessions[token].phase;
            FencedRefusal(s.queue, st, SaverOf(s, token), p.tx, p.plan[0], rows, false) == Some(StaleClaim)
  {
    var p := s.sessions[token].phase;
    RefusalReasons(s.queue, st, SaverOf(s, token), p.tx, p.plan[0], rows, false);
  }
}
