/** The engine's pass/retry state machine as a function from the transaction it is given
    to the transaction it leaves and the list of checkpoints it writes on the way. */
module EngineSpec {
  import opened Options
  import opened Records

  /** What one call of a step's own code does. */
  datatype Effect =
    | Succeeds
    | SkipsItself
    | RaisesBusiness(code: string, halts: bool)
    | RaisesSystem(code: string)
    | RaisesOther

  /** Step code, seen from the engine: what the step with this execution order does when it
      is called with this many history entries written. History grows with every call, so
      an oracle may answer each call of a run differently. */
  type Oracle = (int, nat) -> Effect

  const UNEXPECTED_CODE := "rpacore.system.unexpected"

  /** An in-memory transaction and the checkpoints written so far, oldest first. */
  datatype Trace = Trace(tx: Snapshot, log: seq<Snapshot>)

  function Checkpoint(r: Trace): Trace { r.(log := r.log + [r.tx]) }

  function BusinessFailedOrders(steps: seq<StepRow>): set<int> {
    set i | 0 <= i < |steps| && steps[i].BusinessFailed() :: steps[i].order
  }

  predicate HasRetryable(steps: seq<StepRow>) {
    exists i :: 0 <= i < |steps| && steps[i].SystemFailed()
  }

  function WithStatus(s: StepRow, from: Status, to: Status): StepRow {
    if s.status == from then s.(status := to) else s
  }

  /** The exception the engine records for an effect; none for the two ways of not failing. */
  function Raised(e: Effect, pass: nat): Option<Exc> {
    match e
    case Succeeds => None
    case SkipsItself => None
    case RaisesBusiness(code, halts) => Some(Business(pass, code, halts))
    case RaisesSystem(code) => Some(System(pass, code))
    case RaisesOther => Some(System(pass, UNEXPECTED_CODE))
  }

  /** The status of a step after the effect. */
  function EffectStatus(e: Effect): Status {
    match e
    case Succeeds => Successful
    case SkipsItself => Skipped
    case _ => Failed
  }

  function Mark(t: Snapshot, i: nat, status: Status, e: Event): Snapshot
    requires i < |t.steps|
  {
    Append(t.(steps := t.steps[i := t.steps[i].(status := status)]), e, Some(t.steps[i].StepKey()))
  }

  /** What one step's return or exception does to the transaction. */
  function Settle(t: Snapshot, i: nat, e: Effect): Snapshot
    requires i < |t.steps|
  {
    match Raised(e, t.retryCount)
    case Some(exc) =>
      Mark(t.(steps := t.steps[i := t.steps[i].(exceptions := t.steps[i].exceptions + [exc])]), i, Failed, StepFailed)
    case None =>
      if e == SkipsItself then Mark(t, i, Skipped, StepSkipped) else Mark(t, i, Successful, StepSucceeded)
  }

  /** Skip the pending steps from position `j` on, each with its own history entry. */
  function SkipFrom(t: Snapshot, j: nat): (r: Snapshot)
    requires j <= |t.steps|
    ensures |r.steps| == |t.steps|
    ensures r.status == t.status && r.retryCount == t.retryCount
    decreases |t.steps| - j
  {
    if j == |t.steps| then t
    else SkipFrom(if t.steps[j].status == Pending then Mark(t, j, Skipped, StepSkipped) else t, j + 1)
  }

  /** Skipped steps made runnable again. */
  function Unskipped(steps: seq<StepRow>): seq<StepRow> {
    seq(|steps|, i requires 0 <= i < |steps| => WithStatus(steps[i], Skipped, Pending))
  }

  /** System-failed steps made runnable again. */
  function Rearmed(steps: seq<StepRow>): seq<StepRow> {
    seq(|steps|, i requires 0 <= i < |steps| =>
      if steps[i].SystemFailed() then steps[i].(status := Pending) else steps[i])
  }

  /** The transaction as `_run` has it when the first checkpoint is written. */
  function Begin(t: Snapshot): Snapshot {
    var steps := if LastEventIs(t, TransactionResumed) then t.steps else Unskipped(t.steps);
    Append(t.(steps := steps, status := InProgress, category := UnknownOutcome,
              disposition := UnknownDisposition, failureCode := ""), TransactionStarted, None)
  }

  function InitialBlocked(t: Snapshot): set<int> {
    if LastEventIs(t, TransactionResumed) then BusinessFailedOrders(t.steps) else {}
  }

  /** System-failed steps go back to pending and the pass number goes up. */
  function Reschedule(t: Snapshot): Snapshot {
    Append(t.(steps := Rearmed(t.steps), retryCount := t.retryCount + 1), RetryScheduled, None)
  }

  /** The newest of the first `n` exceptions that was raised in pass `pass`. */
  function NewestOfPass(exceptions: seq<Exc>, n: nat, pass: nat): Option<Exc>
    requires n <= |exceptions|
  {
    if n == 0 then None
    else if exceptions[n - 1].retryNumber == pass then Some(exceptions[n - 1])
    else NewestOfPass(exceptions, n - 1, pass)
  }

  function FindStep(steps: seq<StepRow>, k: Key, n: nat): Option<StepRow>
    requires n <= |steps|
  {
    if n == 0 then None
    else if steps[n - 1].StepKey() == k then Some(steps[n - 1])
    else FindStep(steps, k, n - 1)
  }

  /** The exception a history entry stands for, if it records the failure of a known step. */
  function Behind(t: Snapshot, e: Entry): Option<Exc> {
    if e.event != StepFailed || e.step.None? then None
    else
      match FindStep(t.steps, e.step.value, |t.steps|)
      case None => None
      case Some(s) => NewestOfPass(s.exceptions, |s.exceptions|, e.retryNumber)
  }

  /** The exception behind the newest `step_failed` among the first `n` history entries. */
  function LastFailure(t: Snapshot, n: nat): Option<Exc>
    requires n <= |t.history|
  {
    if n == 0 then None
    else
      match Behind(t, t.history[n - 1])
      case Some(x) => Some(x)
      case None => LastFailure(t, n - 1)
  }

  function Complete(t: Snapshot): Snapshot {
    var closed :=
      if AllDone(t.steps) then
        t.(status := Successful, category := SuccessfulOutcome, disposition := NotApplicable, failureCode := "")
      else
        match LastFailure(t, |t.history|)
        case Some(x) =>
          if x.Business? then
            t.(status := Failed, category := Category.BusinessFailed, disposition := NotRequested, failureCode := x.code)
          else
            t.(status := Failed, category := Category.SystemFailed, disposition := RetryExhausted, failureCode := x.code)
        case None =>
          t.(status := Failed, category := Category.SystemFailed, disposition := RetryExhausted, failureCode := "");
    Append(closed, TransactionCompleted, None)
  }

  predicate Runs(s: StepRow, blocked: set<int>) {
    s.status != Successful && s.status != Skipped && s.order !in blocked
  }

  predicate StopsPass(e: Effect) {
    e.RaisesSystem? || e.RaisesOther? || (e.RaisesBusiness? && e.halts)
  }

  /** One step of a pass: started, checkpointed, executed, settled, checkpointed. */
  function StartStep(r: Trace, i: nat): Trace
    requires i < |r.tx.steps|
  {
    Checkpoint(r.(tx := Mark(r.tx, i, InProgress, StepStarted)))
  }

  function EffectOf(t: Snapshot, i: nat, oracle: Oracle): Effect
    requires i < |t.steps|
  {
    oracle(t.steps[i].order, |t.history|)
  }

  function RunStep(r: Trace, i: nat, oracle: Oracle): Trace
    requires i < |r.tx.steps|
  {
    var s := StartStep(r, i);
    Checkpoint(s.(tx := Settle(s.tx, i, EffectOf(s.tx, i, oracle))))
  }

  /** What follows a stopping failure: a halting business failure skips the pending rest. */
  function StopAt(r: Trace, i: nat, e: Effect): Trace
    requires i < |r.tx.steps|
  {
    if e.RaisesBusiness? then Checkpoint(r.(tx := SkipFrom(r.tx, i + 1))) else r
  }

  /** `_execute_pass` from position `i` on. */
  function PassFrom(r: Trace, i: nat, blocked: set<int>, oracle: Oracle): (r': Trace)
    requires i <= |r.tx.steps|
    ensures |r'.tx.steps| == |r.tx.steps|
    ensures r'.tx.status == r.tx.status && r'.tx.retryCount == r.tx.retryCount
    decreases |r.tx.steps| - i
  {
    if i == |r.tx.steps| then r
    else if !Runs(r.tx.steps[i], blocked) then PassFrom(r, i + 1, blocked, oracle)
    else
      var e := EffectOf(StartStep(r, i).tx, i, oracle);
      var s := RunStep(r, i, oracle);
      if StopsPass(e) then StopAt(s, i, e) else PassFrom(s, i + 1, blocked, oracle)
  }

  /** The retry loop of `_run`. */
  function RetryFrom(r: Trace, maxRetries: nat, oracle: Oracle): (r': Trace)
    ensures r'.tx.retryCount == r.tx.retryCount || r'.tx.retryCount <= maxRetries
    ensures r'.tx.retryCount >= r.tx.retryCount
    decreases if r.tx.retryCount < maxRetries then maxRetries - r.tx.retryCount else 0
  {
    if r.tx.retryCount < maxRetries && HasRetryable(r.tx.steps) then
      var b := Reschedule(r.tx);
      RetryFrom(Checkpoint(PassFrom(r.(tx := b), 0, BusinessFailedOrders(b.steps), oracle)), maxRetries, oracle)
    else r
  }

  /** `_run` up to the point where the final status is decided. */
  function Work(t: Snapshot, maxRetries: nat, oracle: Oracle): Trace {
    var start := Checkpoint(Trace(Begin(t), []));
    RetryFrom(PassFrom(start, 0, InitialBlocked(t), oracle), maxRetries, oracle)
  }

  /** `_run` on a transaction whose wiring is valid. */
  function Run(t: Snapshot, maxRetries: nat, oracle: Oracle): Trace {
    var last := Work(t, maxRetries, oracle);
    Checkpoint(last.(tx := Complete(last.tx)))
  }
}
