/** The durable records of a transaction: its step rows, exceptions, history entries and
    the snapshot a checkpoint writes. Class `Engine.Transaction` is the mutable object;
    a `Snapshot` is its value at one moment, with the steps in execution order. */
module Records {
  import opened Options

  datatype Status = Pending | InProgress | Successful | Failed | Skipped

  datatype Event =
    | TransactionStarted
    | StepStarted
    | StepSucceeded
    | StepFailed
    | StepSkipped
    | RetryScheduled
    | TransactionResumed
    | TransactionCompleted

  datatype Category = UnknownOutcome | SuccessfulOutcome | BusinessFailed | SystemFailed | ValidationFailed

  datatype Disposition = UnknownDisposition | NotApplicable | NotRequested | RetryExhausted

  /** The exception recorded on a failed step; `retryNumber` is the pass that raised it. */
  datatype Exc =
    | Business(retryNumber: nat, code: string, halts: bool)
    | System(retryNumber: nat, code: string)

  datatype Key = Key(name: string, order: int)

  datatype StepRow = StepRow(name: string, order: int, status: Status, exceptions: seq<Exc>) {
    function StepKey(): Key { Key(name, order) }

    predicate LastIsBusiness() { exceptions != [] && exceptions[|exceptions| - 1].Business? }

    predicate LastIsSystem() { exceptions != [] && exceptions[|exceptions| - 1].System? }

    predicate BusinessFailed() { status == Failed && LastIsBusiness() }

    predicate SystemFailed() { status == Failed && LastIsSystem() }

    /** Neither a retry pass nor a resume runs the step again. */
    predicate Settled() { status == Successful || status == Skipped || BusinessFailed() }
  }

  datatype Entry = Entry(sequence: nat, event: Event, status: Status, retryNumber: nat, step: Option<Key>)

  datatype Snapshot = Snapshot(
    reference: string,
    identity: string,
    status: Status,
    retryCount: nat,
    category: Category,
    disposition: Disposition,
    failureCode: string,
    steps: seq<StepRow>,
    history: seq<Entry>)

  /** `Transaction.append_history`: the next sequence number, the current status and pass. */
  function Append(t: Snapshot, e: Event, step: Option<Key>): Snapshot {
    t.(history := t.history + [Entry(|t.history| + 1, e, t.status, t.retryCount, step)])
  }

  predicate LastEventIs(t: Snapshot, e: Event) {
    t.history != [] && t.history[|t.history| - 1].event == e
  }

  /** History is numbered 1..n without gaps. */
  predicate Numbered(history: seq<Entry>) {
    forall k :: 0 <= k < |history| ==> history[k].sequence == k + 1
  }

  function Keys(steps: seq<StepRow>): seq<Key> {
    seq(|steps|, i requires 0 <= i < |steps| => steps[i].StepKey())
  }

  function Statuses(steps: seq<StepRow>): seq<Status> {
    seq(|steps|, i requires 0 <= i < |steps| => steps[i].status)
  }

  /** Steps in execution order with distinct orders. */
  predicate InOrder(steps: seq<StepRow>) {
    forall i, j :: 0 <= i < j < |steps| ==> steps[i].order < steps[j].order
  }

  predicate AllDone(steps: seq<StepRow>) {
    forall i :: 0 <= i < |steps| ==> steps[i].status == Successful || steps[i].status == Skipped
  }
}
