/** The transaction tables: headers, step rows, exception rows and history rows, how one
    snapshot is written into them and how it is read back. */
module Tables {
  import opened Options
  import opened Sorting
  import opened Records

  datatype Header = Header(
    reference: string,
    identity: string,
    status: Status,
    retryCount: nat,
    category: Category,
    disposition: Disposition,
    failureCode: string,
    revision: nat,
    queueItem: Option<nat>,
    claimToken: nat)

  datatype StepRecord = StepRecord(tx: nat, name: string, order: int, status: Status)

  /** An exception row names its step by the step's id: transaction, name and order. */
  datatype ExcRecord = ExcRecord(tx: nat, name: string, order: int, exc: Exc)

  /** History rows are unique by transaction and sequence; a transaction's rows are listed by
      sequence. */
  datatype Store = Store(headers: map<nat, Header>, steps: seq<StepRecord>, exceptions: seq<ExcRecord>, history: map<nat, seq<Entry>>)

  // ---------- Selecting rows ----------

  function Filter<T>(s: seq<T>, p: T -> bool): (r: seq<T>) {
    if s == [] then []
    else Filter(s[..|s| - 1], p) + if p(s[|s| - 1]) then [s[|s| - 1]] else []
  }

  lemma {:induction false} FilterConcat<T>(a: seq<T>, b: seq<T>, p: T -> bool)
    ensures Filter(a + b, p) == Filter(a, p) + Filter(b, p)
  {
    if b == [] {
      assert a + b == a;
    } else {
      assert (a + b)[..|a + b| - 1] == a + b[..|b| - 1];
      FilterConcat(a, b[..|b| - 1], p);
    }
  }

  lemma {:induction false} FilterNone<T>(s: seq<T>, p: T -> bool)
    requires forall i :: 0 <= i < |s| ==> !p(s[i])
    ensures Filter(s, p) == []
  {
    if s != [] { FilterNone(s[..|s| - 1], p); }
  }

  lemma {:induction false} FilterAll<T>(s: seq<T>, p: T -> bool)
    requires forall i :: 0 <= i < |s| ==> p(s[i])
    ensures Filter(s, p) == s
  {
    if s != [] { FilterAll(s[..|s| - 1], p); }
  }

  /** Deleting rows that the query does not select does not change its answer. */
  lemma {:induction false} FilterKept<T>(s: seq<T>, keep: T -> bool, p: T -> bool)
    requires forall i :: 0 <= i < |s| && p(s[i]) ==> keep(s[i])
    ensures Filter(Filter(s, keep), p) == Filter(s, p)
  {
    if s != [] {
      var front, last := s[..|s| - 1], s[|s| - 1];
      FilterKept(front, keep, p);
      FilterConcat(Filter(front, keep), if keep(last) then [last] else [], p);
      assert [last][..0] == [];
    }
  }

  /** Deleting all rows a query selects empties its answer. */
  lemma {:induction false} FilterDeleted<T>(s: seq<T>, keep: T -> bool, p: T -> bool)
    requires forall i :: 0 <= i < |s| && p(s[i]) ==> !keep(s[i])
    ensures Filter(Filter(s, keep), p) == []
  {
    if s != [] {
      var front, last := s[..|s| - 1], s[|s| - 1];
      FilterDeleted(front, keep, p);
      FilterConcat(Filter(front, keep), if keep(last) then [last] else [], p);
      assert [last][..0] == [];
    }
  }

  // ---------- History rows ----------

  predicate HasSequence(rows: seq<Entry>, n: nat) {
    exists i :: 0 <= i < |rows| && rows[i].sequence == n
  }

  function InsertBySequence(rows: seq<Entry>, e: Entry): seq<Entry> {
    if rows == [] || rows[|rows| - 1].sequence < e.sequence then rows + [e]
    else InsertBySequence(rows[..|rows| - 1], e) + [rows[|rows| - 1]]
  }

  /** `INSERT OR IGNORE`, keyed by sequence. */
  function InsertOrIgnore(rows: seq<Entry>, e: Entry): seq<Entry> {
    if HasSequence(rows, e.sequence) then rows else InsertBySequence(rows, e)
  }

  /** Writing a history entry by entry. */
  function Merge(rows: seq<Entry>, entries: seq<Entry>): seq<Entry> {
    if entries == [] then rows else InsertOrIgnore(Merge(rows, entries[..|entries| - 1]), entries[|entries| - 1])
  }

  /** The older rows, continued by whatever of the written history goes beyond them. */
  function Overlaid(rows: seq<Entry>, entries: seq<Entry>): seq<Entry> {
    if |entries| <= |rows| then rows else rows + entries[|rows|..]
  }

  lemma OverlaidNext(rows: seq<Entry>, entries: seq<Entry>)
    requires Numbered(rows) && Numbered(entries) && entries != []
    ensures var n := |entries| - 1;
            && Numbered(Overlaid(rows, entries[..n]))
            && Overlaid(rows, entries) == InsertOrIgnore(Overlaid(rows, entries[..n]), entries[n])
  {
  }

  lemma {:induction false} MergeExtends(rows: seq<Entry>, entries: seq<Entry>)
    requires Numbered(rows) && Numbered(entries)
    ensures Merge(rows, entries) == Overlaid(rows, entries)
  {
    if entries != [] {
      MergeExtends(rows, entries[..|entries| - 1]);
      OverlaidNext(rows, entries);
    }
  }

  /** A history written over older rows is stored faithfully exactly when the older rows are a
      prefix of it: `INSERT OR IGNORE` drops what differs and keeps what is extra. */
  lemma MergeFaithfulExactly(rows: seq<Entry>, entries: seq<Entry>)
    requires Numbered(rows) && Numbered(entries)
    ensures Merge(rows, entries) == entries <==> rows <= entries
  {
    MergeExtends(rows, entries);
    if rows <= entries {
      assert entries == rows + entries[|rows|..];
    }
  }

  // ---------- Reading one transaction ----------

  function StepOf(tx: nat): StepRecord -> bool { (r: StepRecord) => r.tx == tx }

  function StepNotOf(tx: nat): StepRecord -> bool { (r: StepRecord) => r.tx != tx }

  function ExcOf(tx: nat, k: Key): ExcRecord -> bool { (r: ExcRecord) => r.tx == tx && r.name == k.name && r.order == k.order }

  function ExcNotOf(tx: nat): ExcRecord -> bool { (r: ExcRecord) => r.tx != tx }

  function Excs(records: seq<ExcRecord>): seq<Exc> {
    seq(|records|, i requires 0 <= i < |records| => records[i].exc)
  }

  function RowOf(st: Store, r: StepRecord): StepRow {
    StepRow(r.name, r.order, r.status, Excs(Filter(st.exceptions, ExcOf(r.tx, Key(r.name, r.order)))))
  }

  /** The step rows of a transaction, as they lie in the table. */
  function StoredRows(st: Store, tx: nat): seq<StepRow> {
    var records := Filter(st.steps, StepOf(tx));
    seq(|records|, i requires 0 <= i < |records| => RowOf(st, records[i]))
  }

  function RowOrder(row: StepRow): int { row.order }

  /** `ORDER BY execution_order`. */
  function SortRows(rows: seq<StepRow>): seq<StepRow> { SortBy(RowOrder, rows) }

  function StoredHistory(st: Store, tx: nat): seq<Entry> {
    if tx in st.history then st.history[tx] else []
  }

  /** `load_transaction`. */
  function Load(st: Store, tx: nat): Option<Snapshot> {
    if tx !in st.headers then None
    else
      var h := st.headers[tx];
      Some(Snapshot(h.reference, h.identity, h.status, h.retryCount, h.category, h.disposition, h.failureCode,
                    SortRows(StoredRows(st, tx)), StoredHistory(st, tx)))
  }

  // ---------- Writing one transaction ----------

  function StepRecords(tx: nat, rows: seq<StepRow>): seq<StepRecord> {
    seq(|rows|, i requires 0 <= i < |rows| => StepRecord(tx, rows[i].name, rows[i].order, rows[i].status))
  }

  function ExcRecordsOf(tx: nat, row: StepRow): seq<ExcRecord> {
    seq(|row.exceptions|, i requires 0 <= i < |row.exceptions| => ExcRecord(tx, row.name, row.order, row.exceptions[i]))
  }

  function ExcRecords(tx: nat, rows: seq<StepRow>): seq<ExcRecord> {
    if rows == [] then [] else ExcRecords(tx, rows[..|rows| - 1]) + ExcRecordsOf(tx, rows[|rows| - 1])
  }

  /** The rows of a snapshot replace what was stored, except history, which is merged. */
  function Write(st: Store, tx: nat, h: Header, rows: seq<StepRow>, history: seq<Entry>): Store {
    Store(st.headers[tx := h],
          Filter(st.steps, StepNotOf(tx)) + StepRecords(tx, rows),
          Filter(st.exceptions, ExcNotOf(tx)) + ExcRecords(tx, rows),
          st.history[tx := Merge(StoredHistory(st, tx), history)])
  }

  predicate DistinctKeys(rows: seq<StepRow>) {
    forall i, j :: 0 <= i < j < |rows| ==> rows[i].StepKey() != rows[j].StepKey()
  }

  lemma {:induction false} OwnExceptions(tx: nat, rows: seq<StepRow>, k: Key)
    requires forall i :: 0 <= i < |rows| ==> rows[i].StepKey() != k
    ensures Filter(ExcRecords(tx, rows), ExcOf(tx, k)) == []
  {
    if rows != [] {
      var n := |rows| - 1;
      OwnExceptions(tx, rows[..n], k);
      FilterNone(ExcRecordsOf(tx, rows[n]), ExcOf(tx, k));
      FilterConcat(ExcRecords(tx, rows[..n]), ExcRecordsOf(tx, rows[n]), ExcOf(tx, k));
    }
  }

  /** Each step finds exactly its own exceptions again. */
  lemma {:induction false} ExceptionsAt(tx: nat, rows: seq<StepRow>, i: nat)
    requires DistinctKeys(rows) && i < |rows|
    ensures Filter(ExcRecords(tx, rows), ExcOf(tx, rows[i].StepKey())) == ExcRecordsOf(tx, rows[i])
  {
    var n, k := |rows| - 1, rows[i].StepKey();
    FilterConcat(ExcRecords(tx, rows[..n]), ExcRecordsOf(tx, rows[n]), ExcOf(tx, k));
    if i == n {
      OwnExceptions(tx, rows[..n], k);
      FilterAll(ExcRecordsOf(tx, rows[n]), ExcOf(tx, k));
    } else {
      ExceptionsAt(tx, rows[..n], i);
      FilterNone(ExcRecordsOf(tx, rows[n]), ExcOf(tx, k));
    }
  }

  lemma WrittenSteps(st: Store, tx: nat, h: Header, rows: seq<StepRow>, history: seq<Entry>)
    ensures Filter(Write(st, tx, h, rows, history).steps, StepOf(tx)) == StepRecords(tx, rows)
  {
    FilterConcat(Filter(st.steps, StepNotOf(tx)), StepRecords(tx, rows), StepOf(tx));
    FilterDeleted(st.steps, StepNotOf(tx), StepOf(tx));
    FilterAll(StepRecords(tx, rows), StepOf(tx));
  }

  lemma WrittenExceptions(st: Store, tx: nat, h: Header, rows: seq<StepRow>, history: seq<Entry>, i: nat)
    requires DistinctKeys(rows) && i < |rows|
    ensures Filter(Write(st, tx, h, rows, history).exceptions, ExcOf(tx, rows[i].StepKey())) == ExcRecordsOf(tx, rows[i])
  {
    var k := rows[i].StepKey();
    FilterConcat(Filter(st.exceptions, ExcNotOf(tx)), ExcRecords(tx, rows), ExcOf(tx, k));
    FilterDeleted(st.exceptions, ExcNotOf(tx), ExcOf(tx, k));
    ExceptionsAt(tx, rows, i);
  }

  lemma WrittenRows(st: Store, tx: nat, h: Header, rows: seq<StepRow>, history: seq<Entry>)
    requires DistinctKeys(rows)
    ensures StoredRows(Write(st, tx, h, rows, history), tx) == rows
  {
    var w := Write(st, tx, h, rows, history);
    WrittenSteps(st, tx, h, rows, history);
    var records := StepRecords(tx, rows);
    forall i: nat | i < |rows| ensures RowOf(w, records[i]) == rows[i] {
      WrittenExceptions(st, tx, h, rows, history, i);
      assert rows[i].StepKey() == Key(records[i].name, records[i].order);
      assert Excs(ExcRecordsOf(tx, rows[i])) == rows[i].exceptions;
    }
  }

  lemma FramedExceptions(st: Store, tx: nat, rows: seq<StepRow>, other: nat, k: Key)
    requires other != tx
    ensures Filter(Filter(st.exceptions, ExcNotOf(tx)) + ExcRecords(tx, rows), ExcOf(other, k)) == Filter(st.exceptions, ExcOf(other, k))
  {
    FilterConcat(Filter(st.exceptions, ExcNotOf(tx)), ExcRecords(tx, rows), ExcOf(other, k));
    FilterKept(st.exceptions, ExcNotOf(tx), ExcOf(other, k));
    ExcRecordsTx(tx, rows);
    FilterNone(ExcRecords(tx, rows), ExcOf(other, k));
  }

  lemma FramedSteps(st: Store, tx: nat, rows: seq<StepRow>, other: nat)
    requires other != tx
    ensures Filter(Filter(st.steps, StepNotOf(tx)) + StepRecords(tx, rows), StepOf(other)) == Filter(st.steps, StepOf(other))
  {
    FilterConcat(Filter(st.steps, StepNotOf(tx)), StepRecords(tx, rows), StepOf(other));
    FilterKept(st.steps, StepNotOf(tx), StepOf(other));
    FilterNone(StepRecords(tx, rows), StepOf(other));
  }

  /** Writing one transaction leaves every other one as it was. */
  lemma WriteFrames(st: Store, tx: nat, h: Header, rows: seq<StepRow>, history: seq<Entry>, other: nat)
    requires other != tx
    ensures Load(Write(st, tx, h, rows, history), other) == Load(st, other)
  {
    var w := Write(st, tx, h, rows, history);
    FramedSteps(st, tx, rows, other);
    var records := Filter(st.steps, StepOf(other));
    FilterHolds(st.steps, StepOf(other));
    forall i: nat | i < |records| ensures RowOf(w, records[i]) == RowOf(st, records[i]) {
      FramedExceptions(st, tx, rows, other, Key(records[i].name, records[i].order));
    }
    assert StoredRows(w, other) == StoredRows(st, other);
  }

  lemma {:induction false} FilterHolds<T>(s: seq<T>, p: T -> bool)
    ensures forall i :: 0 <= i < |Filter(s, p)| ==> p(Filter(s, p)[i])
  {
    if s != [] { FilterHolds(s[..|s| - 1], p); }
  }

  lemma {:induction false} ExcRecordsTx(tx: nat, rows: seq<StepRow>)
    ensures forall i :: 0 <= i < |ExcRecords(tx, rows)| ==> ExcRecords(tx, rows)[i].tx == tx
  {
    if rows != [] { ExcRecordsTx(tx, rows[..|rows| - 1]); }
  }
}
