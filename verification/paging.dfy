/** Keyset paging: each query returns the first rows beyond a position and, when there are
    more, the position of the last row returned. */
module Paging {
  import opened Options

  /** A row's sort key: creation time and id for items and transactions, sequence for events. */
  datatype Position = Created(at: int, id: int) | Sequence(n: int)

  // ---------- The three orders ----------

  predicate ItemOrder(a: Position, b: Position) {
    a.Created? && b.Created? && (a.at < b.at || (a.at == b.at && a.id < b.id))
  }

  /** Newest first, then id ascending. */
  predicate TransactionOrder(a: Position, b: Position) {
    a.Created? && b.Created? && (a.at > b.at || (a.at == b.at && a.id < b.id))
  }

  predicate EventOrder(a: Position, b: Position) {
    a.Sequence? && b.Sequence? && a.n < b.n
  }

  type Order = (Position, Position) -> bool

  predicate Strict(before: Order, a: Position, b: Position, c: Position) {
    && !before(a, a)
    && (before(a, b) && before(b, c) ==> before(a, c))
  }

  ghost predicate StrictOrder(before: Order) {
    forall a, b, c :: Strict(before, a, b, c)
  }

  lemma OrdersAreStrict()
    ensures StrictOrder(ItemOrder) && StrictOrder(TransactionOrder) && StrictOrder(EventOrder)
  {
  }

  /** Rows as `ORDER BY` lists them. */
  ghost predicate Ordered(before: Order, rows: seq<Position>) {
    forall i, j :: 0 <= i < j < |rows| ==> before(rows[i], rows[j])
  }

  // ---------- One query ----------

  datatype Page = Page(rows: seq<Position>, hasMore: bool, next: Option<Position>)

  /** The rows a cursor's `WHERE` clause lets through. */
  function Beyond(before: Order, rows: seq<Position>, after: Option<Position>): seq<Position> {
    if after.None? || rows == [] then rows
    else Beyond(before, rows[..|rows| - 1], after) + if before(after.value, rows[|rows| - 1]) then [rows[|rows| - 1]] else []
  }

  /** `LIMIT limit + 1`, and what is made of it. */
  function Query(before: Order, rows: seq<Position>, after: Option<Position>, limit: nat): Page {
    var found := Beyond(before, rows, after);
    var fetched := if |found| <= limit + 1 then found else found[..limit + 1];
    var hasMore := |fetched| > limit;
    var page := if hasMore then fetched[..limit] else fetched;
    Page(page, hasMore, if hasMore && page != [] then Some(page[|page| - 1]) else None)
  }

  lemma FrontOrdered(before: Order, rows: seq<Position>, r: Position)
    requires Ordered(before, rows) && rows != [] && r in rows[..|rows| - 1]
    ensures before(r, rows[|rows| - 1])
  {
  }

  lemma {:induction false} BeyondMembers(before: Order, rows: seq<Position>, after: Option<Position>)
    ensures forall r :: r in Beyond(before, rows, after) <==> r in rows && (after.None? || before(after.value, r))
  {
    if after.Some? && rows != [] {
      var front, last := rows[..|rows| - 1], rows[|rows| - 1];
      BeyondMembers(before, front, after);
      assert forall r :: r in rows <==> r in front || r == last;
    }
  }

  lemma {:induction false} BeyondOrdered(before: Order, rows: seq<Position>, after: Option<Position>)
    requires Ordered(before, rows)
    ensures Ordered(before, Beyond(before, rows, after))
  {
    if after.Some? && rows != [] {
      var front, last := rows[..|rows| - 1], rows[|rows| - 1];
      BeyondOrdered(before, front, after);
      BeyondMembers(before, front, after);
      var f := Beyond(before, front, after);
      forall i | 0 <= i < |f| ensures before(f[i], last) {
        assert f[i] in f;
        FrontOrdered(before, rows, f[i]);
      }
    }
  }

  lemma BeyondMeans(before: Order, rows: seq<Position>, after: Option<Position>)
    requires Ordered(before, rows)
    ensures Ordered(before, Beyond(before, rows, after))
    ensures forall r :: r in Beyond(before, rows, after) <==> r in rows && (after.None? || before(after.value, r))
  {
    BeyondOrdered(before, rows, after);
    BeyondMembers(before, rows, after);
  }

  /** A page holds the first rows beyond the position, and everything beyond it when it says
      there is no more. */
  lemma QueryMeans(before: Order, rows: seq<Position>, after: Option<Position>, limit: nat)
    requires limit >= 1
    ensures var q := Query(before, rows, after, limit);
            var found := Beyond(before, rows, after);
            && q.rows == found[..if |found| <= limit then |found| else limit]
            && (q.hasMore <==> |found| > limit)
            && q.next == if q.hasMore then Some(q.rows[|q.rows| - 1]) else None
  {
  }

  // ---------- Following the cursor ----------

  /** What a reader collects that follows the cursor through the given table states, one page
      from each, with the given page limits. */
  function Pages(before: Order, tables: seq<seq<Position>>, limits: seq<nat>, after: Option<Position>): seq<Position>
    requires |limits| == |tables|
  {
    if tables == [] then []
    else
      var q := Query(before, tables[0], after, limits[0]);
      q.rows + if q.hasMore then Pages(before, tables[1..], limits[1..], q.next) else []
  }

  /** The reader meets the last page within these states. */
  predicate Finishes(before: Order, tables: seq<seq<Position>>, limits: seq<nat>, after: Option<Position>)
    requires |limits| == |tables|
  {
    tables != [] &&
    (var q := Query(before, tables[0], after, limits[0]); q.hasMore ==> Finishes(before, tables[1..], limits[1..], q.next))
  }

  ghost predicate WellPaged(before: Order, tables: seq<seq<Position>>, limits: seq<nat>) {
    && StrictOrder(before) && |limits| == |tables|
    && (forall k :: 0 <= k < |tables| ==> Ordered(before, tables[k]))
    && forall k :: 0 <= k < |limits| ==> limits[k] >= 1
  }

  ghost predicate AllBeyond(before: Order, rows: seq<Position>, after: Option<Position>) {
    after.Some? ==> forall i :: 0 <= i < |rows| ==> before(after.value, rows[i])
  }

  lemma PageIsOrdered(before: Order, rows: seq<Position>, after: Option<Position>, limit: nat)
    requires limit >= 1 && Ordered(before, rows)
    ensures var q := Query(before, rows, after, limit);
            && Ordered(before, q.rows) && AllBeyond(before, q.rows, after)
            && (q.hasMore ==> q.rows != [] && q.next == Some(q.rows[|q.rows| - 1]))
  {
    BeyondMeans(before, rows, after);
    QueryMeans(before, rows, after, limit);
    var found := Beyond(before, rows, after);
    forall i | 0 <= i < |found| && after.Some? ensures before(after.value, found[i]) {
      assert found[i] in found;
    }
  }

  lemma JoinOrdered(before: Order, a: seq<Position>, b: seq<Position>)
    requires StrictOrder(before) && Ordered(before, a) && Ordered(before, b)
    requires a != [] && AllBeyond(before, b, Some(a[|a| - 1]))
    ensures Ordered(before, a + b)
  {
    var last := a[|a| - 1];
    forall i, j | 0 <= i < |a| && 0 <= j < |b| ensures before(a[i], b[j]) {
      assert Strict(before, a[i], last, b[j]);
    }
  }

  lemma JoinBeyond(before: Order, a: seq<Position>, b: seq<Position>, after: Option<Position>)
    requires StrictOrder(before) && AllBeyond(before, a, after)
    requires a != [] && AllBeyond(before, b, Some(a[|a| - 1]))
    ensures AllBeyond(before, a + b, after)
  {
    if after.Some? {
      forall j | 0 <= j < |b| ensures before(after.value, b[j]) {
        assert Strict(before, after.value, a[|a| - 1], b[j]);
      }
    }
  }

  /** Whatever happens to the table between pages, the rows come strictly in order: none is
      ever returned twice. */
  lemma {:induction false} NoRowRepeats(before: Order, tables: seq<seq<Position>>, limits: seq<nat>, after: Option<Position>)
    requires WellPaged(before, tables, limits)
    ensures Ordered(before, Pages(before, tables, limits, after))
    ensures AllBeyond(before, Pages(before, tables, limits, after), after)
  {
    if tables != [] {
      var q := Query(before, tables[0], after, limits[0]);
      PageIsOrdered(before, tables[0], after, limits[0]);
      if q.hasMore {
        NoRowRepeats(before, tables[1..], limits[1..], q.next);
        JoinOrdered(before, q.rows, Pages(before, tables[1..], limits[1..], q.next));
        JoinBeyond(before, q.rows, Pages(before, tables[1..], limits[1..], q.next), after);
      }
    }
  }

  /** A row that is not on the page lies beyond the page's cursor. */
  lemma NotOnPage(before: Order, rows: seq<Position>, after: Option<Position>, limit: nat, r: Position)
    requires limit >= 1 && Ordered(before, rows) && r in rows && (after.None? || before(after.value, r))
    ensures var q := Query(before, rows, after, limit);
            r in q.rows || (q.hasMore && q.next.Some? && before(q.next.value, r))
  {
    BeyondMeans(before, rows, after);
    QueryMeans(before, rows, after, limit);
    var found := Beyond(before, rows, after);
    var i :| 0 <= i < |found| && found[i] == r;
    var q := Query(before, rows, after, limit);
    if i < |q.rows| { assert q.rows[i] == r; }
  }

  /** A row that matches in every state the reader looks at is returned. */
  lemma {:induction false} LastingRowIsReturned(before: Order, tables: seq<seq<Position>>, limits: seq<nat>, after: Option<Position>, r: Position)
    requires WellPaged(before, tables, limits) && Finishes(before, tables, limits, after)
    requires (forall k :: 0 <= k < |tables| ==> r in tables[k]) && (after.None? || before(after.value, r))
    ensures r in Pages(before, tables, limits, after)
  {
    NotOnPage(before, tables[0], after, limits[0], r);
    var q := Query(before, tables[0], after, limits[0]);
    if r !in q.rows {
      LastingRowIsReturned(before, tables[1..], limits[1..], q.next, r);
    }
  }

  /** The traversal property for a changing table: lasting rows exactly once, none twice. */
  lemma TraversalUnderChange(before: Order, tables: seq<seq<Position>>, limits: seq<nat>, r: Position)
    requires WellPaged(before, tables, limits) && Finishes(before, tables, limits, None)
    ensures var all := Pages(before, tables, limits, None);
            && (forall i, j :: 0 <= i < j < |all| ==> all[i] != all[j])
            && ((forall k :: 0 <= k < |tables| ==> r in tables[k]) ==> r in all)
  {
    var all := Pages(before, tables, limits, None);
    NoRowRepeats(before, tables, limits, None);
    forall i, j | 0 <= i < j < |all| ensures all[i] != all[j] {
      assert before(all[i], all[j]) && Strict(before, all[i], all[i], all[i]);
    }
    if forall k :: 0 <= k < |tables| ==> r in tables[k] {
      LastingRowIsReturned(before, tables, limits, None, r);
    }
  }

  /** Whatever changes between pages, items are listed by creation time and then id. */
  lemma ItemsListed(tables: seq<seq<Position>>, limits: seq<nat>, after: Option<Position>, i: nat, j: nat)
    requires WellPaged(ItemOrder, tables, limits) && i < j < |Pages(ItemOrder, tables, limits, after)|
    ensures var all := Pages(ItemOrder, tables, limits, after);
            all[i].Created? && all[j].Created? && (all[i].at < all[j].at || (all[i].at == all[j].at && all[i].id < all[j].id))
  {
    NoRowRepeats(ItemOrder, tables, limits, after);
    assert ItemOrder(Pages(ItemOrder, tables, limits, after)[i], Pages(ItemOrder, tables, limits, after)[j]);
  }

  /** Transactions are listed newest first, and then by id. */
  lemma TransactionsListed(tables: seq<seq<Position>>, limits: seq<nat>, after: Option<Position>, i: nat, j: nat)
    requires WellPaged(TransactionOrder, tables, limits) && i < j < |Pages(TransactionOrder, tables, limits, after)|
    ensures var all := Pages(TransactionOrder, tables, limits, after);
            all[i].Created? && all[j].Created? && (all[i].at > all[j].at || (all[i].at == all[j].at && all[i].id < all[j].id))
  {
    NoRowRepeats(TransactionOrder, tables, limits, after);
    assert TransactionOrder(Pages(TransactionOrder, tables, limits, after)[i], Pages(TransactionOrder, tables, limits, after)[j]);
  }

  /** Events are listed by sequence. */
  lemma EventsListed(tables: seq<seq<Position>>, limits: seq<nat>, after: Option<Position>, i: nat, j: nat)
    requires WellPaged(EventOrder, tables, limits) && i < j < |Pages(EventOrder, tables, limits, after)|
    ensures var all := Pages(EventOrder, tables, limits, after);
            all[i].Sequence? && all[j].Sequence? && all[i].n < all[j].n
  {
    NoRowRepeats(EventOrder, tables, limits, after);
    assert EventOrder(Pages(EventOrder, tables, limits, after)[i], Pages(EventOrder, tables, limits, after)[j]);
  }

  // ---------- An unchanged table ----------

  lemma {:induction false} NothingBefore(before: Order, rows: seq<Position>, last: Position)
    requires StrictOrder(before) && forall i :: 0 <= i < |rows| ==> before(rows[i], last)
    ensures Beyond(before, rows, Some(last)) == []
  {
    if rows != [] {
      var r := rows[|rows| - 1];
      assert Strict(before, last, r, last) && Strict(before, last, last, last);
      NothingBefore(before, rows[..|rows| - 1], last);
    }
  }

  /** The last row of the table and an earlier one that lies beyond the position. */
  lemma LastIsBeyond(before: Order, rows: seq<Position>, after: Option<Position>, r: Position)
    requires StrictOrder(before) && Ordered(before, rows) && rows != []
    requires r in rows[..|rows| - 1] && (after.None? || before(after.value, r))
    ensures before(r, rows[|rows| - 1]) && (after.None? || before(after.value, rows[|rows| - 1]))
  {
    FrontOrdered(before, rows, r);
    if after.Some? { assert Strict(before, after.value, r, rows[|rows| - 1]); }
  }

  lemma LastHasNothingAfter(before: Order, rows: seq<Position>)
    requires StrictOrder(before) && Ordered(before, rows) && rows != []
    ensures Beyond(before, rows, Some(rows[|rows| - 1])) == []
  {
    var front, last := rows[..|rows| - 1], rows[|rows| - 1];
    assert Strict(before, last, last, last);
    forall k | 0 <= k < |front| ensures before(front[k], last) { assert before(rows[k], rows[|rows| - 1]); }
    NothingBefore(before, front, last);
  }

  /** Continuing after a returned row continues with the row after it. */
  lemma {:induction false} BeyondRow(before: Order, rows: seq<Position>, after: Option<Position>, i: nat)
    requires StrictOrder(before) && Ordered(before, rows) && i < |Beyond(before, rows, after)|
    ensures Beyond(before, rows, Some(Beyond(before, rows, after)[i])) == Beyond(before, rows, after)[i + 1..]
  {
    var front, last := rows[..|rows| - 1], rows[|rows| - 1];
    var found, f := Beyond(before, rows, after), Beyond(before, front, after);
    assert found == f + if after.None? || before(after.value, last) then [last] else [] by {
      assert rows == front + [last];
    }
    if i < |f| {
      BeyondMeans(before, front, after);
      assert f[i] in f;
      LastIsBeyond(before, rows, after, f[i]);
      BeyondRow(before, front, after, i);
      assert found[i + 1..] == f[i + 1..] + [last];
    } else {
      LastHasNothingAfter(before, rows);
    }
  }

  /** One page and what lies beyond its cursor make up what lay beyond the position. */
  lemma PageAndRest(before: Order, rows: seq<Position>, after: Option<Position>, limit: nat)
    requires StrictOrder(before) && Ordered(before, rows) && limit >= 1
    ensures var q := Query(before, rows, after, limit);
            var found := Beyond(before, rows, after);
            && |q.rows| == Smaller(limit, |found|)
            && (q.hasMore ==> q.rows != [] && found == q.rows + Beyond(before, rows, q.next) && Beyond(before, rows, q.next) != [])
            && (!q.hasMore ==> found == q.rows)
  {
    QueryMeans(before, rows, after, limit);
    var found := Beyond(before, rows, after);
    if |found| > limit {
      BeyondRow(before, rows, after, limit - 1);
      SplitAt(found, limit);
    } else {
      assert found[..|found|] == found;
    }
  }

  lemma SplitAt(found: seq<Position>, limit: nat)
    requires 1 <= limit < |found|
    ensures found == found[..limit] + found[limit..] && found[limit..] != [] && found[..limit] != []
    ensures found[..limit][limit - 1] == found[limit - 1]
  {
  }

  function Smaller(a: nat, b: nat): nat { if a <= b then a else b }

  /** On an unchanged table, any page limits give every matching row once, in order, and the
      traversal ends within one page more than there are rows. */
  lemma {:induction false} TraversalIsComplete(before: Order, rows: seq<Position>, tables: seq<seq<Position>>, limits: seq<nat>, after: Option<Position>)
    requires WellPaged(before, tables, limits) && forall k :: 0 <= k < |tables| ==> tables[k] == rows
    requires |tables| > |Beyond(before, rows, after)|
    ensures Finishes(before, tables, limits, after) && Pages(before, tables, limits, after) == Beyond(before, rows, after)
  {
    assert tables[0] == rows;
    PageAndRest(before, rows, after, limits[0]);
    var q := Query(before, rows, after, limits[0]);
    if q.hasMore {
      TraversalIsComplete(before, rows, tables[1..], limits[1..], q.next);
    }
  }

  // ---------- The capped page loop ----------

  const QUERY_PAGE_SIZE: nat := 1_000
  const QUERY_MAX_LIMIT: nat := 1_000

  datatype LimitError = LimitOutOfRange

  function Concat(pages: seq<seq<Position>>): seq<Position> {
    if pages == [] then [] else Concat(pages[..|pages| - 1]) + pages[|pages| - 1]
  }

  lemma PageTaken(pages: seq<seq<Position>>, page: seq<Position>, left: seq<Position>, found: seq<Position>)
    requires found == Concat(pages) + (page + left)
    ensures found == Concat(pages + [page]) + left && |Concat(pages + [page])| == |Concat(pages)| + |page|
    ensures Concat(pages + [page]) <= found && (left == [] ==> Concat(pages + [page]) == found)
  {
  }

  /** One call of `query_transactions`: the next rows, at most `limit`, and what remains. */
  method QueryTransactions(rows: seq<Position>, cursor: Option<Position>, limit: int) returns (r: Result<Page, LimitError>)
    requires Ordered(TransactionOrder, rows)
    ensures r.Failure? <==> limit < 1 || limit > 1_000
    ensures r.Success? ==>
              var found := Beyond(TransactionOrder, rows, cursor);
              var rest := if r.value.hasMore then Beyond(TransactionOrder, rows, r.value.next) else [];
              && found == r.value.rows + rest && |r.value.rows| == Smaller(limit, |found|)
              && (r.value.hasMore <==> rest != [])
  {
    if limit < 1 || limit > QUERY_MAX_LIMIT {
      return Failure(LimitOutOfRange);
    }
    OrdersAreStrict();
    PageAndRest(TransactionOrder, rows, cursor, limit);
    r := Success(Query(TransactionOrder, rows, cursor, limit));
  }

  /** `_iter_transaction_pages` on an unchanged table: the pages are the first rows up to the
      caller's cap, and all rows without one. A cap below one is refused by the query. */
  method IterTransactionPages(rows: seq<Position>, limit: Option<int>, start: Option<Position>)
    returns (r: Result<seq<seq<Position>>, LimitError>)
    requires Ordered(TransactionOrder, rows)
    ensures r.Failure? <==> limit.Some? && limit.value < 1
    ensures r.Success? ==>
              var found := Beyond(TransactionOrder, rows, start);
              && Concat(r.value) <= found
              && |Concat(r.value)| == if limit.Some? then Smaller(limit.value, |found|) else |found|
  {
    ghost var found := Beyond(TransactionOrder, rows, start);
    var remaining, cursor := limit, start;
    var pages: seq<seq<Position>> := [];
    ghost var left := found;
    while true
      invariant left == Beyond(TransactionOrder, rows, cursor) && found == Concat(pages) + left
      invariant remaining.Some? == limit.Some?
      invariant limit.Some? ==> remaining.value == limit.value - |Concat(pages)| && (pages != [] ==> remaining.value > 0)
      decreases |left|
    {
      var pageLimit := if remaining.None? || remaining.value >= QUERY_PAGE_SIZE then QUERY_PAGE_SIZE else remaining.value;
      var q := QueryTransactions(rows, cursor, pageLimit);
      if q.Failure? {
        return Failure(q.error);
      }
      var page := q.value;
      left := if page.hasMore then Beyond(TransactionOrder, rows, page.next) else [];
      PageTaken(pages, page.rows, left, found);
      pages := pages + [page.rows];
      if remaining.Some? {
        remaining := Some(remaining.value - |page.rows|);
      }
      if !page.hasMore || (remaining.Some? && remaining.value <= 0) {
        return Success(pages);
      }
      cursor := page.next;
    }
  }
}
