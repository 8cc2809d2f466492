/** Keyset paging over a key column that repeats: which rows the next page leaves out. */
module RepeatedKeys {
  import opened Text
  import opened SqlGenerator
  import opened GeneratedSql
  import opened ResultsBuffer
  import opened PageQueries
  import opened Pagination
  import opened PageProtocol

  predicate NonDescending(rows: seq<Row>, ki: nat) {
    forall i, j :: 0 <= i < j < |rows| ==> KeyOf(rows[i], ki) <= KeyOf(rows[j], ki)
  }

  /** The first row with a key above the bound. */
  function FirstAbove(rows: seq<Row>, ki: nat, bound: int): (n: nat)
    ensures n <= |rows| && forall i :: 0 <= i < n ==> KeyOf(rows[i], ki) <= bound
    ensures n < |rows| ==> KeyOf(rows[n], ki) > bound
  {
    if rows == [] || KeyOf(rows[0], ki) > bound then 0 else 1 + FirstAbove(rows[1..], ki, bound)
  }

  lemma LowestFirst(row: Row, tail: seq<Row>, ki: nat)
    requires NonDescending(tail, ki) && forall t :: t in tail ==> KeyOf(row, ki) <= KeyOf(t, ki)
    ensures NonDescending([row] + tail, ki)
  {
    hide KeyOf;
  }

  lemma {:induction false} InsertKeepsOrder(row: Row, rows: seq<Row>, ki: nat)
    requires NonDescending(rows, ki)
    ensures NonDescending(Insert(row, rows, ki), ki)
  {
    hide KeyOf;
    if rows == [] || KeyOf(row, ki) < KeyOf(rows[0], ki) {
      LowestFirst(row, rows, ki);
    } else {
      InsertKeepsOrder(row, rows[1..], ki);
      InsertKeepsRows(row, rows[1..], ki);
      var tail := Insert(row, rows[1..], ki);
      forall t | t in tail
        ensures KeyOf(rows[0], ki) <= KeyOf(t, ki)
      {
        assert t in multiset(tail);
        assert t == row || t in rows[1..];
      }
      LowestFirst(rows[0], tail, ki);
    }
  }

  /** Ordering by a key that repeats gives all rows, none with a smaller key than the one before. */
  lemma {:induction false} OrderKeepsRows(rows: seq<Row>, ki: nat)
    ensures NonDescending(OrderAsc(rows, ki), ki) && multiset(OrderAsc(rows, ki)) == multiset(rows)
  {
    hide KeyOf, Insert;
    if rows != [] {
      OrderKeepsRows(rows[1..], ki);
      InsertKeepsOrder(rows[0], OrderAsc(rows[1..], ki), ki);
      InsertKeepsRows(rows[0], OrderAsc(rows[1..], ki), ki);
      assert rows == [rows[0]] + rows[1..];
    }
  }

  lemma {:induction false} AboveInsert(row: Row, rows: seq<Row>, ki: nat, bound: int)
    requires NonDescending(rows, ki)
    ensures WhereKey(Insert(row, rows, ki), ki, Next, bound)
         == if KeyOf(row, ki) > bound then Insert(row, WhereKey(rows, ki, Next, bound), ki)
            else WhereKey(rows, ki, Next, bound)
  {
    hide KeyOf;
    if rows == [] || KeyOf(row, ki) < KeyOf(rows[0], ki) {
      assert ([row] + rows)[1..] == rows;
      WhereMembers(rows, ki, Next, bound);
    } else {
      var tail := Insert(row, rows[1..], ki);
      assert ([rows[0]] + tail)[1..] == tail;
      AboveInsert(row, rows[1..], ki, bound);
      var kept := WhereKey(rows[1..], ki, Next, bound);
      assert ([rows[0]] + kept)[1..] == kept && [] + kept == kept;
    }
  }

  lemma AboveCons(row: Row, rows: seq<Row>, ki: nat, bound: int)
    ensures WhereKey([row] + rows, ki, Next, bound)
         == (if KeyOf(row, ki) > bound then [row] else []) + WhereKey(rows, ki, Next, bound)
  {
    hide KeyOf;
    assert ([row] + rows)[1..] == rows;
  }

  lemma OrderCons(row: Row, rows: seq<Row>, ki: nat)
    ensures OrderAsc([row] + rows, ki) == Insert(row, OrderAsc(rows, ki), ki)
  {
    hide Insert;
    assert ([row] + rows)[1..] == rows;
  }

  lemma NothingAbove(ki: nat, bound: int)
    ensures OrderAsc([], ki) == [] && WhereKey([], ki, Next, bound) == []
  {
  }

  lemma {:induction false} AboveOrder(rows: seq<Row>, ki: nat, bound: int)
    ensures OrderAsc(WhereKey(rows, ki, Next, bound), ki) == WhereKey(OrderAsc(rows, ki), ki, Next, bound)
  {
    hide KeyOf, Insert, WhereKey, OrderAsc, NonDescending;
    if rows == [] {
      NothingAbove(ki, bound);
    } else {
      var row, rest := rows[0], rows[1..];
      var kept := WhereKey(rest, ki, Next, bound);
      assert rows == [row] + rest;
      AboveOrder(rest, ki, bound);
      AboveCons(row, rest, ki, bound);
      OrderCons(row, rest, ki);
      OrderKeepsRows(rest, ki);
      AboveInsert(row, OrderAsc(rest, ki), ki, bound);
      if KeyOf(row, ki) > bound {
        OrderCons(row, kept, ki);
      } else {
        assert [] + kept == kept;
      }
    }
  }

  lemma {:induction false} AboveIsSuffix(rows: seq<Row>, ki: nat, bound: int)
    requires NonDescending(rows, ki)
    ensures WhereKey(rows, ki, Next, bound) == rows[FirstAbove(rows, ki, bound)..]
  {
    hide KeyOf;
    if rows != [] {
      AboveIsSuffix(rows[1..], ki, bound);
      if KeyOf(rows[0], ki) > bound {
        assert FirstAbove(rows[1..], ki, bound) == 0;
        assert rows == [rows[0]] + rows[1..];
      } else {
        assert [] + WhereKey(rows[1..], ki, Next, bound) == WhereKey(rows[1..], ki, Next, bound);
      }
    }
  }

  /** The next-page query from row j returns the rows from the first larger key on. What it leaves out are
      exactly the rows behind row j with the same key, and as every later page starts from a key at least
      as large, no later Next shows them either. */
  lemma NextSkipsEqualKeys(table: seq<Row>, ki: nat, column: string, j: nat, limit: nat)
    requires j < |OrderAsc(table, ki)| && IsKeyed(OrderAsc(table, ki)[j], ki)
    ensures var s := OrderAsc(table, ki); var key := KeyOf(s[j], ki); var n := FirstAbove(s, ki, key);
            && j < n
            && Answer(Page(column, s[j][ki], Next, limit), table, ki) == Limit(s[n..], limit)
            && (forall i :: j < i < n ==> KeyOf(s[i], ki) == key)
            && (forall bound, row :: bound >= key && row in WhereKey(table, ki, Next, bound) ==> KeyOf(row, ki) > key)
  {
    hide Limit, WhereKey, OrderAsc, Insert, RenderInt, IntOf, QuoteSqlLiteral;
    var s := OrderAsc(table, ki);
    var key := KeyOf(s[j], ki);
    KeyLiteral(key);
    IntRoundTrip(key);
    OrderKeepsRows(table, ki);
    AboveOrder(table, ki, key);
    AboveIsSuffix(s, ki, key);
    forall bound, row | bound >= key && row in WhereKey(table, ki, Next, bound)
      ensures KeyOf(row, ki) > key
    {
      AboveIsAbove(table, ki, bound, row);
    }
  }

  lemma {:induction false} AboveIsAbove(rows: seq<Row>, ki: nat, bound: int, row: Row)
    requires row in WhereKey(rows, ki, Next, bound)
    ensures KeyOf(row, ki) > bound
  {
    hide KeyOf;
    if KeyOf(rows[0], ki) <= bound || row != rows[0] {
      AboveIsAbove(rows[1..], ki, bound, row);
    }
  }

  /** The next page continues where row j ends exactly when the row behind it has another key. */
  lemma NothingSkippedIff(table: seq<Row>, ki: nat, column: string, j: nat, limit: nat)
    requires j < |OrderAsc(table, ki)| && IsKeyed(OrderAsc(table, ki)[j], ki) && limit > 0
    ensures var s := OrderAsc(table, ki);
            (Answer(Page(column, s[j][ki], Next, limit), table, ki) == Limit(s[j + 1..], limit))
            <==> (j + 1 < |s| ==> KeyOf(s[j + 1], ki) != KeyOf(s[j], ki))
  {
    hide WhereKey, OrderAsc, Insert, KeyOf, IsKeyed, Answer;
    NextSkipsEqualKeys(table, ki, column, j, limit);
    var s := OrderAsc(table, ki);
    var n := FirstAbove(s, ki, KeyOf(s[j], ki));
    if j + 1 < |s| {
      assert Limit(s[j + 1..], limit)[0] == s[j + 1];
      if n < |s| {
        assert Limit(s[n..], limit)[0] == s[n];
      }
    }
  }

  // ---------------------------------------------------------------- a sweep

  /** Every row holds a canonical integer key; keys may repeat. */
  predicate KeyedRows(table: seq<Row>, ki: nat) {
    forall i :: 0 <= i < |table| ==> IsKeyed(table[i], ki)
  }

  lemma OrderedAreKeyed(table: seq<Row>, ki: nat)
    requires KeyedRows(table, ki)
    ensures KeyedRows(OrderAsc(table, ki), ki) && |OrderAsc(table, ki)| == |table|
  {
    hide OrderAsc, IsKeyed;
    OrderKeepsRows(table, ki);
    var s := OrderAsc(table, ki);
    assert |multiset(s)| == |s| && |multiset(table)| == |table|;
    forall i | 0 <= i < |s|
      ensures IsKeyed(s[i], ki)
    {
      assert s[i] in multiset(s);
      assert s[i] in table;
    }
  }

  /** Where a screen that starts at row s ends. */
  function ScreenEnd(n: nat, size: nat, s: nat): nat {
    if s + size < n then s + size else n
  }

  function RowsFrom(sorted: seq<Row>, size: nat, s: nat): seq<Row>
    requires s <= |sorted|
  {
    sorted[s..ScreenEnd(|sorted|, size, s)]
  }

  /** Where the m-th screen of a sweep starts: behind all rows with the last key of the screen before. */
  function ScreenStart(sorted: seq<Row>, size: nat, ki: nat, m: nat): (s: nat)
    requires size > 0
    ensures s <= |sorted|
  {
    if m == 0 then 0
    else
      var s := ScreenStart(sorted, size, ki, m - 1);
      if s == |sorted| then s else FirstAbove(sorted, ki, KeyOf(sorted[ScreenEnd(|sorted|, size, s) - 1], ki))
  }

  function Screen(sorted: seq<Row>, size: nat, ki: nat, m: nat): seq<Row>
    requires size > 0
  {
    RowsFrom(sorted, size, ScreenStart(sorted, size, ki, m))
  }

  /** The screen holds the rows from row s on, and the stored bounds are its first and last keys. */
  predicate ShowsFrom(p: Pager, sorted: seq<Row>, ki: nat, s: nat) {
    && p.state.Some? && p.state.value.plan.Keyset? && s <= |sorted|
    && p.results == RowsFrom(sorted, p.state.value.pageSize, s)
    && p.state.value.plan.firstKey == Cell(p.results, 0, ki)
    && p.state.value.plan.lastKey == LastCell(p.results, ki)
    && KeysetPager(p, ki)
  }

  lemma LimitIsScreen(sorted: seq<Row>, size: nat, s: nat)
    requires s <= |sorted|
    ensures Limit(sorted[s..], size) == RowsFrom(sorted, size, s)
    ensures size <= RESULT_BUFFER_CAPACITY ==> LastN(Limit(sorted[s..], size), RESULT_BUFFER_CAPACITY)
                                               == Limit(sorted[s..], size)
  {
    if s + size >= |sorted| {
      assert sorted[s..] == sorted[s..|sorted|];
    } else {
      assert sorted[s..][..size] == sorted[s..s + size];
    }
  }

  /** The rows that the next-page query returns from a nonempty screen. */
  lemma NextScreen(p: Pager, table: seq<Row>, ki: nat, s: nat)
    requires KeyedRows(table, ki) && ShowsFrom(p, OrderAsc(table, ki), ki, s) && s < |OrderAsc(table, ki)|
    ensures var sorted, state := OrderAsc(table, ki), p.state.value;
            var n := FirstAbove(sorted, ki, KeyOf(sorted[ScreenEnd(|sorted|, state.pageSize, s) - 1], ki));
            && state.plan.lastKey.Some?
            && Answer(Page(state.plan.keyColumn, state.plan.lastKey.value, Next, state.pageSize), table, ki)
               == Limit(sorted[n..], state.pageSize)
  {
    hide OrderAsc, Answer, Limit, KeysetPager, Cell, LastCell, KeyOf, RenderInt, FirstAbove;
    KeysetPagerFacts(p, ki);
    OrderedAreKeyed(table, ki);
    var sorted, state := OrderAsc(table, ki), p.state.value;
    var end := ScreenEnd(|sorted|, state.pageSize, s);
    assert IsKeyed(sorted[end - 1], ki);
    LastCellOf(p.results, ki, sorted[end - 1]);
    NextSkipsEqualKeys(table, ki, state.plan.keyColumn, end - 1, state.pageSize);
  }

  lemma DeliveredFrom(p: Pager, sorted: seq<Row>, ki: nat, s: nat)
    requires p.state.Some? && KeysetPager(p, ki) && Issues(p, NextPage) && s <= |sorted|
    ensures var q := Delivered(Transitioned(p, NextPage), RowsFrom(sorted, p.state.value.pageSize, s));
            q.state.Some? && q.state.value.pageSize == p.state.value.pageSize && ShowsFrom(q, sorted, ki, s)
  {
    hide Issues, Delivered, Transitioned, Cell, LastCell, ColumnIndex, Trim, NewTarget, RowsFrom;
    KeysetDelivers(p, NextPage, ki, RowsFrom(sorted, p.state.value.pageSize, s));
  }

  lemma NextShowsFrom(p: Pager, table: seq<Row>, ki: nat, s: nat)
    requires KeyedRows(table, ki) && ShowsFrom(p, OrderAsc(table, ki), ki, s)
    ensures var sorted, q := OrderAsc(table, ki), Step(p, NextPage, table, ki);
            && q.state.Some? && q.state.value.pageSize == p.state.value.pageSize > 0
            && var end := ScreenEnd(|sorted|, q.state.value.pageSize, s);
               ShowsFrom(q, sorted, ki,
                         if s == |sorted| then s else FirstAbove(sorted, ki, KeyOf(sorted[end - 1], ki)))
  {
    hide OrderAsc, Answer, Limit, LastN, KeysetPager, Issues, PaginationSql, Delivered, Transitioned, KeyOf, FirstAbove;
    KeysetPagerFacts(p, ki);
    KeysetIssues(p, NextPage, ki);
    var sorted, size := OrderAsc(table, ki), p.state.value.pageSize;
    if s == |sorted| {
      CellOfNothing(ki);
      assert p.results == [];
    } else {
      NextScreen(p, table, ki, s);
      var n := FirstAbove(sorted, ki, KeyOf(sorted[ScreenEnd(|sorted|, size, s) - 1], ki));
      LimitIsScreen(sorted, size, n);
      DeliveredFrom(p, sorted, ki, n);
    }
  }

  lemma NextStartIs(sorted: seq<Row>, size: nat, ki: nat, m: nat)
    requires size > 0
    ensures var s := ScreenStart(sorted, size, ki, m);
            ScreenStart(sorted, size, ki, m + 1) ==
            if s == |sorted| then s else FirstAbove(sorted, ki, KeyOf(sorted[ScreenEnd(|sorted|, size, s) - 1], ki))
  {
    hide KeyOf, FirstAbove;
  }

  lemma FirstStart(sorted: seq<Row>, size: nat, ki: nat)
    requires size > 0
    ensures ScreenStart(sorted, size, ki, 0) == 0
  {
  }

  lemma ShownRows(p: Pager, sorted: seq<Row>, ki: nat, s: nat)
    requires ShowsFrom(p, sorted, ki, s)
    ensures p.state.Some? && p.state.value.pageSize > 0 && s <= |sorted|
    ensures p.results == RowsFrom(sorted, p.state.value.pageSize, s)
  {
    hide RowsFrom;
  }

  /** What the screens of a sweep from the first page show. */
  lemma {:induction false} SweepShowsScreens(p: Pager, table: seq<Row>, ki: nat, m: nat)
    requires KeyedRows(table, ki) && ShowsFrom(p, OrderAsc(table, ki), ki, 0)
    ensures var sorted, q := OrderAsc(table, ki), Nexts(p, m, table, ki);
            && q.state.Some? && p.state.Some? && q.state.value.pageSize == p.state.value.pageSize > 0
            && ShowsFrom(q, sorted, ki, ScreenStart(sorted, p.state.value.pageSize, ki, m))
            && q.results == Screen(sorted, p.state.value.pageSize, ki, m)
  {
    hide OrderAsc, Step, KeyOf, FirstAbove, ShowsFrom, ScreenStart, RowsFrom, ScreenEnd, KeyedRows;
    var sorted := OrderAsc(table, ki);
    ShownRows(p, sorted, ki, 0);
    var size := p.state.value.pageSize;
    FirstStart(sorted, size, ki);
    if m > 0 {
      SweepShowsScreens(p, table, ki, m - 1);
      NextShowsFrom(Nexts(p, m - 1, table, ki), table, ki, ScreenStart(sorted, size, ki, m - 1));
      NextStartIs(sorted, size, ki, m - 1);
    }
    ShownRows(Nexts(p, m, table, ki), sorted, ki, ScreenStart(sorted, size, ki, m));
  }

  /** A preview starts a sweep, whether the key column repeats or not. */
  lemma OpenedShowsFrom(p: Pager, database: Option<string>, name: string, table: seq<Row>, ki: nat)
    requires CandidateKeyColumn(p.schemaColumns).Some?
    requires ki == ColumnIndex(p.schemaColumns, CandidateKeyColumn(p.schemaColumns).value)
    requires NewTarget(database, name).Ok?
    ensures ShowsFrom(Opened(p, database, name, table, ki), OrderAsc(table, ki), ki, 0)
  {
    hide OrderAsc, ColumnIndex, CandidateKeyColumn, Trim, Answer, Cell, LastCell, Generate, NewTarget, Limit, LastN,
      PageOf;
    CandidateIsFound(p.schemaColumns);
    var column := CandidateKeyColumn(p.schemaColumns).value;
    var state := PaginationState(database, name, PREVIEW_PAGE_SIZE, 0, 0, Keyset(column, None, None));
    var asked := WithSchemaColumns(p).(state := Some(state), pending := Some(Reset));
    PreviewIssues(state, column);
    assert Previewed(p, database, Some(name)).0 == asked;
    FirstRows(table, ki, column, PREVIEW_PAGE_SIZE);
    FirstScreen(OrderAsc(table, ki), PREVIEW_PAGE_SIZE);
  }

  lemma FirstScreen(sorted: seq<Row>, size: nat)
    requires size <= RESULT_BUFFER_CAPACITY
    ensures LastN(PageOf(sorted, size, 0), RESULT_BUFFER_CAPACITY) == RowsFrom(sorted, size, 0)
  {
    hide LastN, Limit;
    assert sorted[0..] == sorted;
    if sorted == [] {
      assert Offset(sorted, 0) == sorted;
    }
    LimitIsScreen(sorted, size, 0);
  }

  // ---------------------------------------------------------------- the rows a sweep leaves out

  /** The first larger key is behind row j, and next to it unless the key repeats. */
  lemma AboveBehind(sorted: seq<Row>, ki: nat, j: nat)
    requires NonDescending(sorted, ki) && j < |sorted|
    ensures var n := FirstAbove(sorted, ki, KeyOf(sorted[j], ki));
            j < n && (n == j + 1 <==> (j + 1 < |sorted| ==> KeyOf(sorted[j + 1], ki) != KeyOf(sorted[j], ki)))
  {
    hide KeyOf, FirstAbove;
  }

  lemma ScreenEnds(sorted: seq<Row>, size: nat, ki: nat, m: nat)
    requires size > 0 && NonDescending(sorted, ki)
    ensures var s := ScreenStart(sorted, size, ki, m); var end := ScreenEnd(|sorted|, size, s);
            && s <= end <= ScreenStart(sorted, size, ki, m + 1)
            && (s < |sorted| ==> s < end)
  {
    hide KeyOf, FirstAbove, ScreenStart, NonDescending;
    NextStartIs(sorted, size, ki, m);
    var s := ScreenStart(sorted, size, ki, m);
    if s < |sorted| {
      AboveBehind(sorted, ki, ScreenEnd(|sorted|, size, s) - 1);
    }
  }

  lemma {:induction false} StartsGrow(sorted: seq<Row>, size: nat, ki: nat, m: nat, k: nat)
    requires size > 0 && NonDescending(sorted, ki) && m <= k
    ensures ScreenStart(sorted, size, ki, m) <= ScreenStart(sorted, size, ki, k)
  {
    hide ScreenStart, NonDescending;
    if m < k {
      StartsGrow(sorted, size, ki, m, k - 1);
      ScreenEnds(sorted, size, ki, k - 1);
    }
  }

  lemma {:induction false} SweepEnds(sorted: seq<Row>, size: nat, ki: nat, m: nat)
    requires size > 0 && NonDescending(sorted, ki)
    ensures ScreenStart(sorted, size, ki, m) >= m || ScreenStart(sorted, size, ki, m) == |sorted|
  {
    hide ScreenStart, NonDescending;
    if m > 0 {
      SweepEnds(sorted, size, ki, m - 1);
      ScreenEnds(sorted, size, ki, m - 1);
    }
  }

  /** Row i is on the m-th screen of the sweep. */
  predicate OnScreen(sorted: seq<Row>, size: nat, ki: nat, m: nat, i: nat)
    requires size > 0
  {
    var s := ScreenStart(sorted, size, ki, m);
    s <= i < ScreenEnd(|sorted|, size, s)
  }

  /** The m-th screen ends before row i and with the key of row i. */
  predicate EndsWithKeyOf(sorted: seq<Row>, size: nat, ki: nat, m: nat, i: nat)
    requires size > 0 && i < |sorted|
  {
    var s := ScreenStart(sorted, size, ki, m); var end := ScreenEnd(|sorted|, size, s);
    s < end <= i && KeyOf(sorted[end - 1], ki) == KeyOf(sorted[i], ki)
  }

  /** Row i lies between the starts of the m-th screen and the next. */
  predicate StartsAround(sorted: seq<Row>, size: nat, ki: nat, m: nat, i: nat)
    requires size > 0
  {
    ScreenStart(sorted, size, ki, m) <= i < ScreenStart(sorted, size, ki, m + 1)
  }

  lemma {:induction false} Between(sorted: seq<Row>, size: nat, ki: nat, i: nat, m: nat) returns (k: nat)
    requires size > 0 && i < ScreenStart(sorted, size, ki, m)
    ensures StartsAround(sorted, size, ki, k, i)
  {
    hide ScreenStart;
    k := 0;
    FirstStart(sorted, size, ki);
    while ScreenStart(sorted, size, ki, k + 1) <= i
      invariant k < m && ScreenStart(sorted, size, ki, k) <= i
      decreases m - k
    {
      k := k + 1;
    }
  }

  lemma NotShownAgain(sorted: seq<Row>, size: nat, ki: nat, m: nat, k: nat, i: nat)
    requires size > 0 && NonDescending(sorted, ki) && i < |sorted| && EndsWithKeyOf(sorted, size, ki, m, i)
    ensures !OnScreen(sorted, size, ki, k, i)
  {
    hide ScreenStart, NonDescending, KeyOf;
    StartsAbove(sorted, size, ki, m, i);
    if k <= m {
      if k < m {
        ScreenEnds(sorted, size, ki, k);
        StartsGrow(sorted, size, ki, k + 1, m);
      }
    } else {
      StartsGrow(sorted, size, ki, m + 1, k);
    }
  }

  lemma StartsAbove(sorted: seq<Row>, size: nat, ki: nat, m: nat, i: nat)
    requires size > 0 && NonDescending(sorted, ki) && i < |sorted| && EndsWithKeyOf(sorted, size, ki, m, i)
    ensures i < ScreenStart(sorted, size, ki, m + 1)
  {
    hide KeyOf;
  }

  lemma LeftBehind(sorted: seq<Row>, size: nat, ki: nat, m: nat, i: nat)
    requires size > 0 && NonDescending(sorted, ki) && i < |sorted|
    requires StartsAround(sorted, size, ki, m, i)
    ensures OnScreen(sorted, size, ki, m, i) || EndsWithKeyOf(sorted, size, ki, m, i)
  {
    hide KeyOf;
  }

  /** A row of the ordered table is never shown in a sweep exactly when some page ends before it with its key. */
  lemma NeverShownIff(p: Pager, table: seq<Row>, ki: nat, i: nat)
    requires KeyedRows(table, ki) && ShowsFrom(p, OrderAsc(table, ki), ki, 0) && i < |OrderAsc(table, ki)|
    ensures p.state.Some? && p.state.value.pageSize > 0
    ensures var sorted, size := OrderAsc(table, ki), p.state.value.pageSize;
            && (forall m :: Nexts(p, m, table, ki).results == Screen(sorted, size, ki, m))
            && ((forall m :: !OnScreen(sorted, size, ki, m, i))
                <==> exists m :: EndsWithKeyOf(sorted, size, ki, m, i))
  {
    hide OrderAsc, Nexts, Screen, OnScreen, EndsWithKeyOf, ShowsFrom, ScreenStart, NonDescending, StartsAround;
    SweepShowsScreens(p, table, ki, 0);
    forall m
      ensures Nexts(p, m, table, ki).results == Screen(OrderAsc(table, ki), p.state.value.pageSize, ki, m)
    {
      SweepShowsScreens(p, table, ki, m);
    }
    var sorted, size := OrderAsc(table, ki), p.state.value.pageSize;
    OrderKeepsRows(table, ki);
    SweepEnds(sorted, size, ki, |sorted|);
    var k := Between(sorted, size, ki, i, |sorted|);
    LeftBehind(sorted, size, ki, k, i);
    forall m, n | EndsWithKeyOf(sorted, size, ki, m, i)
      ensures !OnScreen(sorted, size, ki, n, i)
    {
      NotShownAgain(sorted, size, ki, m, n, i);
    }
  }

  /** Everything on the first m screens. */
  function Swept(sorted: seq<Row>, size: nat, ki: nat, m: nat): seq<Row>
    requires size > 0
  {
    if m == 0 then [] else Swept(sorted, size, ki, m - 1) + Screen(sorted, size, ki, m - 1)
  }

  lemma {:induction false} SeenIsSwept(p: Pager, table: seq<Row>, ki: nat, m: nat)
    requires KeyedRows(table, ki) && ShowsFrom(p, OrderAsc(table, ki), ki, 0) && p.state.Some?
    requires p.state.value.pageSize > 0
    ensures Seen(p, m, table, ki) == Swept(OrderAsc(table, ki), p.state.value.pageSize, ki, m)
  {
    hide OrderAsc, Nexts, Screen, ShowsFrom;
    if m > 0 {
      SeenIsSwept(p, table, ki, m - 1);
      SweepShowsScreens(p, table, ki, m - 1);
    }
  }

  /** The m-th screen ends between two rows with the same key. */
  predicate CutsKey(sorted: seq<Row>, size: nat, ki: nat, m: nat)
    requires size > 0
  {
    var s := ScreenStart(sorted, size, ki, m); var end := ScreenEnd(|sorted|, size, s);
    s < end < |sorted| && KeyOf(sorted[end - 1], ki) == KeyOf(sorted[end], ki)
  }

  lemma NextStartIff(sorted: seq<Row>, size: nat, ki: nat, m: nat)
    requires size > 0 && NonDescending(sorted, ki)
    ensures ScreenStart(sorted, size, ki, m + 1) == ScreenEnd(|sorted|, size, ScreenStart(sorted, size, ki, m))
            <==> !CutsKey(sorted, size, ki, m)
  {
    hide KeyOf, FirstAbove, ScreenStart, NonDescending;
    NextStartIs(sorted, size, ki, m);
    var s := ScreenStart(sorted, size, ki, m);
    if s < |sorted| {
      AboveBehind(sorted, ki, ScreenEnd(|sorted|, size, s) - 1);
    }
  }

  lemma {:induction false} SweptBound(sorted: seq<Row>, size: nat, ki: nat, m: nat, cut: nat)
    requires size > 0 && NonDescending(sorted, ki)
    ensures |Swept(sorted, size, ki, m)| <= ScreenStart(sorted, size, ki, m)
    ensures cut < m && CutsKey(sorted, size, ki, cut) ==>
              |Swept(sorted, size, ki, m)| < ScreenStart(sorted, size, ki, m)
  {
    hide ScreenStart, NonDescending, CutsKey;
    FirstStart(sorted, size, ki);
    if m > 0 {
      SweptBound(sorted, size, ki, m - 1, cut);
      ScreenEnds(sorted, size, ki, m - 1);
      NextStartIff(sorted, size, ki, m - 1);
    }
  }

  lemma {:induction false} SweptFront(sorted: seq<Row>, size: nat, ki: nat, m: nat)
    requires size > 0 && NonDescending(sorted, ki) && forall k :: !CutsKey(sorted, size, ki, k)
    ensures Swept(sorted, size, ki, m) == sorted[..ScreenStart(sorted, size, ki, m)]
  {
    hide ScreenStart, NonDescending, CutsKey;
    FirstStart(sorted, size, ki);
    if m > 0 {
      SweptFront(sorted, size, ki, m - 1);
      ScreenEnds(sorted, size, ki, m - 1);
      NextStartIff(sorted, size, ki, m - 1);
      var s, end := ScreenStart(sorted, size, ki, m - 1), ScreenStart(sorted, size, ki, m);
      assert sorted[..s] + sorted[s..end] == sorted[..end];
    }
  }

  /** A sweep shows the whole table exactly when no page ends between two rows with the same key. */
  lemma EverythingSeenIff(p: Pager, table: seq<Row>, ki: nat)
    requires KeyedRows(table, ki) && ShowsFrom(p, OrderAsc(table, ki), ki, 0)
    ensures p.state.Some? && p.state.value.pageSize > 0
    ensures Seen(p, |table|, table, ki) == OrderAsc(table, ki) <==>
            forall m :: !CutsKey(OrderAsc(table, ki), p.state.value.pageSize, ki, m)
  {
    hide OrderAsc, Seen, Swept, ShowsFrom, ScreenStart, NonDescending, CutsKey;
    SweepShowsScreens(p, table, ki, 0);
    SeenIsSwept(p, table, ki, |table|);
    OrderedAreKeyed(table, ki);
    OrderKeepsRows(table, ki);
    var sorted, size := OrderAsc(table, ki), p.state.value.pageSize;
    SweepEnds(sorted, size, ki, |sorted|);
    if forall m :: !CutsKey(sorted, size, ki, m) {
      SweptFront(sorted, size, ki, |sorted|);
      assert sorted[..|sorted|] == sorted;
    } else {
      var cut :| CutsKey(sorted, size, ki, cut);
      CutsEarly(sorted, size, ki, cut);
      SweptBound(sorted, size, ki, |sorted|, cut);
    }
  }

  lemma CutsEarly(sorted: seq<Row>, size: nat, ki: nat, cut: nat)
    requires size > 0 && NonDescending(sorted, ki) && CutsKey(sorted, size, ki, cut)
    ensures cut < |sorted|
  {
    hide ScreenStart, NonDescending, KeyOf;
    SweepEnds(sorted, size, ki, cut);
  }
}
