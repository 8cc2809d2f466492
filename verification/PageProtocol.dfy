/** Runs of the page protocol: keyset paging shows the same pages as slicing the key-ordered table. */
module PageProtocol {
  import opened Text
  import opened SqlGenerator
  import opened GeneratedSql
  import opened ResultsBuffer
  import opened PageQueries
  import opened Pagination
  import SqlReading

  // ---------------------------------------------------------------- runs

  /** One transition whose query, if one is issued, succeeds at the first attempt. */
  function Step(p: Pager, transition: PageTransition, table: seq<Row>, ki: nat): Pager {
    if !Issues(p, transition) then p
    else
      var request := PaginationSql(p.state.value, transition).request;
      Delivered(Transitioned(p, transition), LastN(Answer(request, table, ki), RESULT_BUFFER_CAPACITY))
  }

  function Run(p: Pager, transitions: seq<PageTransition>, table: seq<Row>, ki: nat): Pager {
    if transitions == [] then p
    else Step(Run(p, transitions[..|transitions| - 1], table, ki), transitions[|transitions| - 1], table, ki)
  }

  /** A preview of a table whose first page succeeds at the first attempt. */
  function Opened(p: Pager, database: Option<string>, name: string, table: seq<Row>, ki: nat): Pager {
    var (asked, sql) := Previewed(p, database, Some(name));
    if sql.None? || sql.value.Unavailable? then asked
    else Delivered(asked, LastN(Answer(sql.value.request, table, ki), RESULT_BUFFER_CAPACITY))
  }

  // ---------------------------------------------------------------- what is on screen

  /** The position of the first row of page k. */
  function PageStart(k: nat, size: nat): nat {
    k * size
  }

  /** The k-th page of a key-ordered table. */
  function PageOf(sorted: seq<Row>, size: nat, k: nat): seq<Row> {
    Limit(Offset(sorted, PageStart(k, size)), size)
  }

  /** A keyset pager over key column ki with no transition pending. */
  predicate KeysetPager(p: Pager, ki: nat) {
    && p.state.Some? && p.state.value.plan.Keyset? && p.pending.None?
    && NewTarget(p.state.value.database, p.state.value.table).Ok?
    && Trim(p.state.value.plan.keyColumn) != ""
    && p.resultColumns == p.schemaColumns
    && ki == ColumnIndex(p.schemaColumns, p.state.value.plan.keyColumn) < |p.schemaColumns|
    && 0 < p.state.value.pageSize <= RESULT_BUFFER_CAPACITY
  }

  /** What every run of the protocol keeps: a nonempty screen is exactly page k of the ordered table and
      the stored bounds are its first and last keys; an empty screen has no bounds and comes only from an
      empty table or from asking for the page after the last one. */
  predicate Shows(p: Pager, sorted: seq<Row>, ki: nat) {
    && KeysetPager(p, ki)
    && var state := p.state.value;
       var k, size := state.pageIndex, state.pageSize;
       && state.lastPageRowCount == |p.results|
       && p.hasResults == (p.results != [])
       && state.plan.firstKey == Cell(p.results, 0, ki)
       && state.plan.lastKey == LastCell(p.results, ki)
       && (if p.results != [] then p.results == PageOf(sorted, size, k)
           else (sorted == [] && k == 0) || PageStart(k, size) < |sorted| <= PageStart(k, size) + size)
  }

  // ---------------------------------------------------------------- page arithmetic

  lemma NextStart(k: nat, size: nat)
    ensures PageStart(k + 1, size) == PageStart(k, size) + size
    ensures k > 0 ==> PageStart(k, size) == PageStart(k - 1, size) + size
    ensures size > 0 ==> k <= PageStart(k, size)
    ensures PageStart(0, size) == 0
  {
    if k > 0 {
      assert (k - 1) * size == k * size - size;
    }
    if size > 0 {
      assert k * size == k * (size - 1) + k;
    }
  }

  function PageEnd(n: nat, size: nat, k: nat): nat {
    if PageStart(k, size) + size < n then PageStart(k, size) + size else n
  }

  lemma PageBounds(sorted: seq<Row>, size: nat, k: nat)
    requires size > 0
    ensures PageOf(sorted, size, k) != [] <==> PageStart(k, size) < |sorted|
    ensures PageStart(k, size) < |sorted| ==>
      PageOf(sorted, size, k) == sorted[PageStart(k, size)..PageEnd(|sorted|, size, k)]
  {
    hide PageStart;
    var start, end := PageStart(k, size), PageEnd(|sorted|, size, k);
    if start < |sorted| {
      assert sorted[start..][..end - start] == sorted[start..end];
      if start + size >= |sorted| {
        assert sorted[start..end] == sorted[start..];
      }
    }
  }

  /** The first and last row of a nonempty page. */
  lemma PageEdges(sorted: seq<Row>, size: nat, k: nat)
    requires size > 0 && PageOf(sorted, size, k) != []
    ensures var page := PageOf(sorted, size, k);
            && PageStart(k, size) < PageEnd(|sorted|, size, k) <= |sorted|
            && page[0] == sorted[PageStart(k, size)]
            && page[|page| - 1] == sorted[PageEnd(|sorted|, size, k) - 1]
  {
    hide PageStart, PageOf;
    PageBounds(sorted, size, k);
  }

  // ---------------------------------------------------------------- one step

  lemma KeysetIssues(p: Pager, t: PageTransition, ki: nat)
    requires KeysetPager(p, ki)
    ensures var state := p.state.value;
            Issues(p, t) <==> match t
              case Reset => true
              case NextPage => state.plan.lastKey.Some?
              case PreviousPage => state.pageIndex > 0 && state.plan.firstKey.Some?
    ensures Issues(p, t) ==> PaginationSql(p.state.value, t).request == PageRequest(p.state.value, t).value
  {
    hide Trim, NewTarget;
  }

  /** The pager after its query delivered `rows`. */
  lemma KeysetDelivers(p: Pager, t: PageTransition, ki: nat, rows: seq<Row>)
    requires KeysetPager(p, ki) && Issues(p, t)
    ensures var q := Delivered(Transitioned(p, t), rows);
            var state := p.state.value;
            q == p.(results := rows, hasResults := rows != [],
                    state := Some(state.(
                      lastPageRowCount := |rows|,
                      pageIndex := NextIndex(state, t, |rows|),
                      plan := Keyset(state.plan.keyColumn, Cell(rows, 0, ki), LastCell(rows, ki)))))
  {
    hide Issues, Trim, NewTarget, ColumnIndex;
  }

  lemma RestIsNextPage(sorted: seq<Row>, size: nat, k: nat)
    requires size > 0 && PageStart(k, size) < |sorted|
    ensures Limit(sorted[PageEnd(|sorted|, size, k)..], size) == PageOf(sorted, size, k + 1)
  {
    hide PageStart;
    NextStart(k, size);
    assert sorted[|sorted|..] == [];
  }

  /** From the last key of page k, the next-page query returns page k + 1. */
  lemma NextRows(table: seq<Row>, ki: nat, column: string, size: nat, k: nat)
    requires IsKeyedTable(table, ki) && size > 0 && PageStart(k, size) < |table|
    ensures var sorted, end := OrderAsc(table, ki), PageEnd(|table|, size, k);
            && |sorted| == |table| && ki < |sorted[end - 1]|
            && Answer(Page(column, sorted[end - 1][ki], Next, size), table, ki) == PageOf(sorted, size, k + 1)
  {
    hide OrderAsc, KeyOf, RenderInt, Answer, PageStart, PageOf, Limit, IsKeyedTable;
    OrderedRowsAreKeyed(table, ki);
    var sorted, end := OrderAsc(table, ki), PageEnd(|table|, size, k);
    assert IsKeyed(sorted[end - 1], ki);
    AnswerNext(table, ki, column, end - 1, size);
    RestIsNextPage(sorted, size, k);
  }

  /** From the first key of page k, the previous-page query returns page k - 1. */
  lemma PreviousRows(table: seq<Row>, ki: nat, column: string, size: nat, k: nat)
    requires IsKeyedTable(table, ki) && size > 0 && k > 0 && PageStart(k, size) < |table|
    ensures var sorted := OrderAsc(table, ki);
            && |sorted| == |table| && ki < |sorted[PageStart(k, size)]|
            && Answer(Page(column, sorted[PageStart(k, size)][ki], Previous, size), table, ki) ==
              PageOf(sorted, size, k - 1)
  {
    hide OrderAsc, KeyOf, RenderInt, Answer, PageOf, PageStart;
    OrderedRowsAreKeyed(table, ki);
    NextStart(k, size);
    var sorted := OrderAsc(table, ki);
    assert IsKeyed(sorted[PageStart(k, size)], ki);
    AnswerPrevious(table, ki, column, PageStart(k, size), size);
    PageBounds(sorted, size, k - 1);
  }

  lemma FirstRows(table: seq<Row>, ki: nat, column: string, size: nat)
    ensures Answer(FirstPage(column, size), table, ki) == PageOf(OrderAsc(table, ki), size, 0)
  {
    hide OrderAsc, PageStart;
    NextStart(0, size);
    assert Offset(OrderAsc(table, ki), 0) == OrderAsc(table, ki);
  }

  lemma LastCellOf(rows: seq<Row>, ki: nat, last: Row)
    requires rows != [] && rows[|rows| - 1] == last && ki < |last|
    ensures LastCell(rows, ki) == Some(last[ki])
  {
  }

  lemma ShowsBounds(p: Pager, sorted: seq<Row>, ki: nat)
    requires Shows(p, sorted, ki)
    ensures p.state.Some? && p.state.value.plan.Keyset? && 0 < p.state.value.pageSize <= RESULT_BUFFER_CAPACITY
    ensures p.state.value.plan.firstKey == Cell(p.results, 0, ki)
    ensures p.state.value.plan.lastKey == LastCell(p.results, ki)
    ensures p.results != [] ==> p.results == PageOf(sorted, p.state.value.pageSize, p.state.value.pageIndex)
  {
    hide PageOf, Cell, LastCell;
  }

  /** The rows the next-page query returns for the stored last key. */
  lemma NextAnswer(p: Pager, table: seq<Row>, ki: nat)
    requires IsKeyedTable(table, ki) && Shows(p, OrderAsc(table, ki), ki) && p.results != []
    ensures var state := p.state.value;
            && state.plan.lastKey.Some?
            && Answer(Page(state.plan.keyColumn, state.plan.lastKey.value, Next, state.pageSize), table, ki)
               == PageOf(OrderAsc(table, ki), state.pageSize, state.pageIndex + 1)
  {
    hide *;
    ShowsBounds(p, OrderAsc(table, ki), ki);
    var sorted, state := OrderAsc(table, ki), p.state.value;
    var k, size := state.pageIndex, state.pageSize;
    OrderedRowsAreKeyed(table, ki);
    PageEdges(sorted, size, k);
    NextRows(table, ki, state.plan.keyColumn, size, k);
    LastCellOf(p.results, ki, sorted[PageEnd(|sorted|, size, k) - 1]);
  }

  lemma FirstCellOf(rows: seq<Row>, ki: nat, first: Row)
    requires rows != [] && rows[0] == first && ki < |first|
    ensures Cell(rows, 0, ki) == Some(first[ki])
  {
  }

  /** The rows the previous-page query returns for the stored first key. */
  lemma PreviousAnswer(p: Pager, table: seq<Row>, ki: nat)
    requires IsKeyedTable(table, ki) && Shows(p, OrderAsc(table, ki), ki)
    requires p.results != [] && p.state.value.pageIndex > 0
    ensures var state := p.state.value;
            && state.plan.firstKey.Some?
            && Answer(Page(state.plan.keyColumn, state.plan.firstKey.value, Previous, state.pageSize), table, ki)
               == PageOf(OrderAsc(table, ki), state.pageSize, state.pageIndex - 1)
  {
    hide *;
    ShowsBounds(p, OrderAsc(table, ki), ki);
    var sorted, state := OrderAsc(table, ki), p.state.value;
    var k, size := state.pageIndex, state.pageSize;
    OrderedRowsAreKeyed(table, ki);
    PageEdges(sorted, size, k);
    PreviousRows(table, ki, state.plan.keyColumn, size, k);
    FirstCellOf(p.results, ki, sorted[PageStart(k, size)]);
  }

  lemma KeysetPagerFacts(p: Pager, ki: nat)
    requires KeysetPager(p, ki)
    ensures p.state.Some? && p.state.value.plan.Keyset? && 0 < p.state.value.pageSize <= RESULT_BUFFER_CAPACITY
  {
  }

  /** What the screen shows after a transition's query returned page j. */
  lemma DeliveredShows(p: Pager, t: PageTransition, table: seq<Row>, ki: nat, j: nat)
    requires IsKeyedTable(table, ki) && |table| < USIZE_MAX
    requires Shows(p, OrderAsc(table, ki), ki) && Issues(p, t)
    requires j == Target(p, t)
    requires t.NextPage? || t.PreviousPage? ==> p.results != []
    requires t.PreviousPage? ==> p.state.value.pageIndex > 0
    ensures Shows(Delivered(Transitioned(p, t), PageOf(OrderAsc(table, ki), p.state.value.pageSize, j)),
                  OrderAsc(table, ki), ki)
  {
    hide OrderAsc, IsKeyedTable, Issues, PageOf, Delivered, Transitioned, ColumnIndex, Trim, NewTarget, Cell,
      LastCell, PageStart;
    var sorted, state := OrderAsc(table, ki), p.state.value;
    var k, size := state.pageIndex, state.pageSize;
    var rows := PageOf(sorted, size, j);
    KeysetDelivers(p, t, ki, rows);
    OrderedRowsAreKeyed(table, ki);
    NextStart(k, size);
    NextStart(0, size);
    PageBounds(sorted, size, j);
    PageBounds(sorted, size, k);
    CellOfNothing(ki);
  }

  lemma CellOfNothing(ki: nat)
    ensures Cell([], 0, ki) == None && LastCell([], ki) == None
  {
  }

  lemma PageIsSmall(sorted: seq<Row>, size: nat, k: nat)
    requires size <= RESULT_BUFFER_CAPACITY
    ensures LastN(PageOf(sorted, size, k), RESULT_BUFFER_CAPACITY) == PageOf(sorted, size, k)
  {
  }

  /** The page that a transition issued from this state asks for. */
  function Target(p: Pager, t: PageTransition): nat
    requires p.state.Some?
  {
    match t
    case Reset => 0
    case NextPage => p.state.value.pageIndex + 1
    case PreviousPage => SatSub(p.state.value.pageIndex, 1)
  }

  lemma IssuesIff(p: Pager, t: PageTransition, sorted: seq<Row>, ki: nat)
    requires Shows(p, sorted, ki) && forall i :: 0 <= i < |sorted| ==> ki < |sorted[i]|
    ensures Issues(p, t) <==> t.Reset? || (p.results != [] && (t.PreviousPage? ==> p.state.value.pageIndex > 0))
  {
    hide PageOf, PageStart, PaginationSql, Issues;
    KeysetIssues(p, t, ki);
    BoundsKnown(p, sorted, ki);
  }

  /** The request of an issued transition. */
  lemma RequestOf(p: Pager, t: PageTransition, ki: nat)
    requires KeysetPager(p, ki) && Issues(p, t)
    ensures var state := p.state.value;
            PaginationSql(state, t).request == match t
              case Reset => FirstPage(state.plan.keyColumn, state.pageSize)
              case NextPage => Page(state.plan.keyColumn, KeyText(state.plan.lastKey), Next, state.pageSize)
              case PreviousPage => Page(state.plan.keyColumn, KeyText(state.plan.firstKey), Previous, state.pageSize)
  {
    hide PaginationSql, Issues;
    KeysetIssues(p, t, ki);
  }

  function KeyText(key: Option<string>): string {
    if key.Some? then key.value else ""
  }

  lemma TargetOf(p: Pager, t: PageTransition)
    requires p.state.Some?
    ensures t.Reset? ==> Target(p, t) == 0
    ensures t.NextPage? ==> Target(p, t) == p.state.value.pageIndex + 1
    ensures t.PreviousPage? && p.state.value.pageIndex > 0 ==> Target(p, t) == p.state.value.pageIndex - 1
  {
  }

  lemma PageAnswer(p: Pager, t: PageTransition, table: seq<Row>, ki: nat)
    requires IsKeyedTable(table, ki) && Shows(p, OrderAsc(table, ki), ki) && Issues(p, t)
    ensures LastN(Answer(PaginationSql(p.state.value, t).request, table, ki), RESULT_BUFFER_CAPACITY) ==
            PageOf(OrderAsc(table, ki), p.state.value.pageSize, Target(p, t))
  {
    hide OrderAsc, IsKeyedTable, Answer, LastN, PageOf, PageStart, PaginationSql, Issues, Shows, KeysetPager, Target;
    ShowsFacts(p, OrderAsc(table, ki), ki);
    ShowsBounds(p, OrderAsc(table, ki), ki);
    OrderedRowsAreKeyed(table, ki);
    IssuesIff(p, t, OrderAsc(table, ki), ki);
    RequestOf(p, t, ki);
    TargetOf(p, t);
    match t {
      case Reset => FirstRows(table, ki, p.state.value.plan.keyColumn, p.state.value.pageSize);
      case NextPage => NextAnswer(p, table, ki);
      case PreviousPage => PreviousAnswer(p, table, ki);
    }
    PageIsSmall(OrderAsc(table, ki), p.state.value.pageSize, Target(p, t));
  }

  /** A transition issues a query exactly when there is a boundary to page from, and the query returns
      exactly the page asked for. */
  lemma StepAnswer(p: Pager, t: PageTransition, table: seq<Row>, ki: nat)
    requires IsKeyedTable(table, ki) && Shows(p, OrderAsc(table, ki), ki)
    ensures Issues(p, t) <==> t.Reset? || (p.results != [] && (t.PreviousPage? ==> p.state.value.pageIndex > 0))
    ensures Issues(p, t) ==>
      Step(p, t, table, ki) ==
      Delivered(Transitioned(p, t), PageOf(OrderAsc(table, ki), p.state.value.pageSize, Target(p, t)))
  {
    hide OrderAsc, IsKeyedTable, Answer, LastN, PageOf, PageStart, PaginationSql, Delivered, Transitioned, Issues,
      Shows;
    OrderedRowsAreKeyed(table, ki);
    IssuesIff(p, t, OrderAsc(table, ki), ki);
    if Issues(p, t) {
      PageAnswer(p, t, table, ki);
    }
  }

  lemma KeyIsInteger(k: int)
    ensures SqlReading.IsIntegerText(Trim(RenderInt(k)))
  {
    hide Decimal, Trim;
    RenderedIsTrimmed(k);
    var digits := Decimal(if k < 0 then -k else k);
    assert '0' <= digits[0] <= '9';
  }

  lemma KeyedIsInteger(row: Row, ki: nat)
    requires IsKeyed(row, ki)
    ensures SqlReading.IsIntegerText(Trim(row[ki]))
  {
    hide SqlReading.IsIntegerText, RenderInt, KeyOf, Trim;
    KeyIsInteger(KeyOf(row, ki));
  }

  lemma PageSqlIsGenerated(state: PaginationState, t: PageTransition)
    requires PaginationSql(state, t).Sql?
    ensures NewTarget(state.database, state.table).Ok? && PageRequest(state, t).Ok?
    ensures var sql := PaginationSql(state, t);
            && sql.request == PageRequest(state, t).value
            && Generate(NewTarget(state.database, state.table).value, sql.request) == SqlGenerator.Result.Ok(sql.text)
  {
    hide Generate, PageRequest, NewTarget;
  }

  lemma BoundsAreIntegers(p: Pager, table: seq<Row>, ki: nat)
    requires IsKeyedTable(table, ki) && Shows(p, OrderAsc(table, ki), ki)
    ensures var plan := p.state.value.plan;
            && (plan.firstKey.Some? ==> SqlReading.IsIntegerText(Trim(plan.firstKey.value)))
            && (plan.lastKey.Some? ==> SqlReading.IsIntegerText(Trim(plan.lastKey.value)))
  {
    hide OrderAsc, IsKeyedTable, PageOf, PageStart, PageEnd, KeysetPager, SqlReading.IsIntegerText, RenderInt,
      KeyOf, Trim;
    KeysetPagerFacts(p, ki);
    if p.results != [] {
      var sorted, state := OrderAsc(table, ki), p.state.value;
      OrderedRowsAreKeyed(table, ki);
      PageEdges(sorted, state.pageSize, state.pageIndex);
      KeyedIsInteger(sorted[PageStart(state.pageIndex, state.pageSize)], ki);
      KeyedIsInteger(sorted[PageEnd(|sorted|, state.pageSize, state.pageIndex) - 1], ki);
    }
  }

  /** The query that a step answers is the one its SQL text spells: read back from the text alone and
      applied to the table, it gives the very rows that the step delivers. */
  lemma StepRunsItsText(p: Pager, t: PageTransition, table: seq<Row>, ki: nat)
    requires IsKeyedTable(table, ki) && Shows(p, OrderAsc(table, ki), ki) && Issues(p, t)
    ensures var state := p.state.value; var sql := PaginationSql(state, t);
            && NewTarget(state.database, state.table).Ok?
            && var select := SqlReading.ReadSelect(sql.text);
               && select.Some?
               && SqlReading.Rows(select.value, NewTarget(state.database, state.table).value,
                                  state.plan.keyColumn, table, ki) == Some(Answer(sql.request, table, ki))
  {
    hide OrderAsc, IsKeyedTable, PageOf, PageStart, Answer, Shows, Generate, NewTarget, PaginationSql,
      SqlReading.IsIntegerText, SqlReading.ReadSelect, SqlReading.Rows;
    ShowsFacts(p, OrderAsc(table, ki), ki);
    KeysetPagerFacts(p, ki);
    BoundsAreIntegers(p, table, ki);
    var state := p.state.value;
    PageSqlIsGenerated(state, t);
    SqlReading.AnswerIsTextRows(NewTarget(state.database, state.table).value, PaginationSql(state, t).request,
                                state.plan.keyColumn, table, ki);
  }

  lemma BoundsKnown(p: Pager, sorted: seq<Row>, ki: nat)
    requires Shows(p, sorted, ki) && forall i :: 0 <= i < |sorted| ==> ki < |sorted[i]|
    ensures p.results != [] <==> p.state.value.plan.firstKey.Some?
    ensures p.results != [] <==> p.state.value.plan.lastKey.Some?
  {
    hide PageOf, PageStart, PageEnd, KeysetPager;
    KeysetPagerFacts(p, ki);
    if p.results != [] {
      PageEdges(sorted, p.state.value.pageSize, p.state.value.pageIndex);
    }
  }

  lemma StepShows(p: Pager, t: PageTransition, table: seq<Row>, ki: nat)
    requires IsKeyedTable(table, ki) && |table| < USIZE_MAX
    requires Shows(p, OrderAsc(table, ki), ki)
    ensures Shows(Step(p, t, table, ki), OrderAsc(table, ki), ki)
  {
    hide Answer, OrderAsc, PaginationSql, PageOf, Issues, IsKeyedTable, Shows, Delivered, Transitioned, PageStart;
    StepAnswer(p, t, table, ki);
    ShowsFacts(p, OrderAsc(table, ki), ki);
    if Issues(p, t) {
      DeliveredShows(p, t, table, ki, Target(p, t));
    }
  }

  lemma ShowsFacts(p: Pager, sorted: seq<Row>, ki: nat)
    requires Shows(p, sorted, ki)
    ensures KeysetPager(p, ki)
  {
  }

  /** After every run of transitions, whatever their order, the screen is a page of the ordered table. */
  lemma {:induction false} RunShows(p: Pager, transitions: seq<PageTransition>, table: seq<Row>, ki: nat)
    requires IsKeyedTable(table, ki) && |table| < USIZE_MAX
    requires Shows(p, OrderAsc(table, ki), ki)
    ensures Shows(Run(p, transitions, table, ki), OrderAsc(table, ki), ki)
  {
    hide Shows, Step, OrderAsc, IsKeyedTable;
    if transitions != [] {
      var front := transitions[..|transitions| - 1];
      RunShows(p, front, table, ki);
      StepShows(Run(p, front, table, ki), transitions[|transitions| - 1], table, ki);
    }
  }

  /** A preview of a keyed table starts at page 0. */
  lemma OpenedShows(p: Pager, database: Option<string>, name: string, table: seq<Row>, ki: nat)
    requires CandidateKeyColumn(p.schemaColumns).Some?
    requires ki == ColumnIndex(p.schemaColumns, CandidateKeyColumn(p.schemaColumns).value)
    requires NewTarget(database, name).Ok? && IsKeyedTable(table, ki)
    ensures Shows(Opened(p, database, name, table, ki), OrderAsc(table, ki), ki)
    ensures Opened(p, database, name, table, ki).state.value.pageIndex == 0
  {
    hide OrderAsc, IsKeyedTable, ColumnIndex, CandidateKeyColumn, Trim, Answer, PageOf, Cell, LastCell, Generate,
      NewTarget, PageStart;
    CandidateIsFound(p.schemaColumns);
    var column := CandidateKeyColumn(p.schemaColumns).value;
    var sorted := OrderAsc(table, ki);
    var state := PaginationState(database, name, PREVIEW_PAGE_SIZE, 0, 0, Keyset(column, None, None));
    var asked := WithSchemaColumns(p).(state := Some(state), pending := Some(Reset));
    PreviewIssues(state, column);
    assert Previewed(p, database, Some(name)).0 == asked;
    FirstRows(table, ki, column, PREVIEW_PAGE_SIZE);
    PageIsSmall(sorted, PREVIEW_PAGE_SIZE, 0);
    PageBounds(sorted, PREVIEW_PAGE_SIZE, 0);
    NextStart(0, PREVIEW_PAGE_SIZE);
    CellOfNothing(ki);
  }

  lemma PreviewIssues(state: PaginationState, column: string)
    requires NewTarget(state.database, state.table).Ok? && Trim(column) != ""
    requires state.plan == Keyset(column, None, None)
    ensures PaginationSql(state, Reset).Sql? && PaginationSql(state, Reset).request == FirstPage(column, state.pageSize)
  {
    hide Trim, NewTarget;
  }

  // ---------------------------------------------------------------- going back and forth

  /** The same table, page size and columns; only the screen and the position may differ. */
  predicate SameView(p: Pager, q: Pager) {
    && p.state.Some? && q.state.Some? && p.state.value.plan.Keyset? && q.state.value.plan.Keyset?
    && p.schemaColumns == q.schemaColumns
    && p.state.value.database == q.state.value.database
    && p.state.value.table == q.state.value.table
    && p.state.value.pageSize == q.state.value.pageSize
    && p.state.value.plan.keyColumn == q.state.value.plan.keyColumn
  }

  /** The page index alone determines everything a nonempty screen holds. */
  lemma IndexDetermines(p: Pager, q: Pager, sorted: seq<Row>, ki: nat)
    requires Shows(p, sorted, ki) && Shows(q, sorted, ki) && SameView(p, q)
    requires p.results != [] && q.results != [] && p.state.value.pageIndex == q.state.value.pageIndex
    ensures p == q
  {
    hide PageOf, Cell, LastCell, ColumnIndex, Trim, NewTarget;
  }

  lemma DeliveredKeepsView(p: Pager, t: PageTransition, ki: nat, rows: seq<Row>)
    requires KeysetPager(p, ki) && Issues(p, t)
    ensures SameView(p, Delivered(Transitioned(p, t), rows))
  {
    hide Issues, Delivered, Transitioned, Cell, LastCell;
    KeysetDelivers(p, t, ki, rows);
  }

  lemma StepKeepsView(p: Pager, t: PageTransition, table: seq<Row>, ki: nat)
    requires KeysetPager(p, ki)
    ensures SameView(p, Step(p, t, table, ki))
  {
    hide Answer, PaginationSql, Delivered, Transitioned, KeysetPager, SameView;
    if Issues(p, t) {
      var rows := Answer(PaginationSql(p.state.value, t).request, table, ki);
      DeliveredKeepsView(p, t, ki, LastN(rows, RESULT_BUFFER_CAPACITY));
    } else {
      SameViewReflexive(p, ki);
    }
  }

  lemma SameViewReflexive(p: Pager, ki: nat)
    requires KeysetPager(p, ki)
    ensures SameView(p, p)
  {
  }

  /** The page index and the rows after an issued transition. */
  lemma StepMoves(p: Pager, t: PageTransition, table: seq<Row>, ki: nat)
    requires IsKeyedTable(table, ki) && |table| < USIZE_MAX && Shows(p, OrderAsc(table, ki), ki)
    requires p.results != [] && !(t.PreviousPage? && p.state.value.pageIndex == 0)
    ensures var q, sorted, state := Step(p, t, table, ki), OrderAsc(table, ki), p.state.value;
            && q.state.Some?
            && q.results == PageOf(sorted, state.pageSize, Target(p, t))
            && (q.results != [] ==> q.state.value.pageIndex == Target(p, t))
            && (q.results == [] ==> t.NextPage? && q.state.value.pageIndex == state.pageIndex)
  {
    hide Answer, OrderAsc, PaginationSql, Issues, IsKeyedTable, Delivered, Transitioned, PageStart, PageOf,
      KeysetPager, Cell, LastCell;
    KeysetPagerFacts(p, ki);
    var sorted, state := OrderAsc(table, ki), p.state.value;
    var k, size := state.pageIndex, state.pageSize;
    StepAnswer(p, t, table, ki);
    KeysetDelivers(p, t, ki, PageOf(sorted, size, Target(p, t)));
    OrderedRowsAreKeyed(table, ki);
    NextStart(k, size);
    NextStart(0, size);
    PageBounds(sorted, size, k);
    PageBounds(sorted, size, Target(p, t));
  }

  /** Previous undoes a nonempty Next: the rows, the index and both stored keys are as before. */
  lemma PreviousUndoesNext(p: Pager, table: seq<Row>, ki: nat)
    requires IsKeyedTable(table, ki) && |table| < USIZE_MAX && Shows(p, OrderAsc(table, ki), ki)
    requires p.results != [] && Step(p, NextPage, table, ki).results != []
    ensures Step(Step(p, NextPage, table, ki), PreviousPage, table, ki) == p
  {
    hide OrderAsc, IsKeyedTable, Step, Shows;
    BackAndForth(p, NextPage, PreviousPage, table, ki);
  }

  /** Next undoes Previous on every page but the first. */
  lemma NextUndoesPrevious(p: Pager, table: seq<Row>, ki: nat)
    requires IsKeyedTable(table, ki) && |table| < USIZE_MAX && Shows(p, OrderAsc(table, ki), ki)
    requires p.results != [] && p.state.value.pageIndex > 0
    ensures Step(Step(p, PreviousPage, table, ki), NextPage, table, ki) == p
  {
    hide OrderAsc, IsKeyedTable, Step, Shows, PageOf;
    StepMoves(p, PreviousPage, table, ki);
    BackAndForth(p, PreviousPage, NextPage, table, ki);
  }

  lemma BackAndForth(p: Pager, t: PageTransition, back: PageTransition, table: seq<Row>, ki: nat)
    requires IsKeyedTable(table, ki) && |table| < USIZE_MAX && Shows(p, OrderAsc(table, ki), ki)
    requires (t.NextPage? && back.PreviousPage?) || (t.PreviousPage? && back.NextPage? && p.state.value.pageIndex > 0)
    requires p.results != [] && Step(p, t, table, ki).results != []
    ensures Step(Step(p, t, table, ki), back, table, ki) == p
  {
    hide OrderAsc, IsKeyedTable, Step, Shows, PageOf, KeysetPager;
    var sorted := OrderAsc(table, ki);
    var q := Step(p, t, table, ki);
    var r := Step(q, back, table, ki);
    ShowsFacts(p, sorted, ki);
    StepShows(p, t, table, ki);
    ShowsFacts(q, sorted, ki);
    StepKeepsView(p, t, table, ki);
    StepMoves(p, t, table, ki);
    StepShows(q, back, table, ki);
    StepKeepsView(q, back, table, ki);
    StepMoves(q, back, table, ki);
    ShowsResults(p, sorted, ki);
    IndexDetermines(p, r, sorted, ki);
  }

  lemma ShowsResults(p: Pager, sorted: seq<Row>, ki: nat)
    requires Shows(p, sorted, ki) && p.results != []
    ensures p.results == PageOf(sorted, p.state.value.pageSize, p.state.value.pageIndex)
  {
  }

  /** From a page past the first, which the capabilities always offer to leave backwards, Previous
      shows the page before exactly when the screen is not empty; on an empty screen both stored keys
      are gone and neither Next nor Previous does anything. */
  lemma PreviousWorksIff(p: Pager, table: seq<Row>, ki: nat)
    requires IsKeyedTable(table, ki) && |table| < USIZE_MAX && Shows(p, OrderAsc(table, ki), ki)
    requires p.state.value.pageIndex > 0
    ensures Capabilities(p).2
    ensures Step(p, PreviousPage, table, ki).state.value.pageIndex == p.state.value.pageIndex - 1 <==> p.results != []
    ensures p.results == [] ==>
      Step(p, PreviousPage, table, ki) == p && Step(p, NextPage, table, ki) == p
  {
    hide OrderAsc, IsKeyedTable, Answer, LastN, Issues, PaginationSql, Delivered, Transitioned, PageStart, PageOf;
    StepAnswer(p, PreviousPage, table, ki);
    StepAnswer(p, NextPage, table, ki);
    if p.results != [] {
      StepMoves(p, PreviousPage, table, ki);
      PreviousIsNotEmpty(p, table, ki);
    }
  }

  lemma PreviousIsNotEmpty(p: Pager, table: seq<Row>, ki: nat)
    requires IsKeyedTable(table, ki) && Shows(p, OrderAsc(table, ki), ki)
    requires p.results != [] && p.state.value.pageIndex > 0
    ensures PageOf(OrderAsc(table, ki), p.state.value.pageSize, p.state.value.pageIndex - 1) != []
  {
    hide OrderAsc, IsKeyedTable, PageStart, PageOf, KeysetPager;
    KeysetPagerFacts(p, ki);
    var sorted, state := OrderAsc(table, ki), p.state.value;
    NextStart(state.pageIndex, state.pageSize);
    PageBounds(sorted, state.pageSize, state.pageIndex);
    PageBounds(sorted, state.pageSize, state.pageIndex - 1);
  }

  // ---------------------------------------------------------------- gated runs

  /** On a nonempty screen Next is offered exactly when the page is full, and Previous exactly past the first
      page. Where Next is not offered the last row of the table is on screen; it is offered in vain exactly
      when the table ends with a full page. */
  lemma OfferedIff(p: Pager, sorted: seq<Row>, ki: nat)
    requires Shows(p, sorted, ki) && p.results != []
    ensures var (enabled, next, previous) := Capabilities(p); var state := p.state.value;
            && enabled
            && (next <==> PageStart(state.pageIndex + 1, state.pageSize) <= |sorted|)
            && (previous <==> state.pageIndex > 0)
            && (!next ==> p.results[|p.results| - 1] == sorted[|sorted| - 1])
            && (next && PageOf(sorted, state.pageSize, state.pageIndex + 1) == []
                <==> PageStart(state.pageIndex + 1, state.pageSize) == |sorted|)
  {
    hide PageStart, PageOf, KeysetPager;
    KeysetPagerFacts(p, ki);
    var state := p.state.value;
    var k, size := state.pageIndex, state.pageSize;
    NextStart(k, size);
    PageBounds(sorted, size, k);
    PageBounds(sorted, size, k + 1);
    PageEdges(sorted, size, k);
  }

  // ---------------------------------------------------------------- a page query that succeeds at the second attempt

  /** The first failure of a query drops the pending transition; the retry then delivers its rows alone. */
  function Retried(p: Pager, t: PageTransition, table: seq<Row>, ki: nat): Pager {
    if !Issues(p, t) then p
    else
      var request := PaginationSql(p.state.value, t).request;
      Delivered(Transitioned(p, t).(pending := None), LastN(Answer(request, table, ki), RESULT_BUFFER_CAPACITY))
  }

  lemma RetriedDelivers(p: Pager, t: PageTransition, ki: nat, rows: seq<Row>)
    requires KeysetPager(p, ki) && Issues(p, t)
    ensures Delivered(Transitioned(p, t).(pending := None), rows) == p.(results := rows, hasResults := rows != [])
  {
    hide Issues, Trim, NewTarget, ColumnIndex;
  }

  /** A retried transition shows the page that was asked for, but index, row count and bounds stay those of
      the page before. */
  lemma RetriedKeepsPosition(p: Pager, t: PageTransition, table: seq<Row>, ki: nat)
    requires IsKeyedTable(table, ki) && Shows(p, OrderAsc(table, ki), ki) && Issues(p, t)
    ensures Retried(p, t, table, ki) ==
            var page := PageOf(OrderAsc(table, ki), p.state.value.pageSize, Target(p, t));
            p.(results := page, hasResults := page != [])
  {
    hide OrderAsc, IsKeyedTable, Answer, LastN, PageOf, PageStart, PaginationSql, Delivered, Transitioned, Issues,
      Shows;
    ShowsFacts(p, OrderAsc(table, ki), ki);
    PageAnswer(p, t, table, ki);
    RetriedDelivers(p, t, ki, PageOf(OrderAsc(table, ki), p.state.value.pageSize, Target(p, t)));
  }

  lemma IssuesByState(p: Pager, q: Pager, t: PageTransition)
    requires p.state == q.state
    ensures Issues(p, t) == Issues(q, t)
  {
    hide PaginationSql;
  }

  /** After a retried Next, pressing Next shows the same page once more, and only then counts it. */
  lemma RetriedNextRepeats(p: Pager, table: seq<Row>, ki: nat)
    requires IsKeyedTable(table, ki) && |table| < USIZE_MAX && Shows(p, OrderAsc(table, ki), ki) && p.results != []
    ensures var q := Retried(p, NextPage, table, ki);
            q.state == p.state && Step(q, NextPage, table, ki) == Step(p, NextPage, table, ki)
            && Step(q, NextPage, table, ki).results == q.results
  {
    hide OrderAsc, IsKeyedTable, Answer, PageOf, PageStart, PaginationSql, Issues, Delivered, Transitioned, KeysetPager,
      LastN;
    ShowsFacts(p, OrderAsc(table, ki), ki);
    NextIssues(p, table, ki);
    var rows := LastN(Answer(PaginationSql(p.state.value, NextPage).request, table, ki), RESULT_BUFFER_CAPACITY);
    RetriedDelivers(p, NextPage, ki, rows);
    var q := Retried(p, NextPage, table, ki);
    IssuesByState(p, q, NextPage);
    SameDelivery(p, q, NextPage, rows);
    DeliveryShows(p, NextPage, ki, rows);
  }

  lemma NextIssues(p: Pager, table: seq<Row>, ki: nat)
    requires IsKeyedTable(table, ki) && Shows(p, OrderAsc(table, ki), ki) && p.results != []
    ensures Issues(p, NextPage) && PaginationSql(p.state.value, NextPage).Sql?
  {
    hide OrderAsc, IsKeyedTable, PaginationSql, Shows;
    OrderedRowsAreKeyed(table, ki);
    IssuesIff(p, NextPage, OrderAsc(table, ki), ki);
  }

  lemma SameDelivery(p: Pager, q: Pager, t: PageTransition, rows: seq<Row>)
    requires Issues(p, t) && Issues(q, t) && q == p.(results := q.results, hasResults := q.hasResults)
    ensures Delivered(Transitioned(q, t), rows) == Delivered(Transitioned(p, t), rows)
  {
    hide Issues, ExtractKeyBounds;
  }

  lemma DeliveryShows(p: Pager, t: PageTransition, ki: nat, rows: seq<Row>)
    requires KeysetPager(p, ki) && Issues(p, t)
    ensures Delivered(Transitioned(p, t), rows).results == rows
  {
    hide Issues, ExtractKeyBounds, NewTarget, Trim, ColumnIndex;
  }

  // ---------------------------------------------------------------- a page query that is cancelled

  /** The same pager, but for the rows of the screen, their count and the key of the last of them. */
  predicate SameStart(q: Pager, r: Pager) {
    && q.state.Some? && r.state.Some? && q.state.value.plan.Keyset? && r.state.value.plan.Keyset?
    && var cut := q.state.value;
       q == r.(results := q.results, hasResults := q.hasResults,
               state := Some(r.state.value.(lastPageRowCount := cut.lastPageRowCount,
                                            plan := r.state.value.plan.(lastKey := cut.plan.lastKey))))
  }

  lemma CutSharesStart(p: Pager, ki: nat, rows: seq<Row>, m: nat)
    requires KeysetPager(p, ki) && Issues(p, NextPage) && 0 < m <= |rows|
    ensures SameStart(Delivered(Transitioned(p, NextPage), rows[..m]), Delivered(Transitioned(p, NextPage), rows))
  {
    hide Issues, Delivered, Transitioned, LastCell, Trim, NewTarget, ColumnIndex;
    KeysetDelivers(p, NextPage, ki, rows);
    KeysetDelivers(p, NextPage, ki, rows[..m]);
  }

  lemma PreviousFromStart(q: Pager, r: Pager, table: seq<Row>, ki: nat)
    requires SameStart(q, r) && Issues(r, PreviousPage)
    ensures Step(q, PreviousPage, table, ki) == Step(r, PreviousPage, table, ki)
  {
    hide Answer, LastN, PaginationSql, ExtractKeyBounds;
    PreviousText(q.state.value, r.state.value);
  }

  lemma PreviousText(q: PaginationState, r: PaginationState)
    requires q.plan.Keyset? && r.plan.Keyset?
    requires q == r.(lastPageRowCount := q.lastPageRowCount, plan := r.plan.(lastKey := q.plan.lastKey))
    ensures PaginationSql(q, PreviousPage) == PaginationSql(r, PreviousPage)
  {
    hide NewTarget, Generate;
  }

  lemma CancelledShows(p: Pager, ki: nat, rows: seq<Row>, m: nat)
    requires KeysetPager(p, ki) && Issues(p, NextPage) && 0 < m <= |rows| <= p.state.value.pageSize
    ensures var q := Delivered(Transitioned(p, NextPage), rows[..m]);
            && q.results == rows[..m]
            && q.state.Some? && q.state.value.pageIndex == SatAdd(p.state.value.pageIndex, 1)
            && (Capabilities(q).1 <==> m == p.state.value.pageSize)
  {
    hide Issues, Delivered, Transitioned, Cell, LastCell, Trim, NewTarget, ColumnIndex;
    KeysetDelivers(p, NextPage, ki, rows[..m]);
  }

  lemma PreviousIssues(r: Pager, table: seq<Row>, ki: nat)
    requires IsKeyedTable(table, ki) && Shows(r, OrderAsc(table, ki), ki)
    requires r.results != [] && r.state.value.pageIndex > 0
    ensures Issues(r, PreviousPage)
  {
    hide OrderAsc, IsKeyedTable, Shows, Issues;
    OrderedRowsAreKeyed(table, ki);
    IssuesIff(r, PreviousPage, OrderAsc(table, ki), ki);
  }

  lemma PageFitsSize(sorted: seq<Row>, size: nat, k: nat)
    ensures |PageOf(sorted, size, k)| <= size
  {
  }

  /** A Next whose query is cancelled after m rows shows those rows and counts as the next page. Unless they
      fill a page, Next is not offered behind them, though the table may go on; Previous leads back. */
  lemma CancelledNext(p: Pager, table: seq<Row>, ki: nat, m: nat)
    requires IsKeyedTable(table, ki) && |table| < USIZE_MAX && Shows(p, OrderAsc(table, ki), ki) && p.results != []
    requires 0 < m <= |Step(p, NextPage, table, ki).results|
    ensures var rows := Step(p, NextPage, table, ki).results;
            var q := Delivered(Transitioned(p, NextPage), rows[..m]);
            && q.results == rows[..m]
            && q.state.Some? && q.state.value.pageIndex == p.state.value.pageIndex + 1
            && (Capabilities(q).1 <==> m == p.state.value.pageSize)
            && Step(q, PreviousPage, table, ki) == p
  {
    var r := Step(p, NextPage, table, ki);
    hide OrderAsc, IsKeyedTable, PageOf, Issues, Delivered, Transitioned, KeysetPager, Step, Shows, Capabilities,
      SameStart;
    var sorted := OrderAsc(table, ki);
    var rows := r.results;
    ShowsFacts(p, sorted, ki);
    StepAnswer(p, NextPage, table, ki);
    StepMoves(p, NextPage, table, ki);
    PageFitsSize(sorted, p.state.value.pageSize, p.state.value.pageIndex + 1);
    CancelledShows(p, ki, rows, m);
    SaturationIsFar(p, table, ki);
    StepShows(p, NextPage, table, ki);
    PreviousIssues(r, table, ki);
    CutSharesStart(p, ki, rows, m);
    PreviousFromStart(Delivered(Transitioned(p, NextPage), rows[..m]), r, table, ki);
    PreviousUndoesNext(p, table, ki);
  }

  lemma SaturationIsFar(p: Pager, table: seq<Row>, ki: nat)
    requires IsKeyedTable(table, ki) && |table| < USIZE_MAX && Shows(p, OrderAsc(table, ki), ki) && p.results != []
    ensures SatAdd(p.state.value.pageIndex, 1) == p.state.value.pageIndex + 1
  {
    hide OrderAsc, IsKeyedTable, PageOf, PageStart, KeysetPager;
    KeysetPagerFacts(p, ki);
    OrderedRowsAreKeyed(table, ki);
    NextStart(p.state.value.pageIndex, p.state.value.pageSize);
    PageBounds(OrderAsc(table, ki), p.state.value.pageSize, p.state.value.pageIndex);
  }

  /** A transition cancelled before its first row forgets both keys: no page action works until a reset. */
  lemma CancelledAtOnce(p: Pager, t: PageTransition, table: seq<Row>, ki: nat)
    requires KeysetPager(p, ki) && Issues(p, t)
    ensures var q := Delivered(Transitioned(p, t), []);
            && Step(q, NextPage, table, ki) == q && Step(q, PreviousPage, table, ki) == q && Issues(q, Reset)
  {
    var q := Delivered(Transitioned(p, t), []);
    hide Issues, Delivered, Transitioned, Answer, PaginationSql, LastN, Cell, LastCell, Trim, NewTarget, ColumnIndex;
    KeysetDelivers(p, t, ki, []);
    CellOfNothing(ki);
    KeysetIssues(q, NextPage, ki);
    KeysetIssues(q, PreviousPage, ki);
    KeysetIssues(q, Reset, ki);
  }

  // ---------------------------------------------------------------- the actions that are offered

  /** One action as the user can invoke it: Next and Previous only when the capabilities offer them. */
  function GatedStep(p: Pager, t: PageTransition, table: seq<Row>, ki: nat): Pager {
    if (t.NextPage? && !Capabilities(p).1) || (t.PreviousPage? && !Capabilities(p).2) then p
    else Step(p, t, table, ki)
  }

  function GatedRun(p: Pager, transitions: seq<PageTransition>, table: seq<Row>, ki: nat): Pager {
    if transitions == [] then p
    else GatedStep(GatedRun(p, transitions[..|transitions| - 1], table, ki), transitions[|transitions| - 1], table, ki)
  }

  /** As Shows; an empty screen over a nonempty table means that the last page was full. */
  predicate ShowsGated(p: Pager, sorted: seq<Row>, ki: nat) {
    && Shows(p, sorted, ki)
    && (p.results == [] ==>
          (sorted == [] && p.state.value.pageIndex == 0)
          || |sorted| == PageStart(p.state.value.pageIndex + 1, p.state.value.pageSize))
  }

  lemma GatedStepShows(p: Pager, t: PageTransition, table: seq<Row>, ki: nat)
    requires IsKeyedTable(table, ki) && |table| < USIZE_MAX && ShowsGated(p, OrderAsc(table, ki), ki)
    ensures ShowsGated(GatedStep(p, t, table, ki), OrderAsc(table, ki), ki)
  {
    hide OrderAsc, IsKeyedTable, Step, PageStart, PageOf, KeysetPager, Cell, LastCell;
    KeysetPagerFacts(p, ki);
    var sorted, state, q := OrderAsc(table, ki), p.state.value, Step(p, t, table, ki);
    if GatedStep(p, t, table, ki) == p {
      return;
    }
    StepShows(p, t, table, ki);
    StepKeepsView(p, t, table, ki);
    OrderedRowsAreKeyed(table, ki);
    NextStart(state.pageIndex, state.pageSize);
    PageBounds(sorted, state.pageSize, state.pageIndex);
    if p.results != [] {
      StepMoves(p, t, table, ki);
    } else if !t.Reset? {
      EmptyScreenStays(p, t, table, ki);
    } else {
      ResetFromEmpty(p, table, ki);
    }
  }

  lemma EmptyScreenStays(p: Pager, t: PageTransition, table: seq<Row>, ki: nat)
    requires IsKeyedTable(table, ki) && Shows(p, OrderAsc(table, ki), ki) && p.results == [] && !t.Reset?
    ensures Step(p, t, table, ki) == p
  {
    hide OrderAsc, IsKeyedTable, Answer, Issues, PaginationSql, Delivered, Transitioned, PageStart;
    StepAnswer(p, t, table, ki);
  }

  lemma ResetFromEmpty(p: Pager, table: seq<Row>, ki: nat)
    requires IsKeyedTable(table, ki) && |table| < USIZE_MAX && Shows(p, OrderAsc(table, ki), ki)
    ensures var q := Step(p, Reset, table, ki);
            q.state.Some? && q.state.value.pageIndex == 0 && (q.results == [] <==> OrderAsc(table, ki) == [])
  {
    hide OrderAsc, IsKeyedTable, Answer, Issues, PaginationSql, Delivered, Transitioned, PageStart, PageOf, KeysetPager;
    KeysetPagerFacts(p, ki);
    var sorted, size := OrderAsc(table, ki), p.state.value.pageSize;
    StepAnswer(p, Reset, table, ki);
    KeysetDelivers(p, Reset, ki, PageOf(sorted, size, 0));
    NextStart(0, size);
    PageBounds(sorted, size, 0);
  }

  lemma {:induction false} GatedRunShows(p: Pager, transitions: seq<PageTransition>, table: seq<Row>, ki: nat)
    requires IsKeyedTable(table, ki) && |table| < USIZE_MAX && ShowsGated(p, OrderAsc(table, ki), ki)
    ensures ShowsGated(GatedRun(p, transitions, table, ki), OrderAsc(table, ki), ki)
  {
    hide ShowsGated, GatedStep, OrderAsc, IsKeyedTable;
    if transitions != [] {
      var front := transitions[..|transitions| - 1];
      GatedRunShows(p, front, table, ki);
      GatedStepShows(GatedRun(p, front, table, ki), transitions[|transitions| - 1], table, ki);
    }
  }

  // ---------------------------------------------------------------- paging through the whole table

  function Nexts(p: Pager, m: nat, table: seq<Row>, ki: nat): Pager {
    if m == 0 then p else Step(Nexts(p, m - 1, table, ki), NextPage, table, ki)
  }

  /** Everything shown on the first m screens. */
  function Seen(p: Pager, m: nat, table: seq<Row>, ki: nat): seq<Row> {
    if m == 0 then [] else Seen(p, m - 1, table, ki) + Nexts(p, m - 1, table, ki).results
  }

  lemma {:induction false} NextsShow(p: Pager, m: nat, table: seq<Row>, ki: nat)
    requires IsKeyedTable(table, ki) && |table| < USIZE_MAX && Shows(p, OrderAsc(table, ki), ki)
    requires p.state.value.pageIndex == 0 && p.results != []
    requires PageStart(m, p.state.value.pageSize) < |table|
    ensures var q := Nexts(p, m, table, ki);
            && Shows(q, OrderAsc(table, ki), ki) && SameView(p, q)
            && q.results != [] && q.state.value.pageIndex == m
  {
    hide OrderAsc, IsKeyedTable, Step, Shows, PageOf, PageStart, KeysetPager;
    ShowsFacts(p, OrderAsc(table, ki), ki);
    KeysetPagerFacts(p, ki);
    var sorted, size := OrderAsc(table, ki), p.state.value.pageSize;
    if m > 0 {
      NextStart(m, size);
      NextsShow(p, m - 1, table, ki);
      var q := Nexts(p, m - 1, table, ki);
      ShowsFacts(q, sorted, ki);
      StepShows(q, NextPage, table, ki);
      StepKeepsView(q, NextPage, table, ki);
      StepMoves(q, NextPage, table, ki);
      OrderedRowsAreKeyed(table, ki);
      PageBounds(sorted, size, m);
    }
  }

  lemma ScreenShown(p: Pager, m: nat, table: seq<Row>, ki: nat)
    requires IsKeyedTable(table, ki) && |table| < USIZE_MAX && Shows(p, OrderAsc(table, ki), ki)
    requires p.state.value.pageIndex == 0 && p.results != []
    requires PageStart(m, p.state.value.pageSize) < |table|
    ensures Nexts(p, m, table, ki).results == PageOf(OrderAsc(table, ki), p.state.value.pageSize, m)
  {
    hide OrderAsc, IsKeyedTable, Shows, PageOf, PageStart, KeysetPager, Nexts;
    ShowsFacts(p, OrderAsc(table, ki), ki);
    KeysetPagerFacts(p, ki);
    NextsShow(p, m, table, ki);
    ShowsResults(Nexts(p, m, table, ki), OrderAsc(table, ki), ki);
  }

  /** Page m continues the pages before it. */
  lemma PageContinues(sorted: seq<Row>, size: nat, m: nat)
    requires size > 0 && PageStart(m, size) < |sorted|
    ensures sorted[..PageStart(m, size)] + PageOf(sorted, size, m) == sorted[..PageEnd(|sorted|, size, m)]
  {
    hide PageStart, PageOf;
    PageBounds(sorted, size, m);
    var start, end := PageStart(m, size), PageEnd(|sorted|, size, m);
    assert sorted[..start] + sorted[start..end] == sorted[..end];
  }

  /** Pressing Next from the first page shows every row exactly once, in key order. */
  lemma {:induction false} SweepShowsEveryRow(p: Pager, m: nat, table: seq<Row>, ki: nat)
    requires IsKeyedTable(table, ki) && |table| < USIZE_MAX && Shows(p, OrderAsc(table, ki), ki)
    requires p.state.value.pageIndex == 0 && p.results != []
    requires m > 0 ==> PageStart(m - 1, p.state.value.pageSize) < |table|
    ensures var end := PageStart(m, p.state.value.pageSize);
            Seen(p, m, table, ki) ==
              OrderAsc(table, ki)[..if end < |OrderAsc(table, ki)| then end else |OrderAsc(table, ki)|]
  {
    hide OrderAsc, IsKeyedTable, Shows, PageOf, PageStart, KeysetPager, Nexts;
    ShowsFacts(p, OrderAsc(table, ki), ki);
    KeysetPagerFacts(p, ki);
    var sorted, size := OrderAsc(table, ki), p.state.value.pageSize;
    NextStart(0, size);
    if m > 0 {
      NextStart(m - 1, size);
      if m > 1 {
        NextStart(m - 2, size);
      }
      OrderedRowsAreKeyed(table, ki);
      SweepShowsEveryRow(p, m - 1, table, ki);
      ScreenShown(p, m - 1, table, ki);
      PageContinues(sorted, size, m - 1);
    }
  }

  // ---------------------------------------------------------------- tables without a key column

  /** What the OFFSET fallback keeps: a nonempty screen is the page-th slice of the table in storage order. */
  predicate ShowsSlice(p: Pager, table: seq<Row>) {
    && p.state.Some? && p.state.value.plan.Slices? && p.pending.None?
    && NewTarget(p.state.value.database, p.state.value.table).Ok?
    && 0 < p.state.value.pageSize <= RESULT_BUFFER_CAPACITY
    && var k, size := p.state.value.pageIndex, p.state.value.pageSize;
       && p.state.value.lastPageRowCount == |p.results|
       && p.hasResults == (p.results != [])
       && (if p.results != [] then p.results == PageOf(table, size, k)
           else (table == [] && k == 0) || PageStart(k, size) < |table| <= PageStart(k, size) + size)
  }

  lemma SliceDelivers(p: Pager, t: PageTransition, table: seq<Row>)
    requires ShowsSlice(p, table) && |table| + p.state.value.pageSize < USIZE_MAX
    ensures var state := p.state.value;
            Issues(p, t) <==> !(t.PreviousPage? && state.pageIndex == 0)
    ensures Issues(p, t) ==>
      var state, rows := p.state.value, PageOf(table, p.state.value.pageSize, Target(p, t));
      Step(p, t, table, 0) == WithSchemaColumns(p).(results := rows, hasResults := rows != [],
        state := Some(state.(lastPageRowCount := |rows|, pageIndex := NextIndex(state, t, |rows|))))
  {
    hide NewTarget, Limit, Offset;
    var state := p.state.value;
    var k, size := state.pageIndex, state.pageSize;
    SliceIndexFits(p, table);
    assert PageRequest(state, t) == Outcome.Ok(OffsetPage(size, PageStart(Target(p, t), size)));
    PageIsSmall(table, size, Target(p, t));
  }

  lemma SliceIndexFits(p: Pager, table: seq<Row>)
    requires ShowsSlice(p, table) && |table| + p.state.value.pageSize < USIZE_MAX
    ensures var k, size := p.state.value.pageIndex, p.state.value.pageSize;
            && PageStart(k, size) <= |table| && k <= |table|
            && PageStart(k + 1, size) < USIZE_MAX
            && (k > 0 ==> PageStart(k - 1, size) < USIZE_MAX)
  {
    hide PageStart, PageOf, NewTarget;
    var k, size := p.state.value.pageIndex, p.state.value.pageSize;
    NextStart(k, size);
    NextStart(0, size);
    PageBounds(table, size, k);
  }

  lemma SliceStepShows(p: Pager, t: PageTransition, table: seq<Row>)
    requires ShowsSlice(p, table) && |table| + p.state.value.pageSize < USIZE_MAX
    ensures ShowsSlice(Step(p, t, table, 0), table)
    ensures Step(p, t, table, 0).state.value.pageSize == p.state.value.pageSize
  {
    hide Step, Issues, PageOf, PageStart, NewTarget;
    var k, size := p.state.value.pageIndex, p.state.value.pageSize;
    SliceDelivers(p, t, table);
    SliceIndexFits(p, table);
    NextStart(k, size);
    NextStart(0, size);
    PageBounds(table, size, k);
    PageBounds(table, size, Target(p, t));
    if !Issues(p, t) {
      NoQueryNoChange(p, t, table);
    }
  }

  lemma NoQueryNoChange(p: Pager, t: PageTransition, table: seq<Row>)
    requires !Issues(p, t)
    ensures Step(p, t, table, 0) == p
  {
  }

  lemma {:induction false} SliceRunShows(p: Pager, transitions: seq<PageTransition>, table: seq<Row>)
    requires ShowsSlice(p, table) && |table| + p.state.value.pageSize < USIZE_MAX
    ensures ShowsSlice(Run(p, transitions, table, 0), table)
    ensures Run(p, transitions, table, 0).state.value.pageSize == p.state.value.pageSize
  {
    hide Step, ShowsSlice;
    if transitions != [] {
      var front := transitions[..|transitions| - 1];
      SliceRunShows(p, front, table);
      SliceHasState(Run(p, front, table, 0), table);
      SliceStepShows(Run(p, front, table, 0), transitions[|transitions| - 1], table);
    }
  }

  lemma SliceHasState(p: Pager, table: seq<Row>)
    requires ShowsSlice(p, table)
    ensures p.state.Some?
  {
  }

  /** After an empty page the fallback goes back two pages: it shows page k - 1, not page k. */
  lemma SlicePreviousSkips(p: Pager, table: seq<Row>)
    requires ShowsSlice(p, table) && |table| + p.state.value.pageSize < USIZE_MAX
    requires p.results == [] && p.state.value.pageIndex > 0
    ensures Step(p, PreviousPage, table, 0).results ==
            PageOf(table, p.state.value.pageSize, p.state.value.pageIndex - 1)
    ensures PageOf(table, p.state.value.pageSize, p.state.value.pageIndex) != []
  {
    hide Step, Issues, PageOf, PageStart, NewTarget;
    SliceDelivers(p, PreviousPage, table);
    PageBounds(table, p.state.value.pageSize, p.state.value.pageIndex);
  }

  // ---------------------------------------------------------------- keyset paging simulates slicing

  /** The same rows and the same page index. */
  predicate Agree(p: Pager, q: Pager) {
    p.state.Some? && q.state.Some? && p.results == q.results && p.state.value.pageIndex == q.state.value.pageIndex
  }

  /** Previous on an empty screen past the first page. */
  predicate BacksFromEmpty(p: Pager, t: PageTransition) {
    t.PreviousPage? && p.results == [] && p.state.Some? && p.state.value.pageIndex > 0
  }

  /** The rows and the index after a transition from page k, by slicing alone. */
  function Turned(sorted: seq<Row>, size: nat, k: nat, rows: seq<Row>, t: PageTransition): (seq<Row>, nat) {
    match t
    case Reset => (PageOf(sorted, size, 0), 0)
    case NextPage =>
      var page := PageOf(sorted, size, k + 1);
      (page, if page == [] then k else k + 1)
    case PreviousPage => if k == 0 then (rows, 0) else (PageOf(sorted, size, k - 1), k - 1)
  }

  predicate IsTurned(p: Pager, q: Pager, sorted: seq<Row>, t: PageTransition)
    requires p.state.Some?
  {
    && q.state.Some?
    && (q.results, q.state.value.pageIndex) ==
       Turned(sorted, p.state.value.pageSize, p.state.value.pageIndex, p.results, t)
  }

  lemma ResetTurns(p: Pager, table: seq<Row>, ki: nat)
    requires IsKeyedTable(table, ki) && Shows(p, OrderAsc(table, ki), ki)
    ensures IsTurned(p, Step(p, Reset, table, ki), OrderAsc(table, ki), Reset)
  {
    hide OrderAsc, IsKeyedTable, Answer, LastN, Issues, PaginationSql, Delivered, Transitioned, PageStart, PageOf,
      KeysetPager, Cell, LastCell, Step;
    KeysetPagerFacts(p, ki);
    StepAnswer(p, Reset, table, ki);
    KeysetDelivers(p, Reset, ki, PageOf(OrderAsc(table, ki), p.state.value.pageSize, 0));
  }

  lemma BeyondEmpty(p: Pager, sorted: seq<Row>, ki: nat)
    requires Shows(p, sorted, ki) && p.results == []
    ensures PageOf(sorted, p.state.value.pageSize, p.state.value.pageIndex + 1) == []
  {
    hide PageStart, PageOf, KeysetPager;
    KeysetPagerFacts(p, ki);
    NextStart(p.state.value.pageIndex, p.state.value.pageSize);
    NextStart(0, p.state.value.pageSize);
    PageBounds(sorted, p.state.value.pageSize, p.state.value.pageIndex + 1);
  }

  lemma KeysetTurns(p: Pager, t: PageTransition, table: seq<Row>, ki: nat)
    requires IsKeyedTable(table, ki) && |table| < USIZE_MAX && Shows(p, OrderAsc(table, ki), ki)
    ensures BacksFromEmpty(p, t) ==> Step(p, t, table, ki) == p
    ensures !BacksFromEmpty(p, t) ==> IsTurned(p, Step(p, t, table, ki), OrderAsc(table, ki), t)
  {
    hide OrderAsc, IsKeyedTable, PageStart, PageOf, KeysetPager, Step, Shows;
    ShowsFacts(p, OrderAsc(table, ki), ki);
    KeysetPagerFacts(p, ki);
    if t.Reset? {
      ResetTurns(p, table, ki);
    } else if p.results == [] {
      EmptyScreenStays(p, t, table, ki);
      BeyondEmpty(p, OrderAsc(table, ki), ki);
    } else if t.PreviousPage? && p.state.value.pageIndex == 0 {
      FirstPageStays(p, table, ki);
    } else {
      StepMoves(p, t, table, ki);
      if t.PreviousPage? {
        PreviousIsNotEmpty(p, table, ki);
      }
    }
  }

  lemma FirstPageStays(p: Pager, table: seq<Row>, ki: nat)
    requires p.state.Some? && p.state.value.pageIndex == 0
    ensures Step(p, PreviousPage, table, ki) == p
  {
    hide PaginationSql;
  }

  lemma SliceTurns(q: Pager, t: PageTransition, sorted: seq<Row>)
    requires ShowsSlice(q, sorted) && |sorted| + q.state.value.pageSize < USIZE_MAX
    ensures IsTurned(q, Step(q, t, sorted, 0), sorted, t)
  {
    hide Step, Issues, PageStart, PageOf, NewTarget;
    var k, size := q.state.value.pageIndex, q.state.value.pageSize;
    SliceDelivers(q, t, sorted);
    SliceIndexFits(q, sorted);
    if !Issues(q, t) {
      NoQueryNoChange(q, t, sorted);
    } else if t.PreviousPage? {
      NextStart(k, size);
      PageBounds(sorted, size, k);
      PageBounds(sorted, size, k - 1);
    }
  }

  /** After one transition both show the same, unless it was Previous on an empty screen past the first page:
      keyset paging then stays where it is, and slicing goes back. */
  lemma StepsAgreeIff(p: Pager, q: Pager, t: PageTransition, table: seq<Row>, ki: nat)
    requires IsKeyedTable(table, ki) && Shows(p, OrderAsc(table, ki), ki)
    requires ShowsSlice(q, OrderAsc(table, ki)) && |OrderAsc(table, ki)| + q.state.value.pageSize < USIZE_MAX
    requires p.state.value.pageSize == q.state.value.pageSize && Agree(p, q)
    ensures Agree(Step(p, t, table, ki), Step(q, t, OrderAsc(table, ki), 0)) <==> !BacksFromEmpty(p, t)
  {
    hide OrderAsc, IsKeyedTable, PageStart, PageOf, KeysetPager, Step, Shows, ShowsSlice;
    OrderedRowsAreKeyed(table, ki);
    KeysetTurns(p, t, table, ki);
    SliceTurns(q, t, OrderAsc(table, ki));
  }

  /** At every moment of the run both pagers show the same. */
  predicate AlwaysAgree(p: Pager, q: Pager, ts: seq<PageTransition>, table: seq<Row>, ki: nat) {
    && Agree(Run(p, ts, table, ki), Run(q, ts, OrderAsc(table, ki), 0))
    && (ts != [] ==> AlwaysAgree(p, q, ts[..|ts| - 1], table, ki))
  }

  predicate NeverBacksFromEmpty(p: Pager, ts: seq<PageTransition>, table: seq<Row>, ki: nat) {
    ts != [] ==>
      && NeverBacksFromEmpty(p, ts[..|ts| - 1], table, ki)
      && !BacksFromEmpty(Run(p, ts[..|ts| - 1], table, ki), ts[|ts| - 1])
  }

  /** Keyset paging over a table simulates slicing of the key-ordered table: through the same transitions both
      show the same rows under the same page index all the time, exactly as long as Previous is not pressed on
      an empty screen past the first page. */
  lemma {:induction false} KeysetSimulatesSlices(p: Pager, q: Pager, ts: seq<PageTransition>, table: seq<Row>, ki: nat)
    requires IsKeyedTable(table, ki) && Shows(p, OrderAsc(table, ki), ki)
    requires ShowsSlice(q, OrderAsc(table, ki)) && |OrderAsc(table, ki)| + q.state.value.pageSize < USIZE_MAX
    requires p.state.value.pageSize == q.state.value.pageSize && Agree(p, q)
    ensures AlwaysAgree(p, q, ts, table, ki) <==> NeverBacksFromEmpty(p, ts, table, ki)
  {
    hide OrderAsc, IsKeyedTable, Step, Shows, ShowsSlice, Agree, BacksFromEmpty;
    if ts != [] {
      var front, t := ts[..|ts| - 1], ts[|ts| - 1];
      KeysetSimulatesSlices(p, q, front, table, ki);
      if AlwaysAgree(p, q, front, table, ki) {
        BothShow(p, q, front, table, ki);
        StepsAgreeIff(Run(p, front, table, ki), Run(q, front, OrderAsc(table, ki), 0), t, table, ki);
      }
    }
  }

  lemma BothShow(p: Pager, q: Pager, ts: seq<PageTransition>, table: seq<Row>, ki: nat)
    requires IsKeyedTable(table, ki) && Shows(p, OrderAsc(table, ki), ki)
    requires ShowsSlice(q, OrderAsc(table, ki)) && |OrderAsc(table, ki)| + q.state.value.pageSize < USIZE_MAX
    requires p.state.value.pageSize == q.state.value.pageSize
    ensures var sorted := OrderAsc(table, ki);
            var (a, b) := (Run(p, ts, table, ki), Run(q, ts, sorted, 0));
            && Shows(a, sorted, ki) && ShowsSlice(b, sorted)
            && a.state.Some? && b.state.Some?
            && a.state.value.pageSize == p.state.value.pageSize && b.state.value.pageSize == p.state.value.pageSize
  {
    hide OrderAsc, IsKeyedTable, Run, Shows, ShowsSlice;
    OrderedRowsAreKeyed(table, ki);
    SliceHasState(q, OrderAsc(table, ki));
    RunShows(p, ts, table, ki);
    RunKeepsSize(p, ts, table, ki);
    SliceRunShows(q, ts, OrderAsc(table, ki));
    SliceHasState(Run(q, ts, OrderAsc(table, ki), 0), OrderAsc(table, ki));
  }

  lemma {:induction false} RunKeepsSize(p: Pager, ts: seq<PageTransition>, table: seq<Row>, ki: nat)
    requires IsKeyedTable(table, ki) && |table| < USIZE_MAX && Shows(p, OrderAsc(table, ki), ki)
    ensures Run(p, ts, table, ki).state.Some? && p.state.Some?
    ensures Run(p, ts, table, ki).state.value.pageSize == p.state.value.pageSize
  {
    hide OrderAsc, IsKeyedTable, Step, Shows;
    ShowsFacts(p, OrderAsc(table, ki), ki);
    if ts != [] {
      var front := ts[..|ts| - 1];
      RunKeepsSize(p, front, table, ki);
      RunShows(p, front, table, ki);
      var a := Run(p, front, table, ki);
      ShowsFacts(a, OrderAsc(table, ki), ki);
      StepKeepsView(a, ts[|ts| - 1], table, ki);
    }
  }

  /** The preview of a table without a key column starts at page 0, too. */
  lemma OpenedShowsSlice(q: Pager, database: Option<string>, name: string, table: seq<Row>)
    requires CandidateKeyColumn(q.schemaColumns).None? && NewTarget(database, name).Ok?
    ensures var shown := Opened(q, database, name, table, 0);
            && ShowsSlice(shown, table) && shown.state.value.pageIndex == 0
            && shown.state.value.pageSize == PREVIEW_PAGE_SIZE && shown.results == PageOf(table, PREVIEW_PAGE_SIZE, 0)
  {
    hide CandidateKeyColumn, NewTarget, PageStart, PageOf, Answer;
    SliceStart(table);
    PageIsSmall(table, PREVIEW_PAGE_SIZE, 0);
    PageBounds(table, PREVIEW_PAGE_SIZE, 0);
    NextStart(0, PREVIEW_PAGE_SIZE);
  }

  lemma SliceStart(table: seq<Row>)
    ensures Answer(OffsetPage(PREVIEW_PAGE_SIZE, 0), table, 0) == PageOf(table, PREVIEW_PAGE_SIZE, 0)
  {
  }
}
