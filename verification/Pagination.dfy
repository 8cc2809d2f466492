/** The page protocol: it remembers only the first and last key of the page on screen. */
module Pagination {
  import opened Text
  import opened SqlGenerator
  import opened GeneratedSql
  import opened ResultsBuffer
  import opened PageQueries

  const USIZE_MAX: nat := U64_MAX
  const PREVIEW_PAGE_SIZE: nat := 200
  const RESULT_BUFFER_CAPACITY: nat := 2000

  datatype PageTransition = Reset | NextPage | PreviousPage

  datatype PaginationPlan =
    | Keyset(keyColumn: string, firstKey: Option<string>, lastKey: Option<string>)
    | Slices

  datatype PaginationState = PaginationState(
    database: Option<string>,
    table: string,
    pageSize: nat,
    pageIndex: nat,
    lastPageRowCount: nat,
    plan: PaginationPlan)

  datatype PageError = BadTarget(error: SqlGenerationError) | MissingNextBoundary | MissingPreviousBoundary

  datatype PageSql = Sql(text: string, request: Request) | Unavailable(error: PageError)

  function SatAdd(a: nat, b: nat): nat {
    if a + b < USIZE_MAX then a + b else USIZE_MAX
  }

  function SatSub(a: nat, b: nat): nat {
    if b < a then a - b else 0
  }

  function SatMul(a: nat, b: nat): nat {
    if a * b < USIZE_MAX then a * b else USIZE_MAX
  }

  // ---------------------------------------------------------------- key columns

  predicate EqIgnoreCase(a: string, b: string) {
    AsciiLowercase(a) == AsciiLowercase(b)
  }

  predicate IsIdColumn(column: string) {
    EqIgnoreCase(column, "id")
  }

  predicate EndsWithId(column: string) {
    |column| >= 3 && AsciiLowercase(column)[|column| - 3..] == "_id"
  }

  /** The first column equal to the name without regard to case, or the number of columns. */
  function ColumnIndex(columns: seq<string>, name: string): (i: nat)
    ensures i <= |columns|
    ensures i < |columns| ==> EqIgnoreCase(columns[i], name)
    ensures forall j :: 0 <= j < i ==> !EqIgnoreCase(columns[j], name)
  {
    if columns == [] || EqIgnoreCase(columns[0], name) then 0 else 1 + ColumnIndex(columns[1..], name)
  }

  function FirstEndingWithId(columns: seq<string>): (i: nat)
    ensures i <= |columns|
    ensures i < |columns| ==> EndsWithId(columns[i])
    ensures forall j :: 0 <= j < i ==> !EndsWithId(columns[j])
  {
    if columns == [] || EndsWithId(columns[0]) then 0 else 1 + FirstEndingWithId(columns[1..])
  }

  function CandidateKeyColumn(columns: seq<string>): Option<string> {
    var id := ColumnIndex(columns, "id");
    if id < |columns| then Some(columns[id])
    else
      var suffix := FirstEndingWithId(columns);
      if suffix < |columns| then Some(columns[suffix]) else None
  }

  predicate SpellsId(column: string) {
    column in ["id", "iD", "Id", "ID"]
  }

  predicate EndsInId(column: string) {
    |column| >= 3 && column[|column| - 3..] in ["_id", "_iD", "_Id", "_ID"]
  }

  lemma IdIsSpelled(column: string)
    ensures EqIgnoreCase(column, "id") <==> SpellsId(column)
    ensures EndsWithId(column) <==> EndsInId(column)
  {
    hide SameLetter;
    CaseIsIgnored(column, "id");
    CaseOfI();
    assert SameLetters(column, "id") ==> column == [column[0], column[1]];
    if |column| >= 3 {
      var tail := column[|column| - 3..];
      assert tail == [tail[0], tail[1], tail[2]];
      assert AsciiLowercase(tail) == AsciiLowercase(column)[|column| - 3..];
      assert AsciiLowercase("_id") == "_id";
      CaseIsIgnored(tail, "_id");
    }
  }

  lemma CaseOfI()
    ensures forall c :: SameLetter(c, 'i') <==> c == 'i' || c == 'I'
    ensures forall c :: SameLetter(c, 'd') <==> c == 'd' || c == 'D'
    ensures forall c :: SameLetter(c, '_') <==> c == '_'
  {
  }

  /** The first column spelled id in any case is chosen, else the first that ends in _id in any case,
      and none exactly when no column does either. */
  lemma CandidateChoice(columns: seq<string>) returns (i: nat)
    ensures i <= |columns| && CandidateKeyColumn(columns) == if i < |columns| then Some(columns[i]) else None
    ensures forall j :: 0 <= j < i ==> !SpellsId(columns[j])
    ensures i < |columns| && !SpellsId(columns[i]) ==>
              && EndsInId(columns[i])
              && (forall j :: 0 <= j < |columns| ==> !SpellsId(columns[j]))
              && (forall j :: 0 <= j < i ==> !EndsInId(columns[j]))
    ensures i == |columns| ==> forall j :: 0 <= j < |columns| ==> !EndsInId(columns[j])
  {
    hide EqIgnoreCase, EndsWithId, SpellsId, EndsInId;
    forall column
      ensures EqIgnoreCase(column, "id") <==> SpellsId(column)
      ensures EndsWithId(column) <==> EndsInId(column)
    {
      IdIsSpelled(column);
    }
    var id := ColumnIndex(columns, "id");
    i := if id < |columns| then id else FirstEndingWithId(columns);
  }

  lemma KeyColumnEnds(column: string)
    requires IsIdColumn(column) || EndsWithId(column)
    ensures column != "" && !IsWhitespace(column[|column| - 1])
  {
    var lower := AsciiLowercase(column);
    if EndsWithId(column) {
      assert lower[|column| - 1] == lower[|column| - 3..][2];
    } else {
      assert |AsciiLowercase("id")| == 2 && AsciiLowercase("id")[1] == 'd';
    }
    assert lower[|column| - 1] == AsciiLower(column[|column| - 1]);
  }

  lemma SameEnding(a: string, b: string)
    requires EqIgnoreCase(a, b)
    ensures EndsWithId(a) == EndsWithId(b) && IsIdColumn(a) == IsIdColumn(b)
  {
    assert |AsciiLowercase(a)| == |a| && |AsciiLowercase(b)| == |b|;
  }

  lemma EqualIgnoresCase(a: string)
    ensures EqIgnoreCase(a, a)
  {
  }

  /** The chosen column is the first that equals itself without regard to case. */
  lemma ChosenIsFirst(columns: seq<string>, chosen: nat)
    requires chosen < |columns|
    requires forall j :: 0 <= j < chosen ==> !EqIgnoreCase(columns[j], columns[chosen])
    ensures ColumnIndex(columns, columns[chosen]) == chosen
  {
    hide EqIgnoreCase, ColumnIndex;
    EqualIgnoresCase(columns[chosen]);
  }

  /** The case-insensitive lookup of the key column finds the very column that was chosen. */
  lemma CandidateIsFound(columns: seq<string>)
    requires CandidateKeyColumn(columns).Some?
    ensures var column := CandidateKeyColumn(columns).value;
            var i := ColumnIndex(columns, column);
            i < |columns| && columns[i] == column && Trim(column) != ""
  {
    hide EqIgnoreCase, EndsWithId, ColumnIndex, FirstEndingWithId, Trim;
    var id, suffix := ColumnIndex(columns, "id"), FirstEndingWithId(columns);
    var chosen := if id < |columns| then id else suffix;
    var column := columns[chosen];
    forall j | 0 <= j < chosen
      ensures !EqIgnoreCase(columns[j], column)
    {
      if EqIgnoreCase(columns[j], column) {
        SameEnding(columns[j], column);
      }
    }
    ChosenIsFirst(columns, chosen);
    KeyColumnEnds(column);
    SolidSuffixNotBlank(column);
  }

  lemma SolidSuffixNotBlank(s: string)
    requires s != "" && !IsWhitespace(s[|s| - 1])
    ensures Trim(s) != ""
  {
    SolidTrim(s);
    SolidConcat(s[..|s| - 1], s[|s| - 1..]);
    assert s[..|s| - 1] + s[|s| - 1..] == s;
    assert Solid(s[|s| - 1..]) == 1 + Solid(s[|s| - 1..][1..]);
  }

  function Cell(results: seq<Row>, i: nat, ki: nat): Option<string> {
    if i < |results| && ki < |results[i]| then Some(results[i][ki]) else None
  }

  function LastCell(results: seq<Row>, ki: nat): Option<string> {
    if |results| == 0 then None else Cell(results, |results| - 1, ki)
  }

  function ExtractKeyBounds(results: seq<Row>, columns: seq<string>, keyColumn: string)
    : (Option<string>, Option<string>)
  {
    var ki := ColumnIndex(columns, keyColumn);
    if ki == |columns| then (None, None)
    else (Cell(results, 0, ki), LastCell(results, ki))
  }

  // ---------------------------------------------------------------- the protocol on values

  function PaginationSql(state: PaginationState, transition: PageTransition): PageSql {
    match NewTarget(state.database, state.table)
    case Err(error) => Unavailable(BadTarget(error))
    case Ok(target) =>
      match PageRequest(state, transition)
      case Err(error) => Unavailable(error)
      case Ok(request) =>
        match Generate(target, request)
        case Err(error) => Unavailable(BadTarget(error))
        case Ok(text) => Sql(text, request)
  }

  datatype Outcome<+T, +E> = Ok(value: T) | Err(error: E)

  function PageRequest(state: PaginationState, transition: PageTransition): Outcome<Request, PageError> {
    match state.plan
    case Keyset(keyColumn, firstKey, lastKey) => (
      match transition
      case Reset => Outcome.Ok(FirstPage(keyColumn, state.pageSize))
      case NextPage =>
        if lastKey.None? then Outcome.Err(MissingNextBoundary)
        else Outcome.Ok(Page(keyColumn, lastKey.value, Next, state.pageSize))
      case PreviousPage =>
        if firstKey.None? then Outcome.Err(MissingPreviousBoundary)
        else Outcome.Ok(Page(keyColumn, firstKey.value, Previous, state.pageSize))
    )
    case Slices =>
      var nextIndex := match transition
        case Reset => 0
        case NextPage => SatAdd(state.pageIndex, 1)
        case PreviousPage => SatSub(state.pageIndex, 1);
      Outcome.Ok(OffsetPage(state.pageSize, SatMul(nextIndex, state.pageSize)))
  }

  /** The fields of the application that paging reads and writes. */
  datatype Pager = Pager(
    schemaColumns: seq<string>,
    resultColumns: seq<string>,
    results: seq<Row>,
    hasResults: bool,
    state: Option<PaginationState>,
    pending: Option<PageTransition>)

  function Cleared(p: Pager): Pager {
    p.(state := None, pending := None)
  }

  function PreviewState(p: Pager, database: Option<string>, table: Option<string>): Option<PaginationState> {
    if table.None? then None
    else
      var plan := match CandidateKeyColumn(p.schemaColumns)
        case Some(keyColumn) => Keyset(keyColumn, None, None)
        case None => Slices;
      Some(PaginationState(database, table.value, PREVIEW_PAGE_SIZE, 0, 0, plan))
  }

  function WithSchemaColumns(p: Pager): Pager {
    if p.schemaColumns == [] then p else p.(resultColumns := p.schemaColumns)
  }

  /** After asking for a preview, and the page query that was issued, if any. */
  function Previewed(p: Pager, database: Option<string>, table: Option<string>): (Pager, Option<PageSql>) {
    match PreviewState(p, database, table)
    case None => (Cleared(p), None)
    case Some(state) =>
      match PaginationSql(state, Reset)
      case Unavailable(_) => (Cleared(p), Some(PaginationSql(state, Reset)))
      case Sql(_, _) =>
        (WithSchemaColumns(p).(state := Some(state), pending := Some(Reset)), Some(PaginationSql(state, Reset)))
  }

  predicate Issues(p: Pager, transition: PageTransition) {
    && p.state.Some?
    && !(transition.PreviousPage? && p.state.value.pageIndex == 0)
    && PaginationSql(p.state.value, transition).Sql?
  }

  /** After asking for a transition: unchanged when no query can be issued. */
  function Transitioned(p: Pager, transition: PageTransition): Pager {
    if !Issues(p, transition) then p else WithSchemaColumns(p).(pending := Some(transition))
  }

  function NextIndex(state: PaginationState, transition: PageTransition, rowCount: nat): nat {
    match transition
    case Reset => 0
    case NextPage => if rowCount > 0 then SatAdd(state.pageIndex, 1) else state.pageIndex
    case PreviousPage => if rowCount > 0 then SatSub(state.pageIndex, 1) else state.pageIndex
  }

  function Finalized(p: Pager): Pager {
    if p.pending.None? then p
    else if p.state.None? then p.(pending := None)
    else
      var state := p.state.value;
      var plan := match state.plan
        case Keyset(keyColumn, _, _) =>
          var (first, last) := ExtractKeyBounds(p.results, p.resultColumns, keyColumn);
          Keyset(keyColumn, first, last)
        case Slices => Slices;
      p.(pending := None,
         state := Some(state.(
           lastPageRowCount := |p.results|,
           pageIndex := NextIndex(state, p.pending.value, |p.results|),
           plan := plan)))
  }

  /** After a query delivered its rows. */
  function Delivered(p: Pager, rows: seq<Row>): Pager {
    Finalized(p.(results := rows, hasResults := rows != []))
  }

  function Capabilities(p: Pager): (bool, bool, bool) {
    match p.state
    case None => (false, false, false)
    case Some(state) => (true, p.hasResults && state.lastPageRowCount >= state.pageSize, state.pageIndex > 0)
  }

  // ---------------------------------------------------------------- the protocol on the application's fields

  class PagedResults {
    var schemaColumns: seq<string>
    var resultColumns: seq<string>
    var results: seq<Row>
    var hasResults: bool
    var paginationState: Option<PaginationState>
    var pendingPageTransition: Option<PageTransition>

    ghost function View(): Pager
      reads this
    {
      Pager(schemaColumns, resultColumns, results, hasResults, paginationState, pendingPageTransition)
    }

    constructor (schemaColumns: seq<string>)
      ensures View() == Pager(schemaColumns, [], [], false, None, None)
    {
      this.schemaColumns := schemaColumns;
      resultColumns, results, hasResults := [], [], false;
      paginationState, pendingPageTransition := None, None;
    }

    method ClearPaginationState()
      modifies this
      ensures View() == Cleared(old(View()))
    {
      paginationState := None;
      pendingPageTransition := None;
    }

    /** Returns the page query to execute; None when the caller's own SQL has to be executed instead. */
    method StartPreviewPagedQuery(database: Option<string>, table: Option<string>) returns (sql: Option<PageSql>)
      modifies this
      ensures (View(), sql) == Previewed(old(View()), database, table)
    {
      hide PaginationSql, CandidateKeyColumn;
      if table.None? {
        ClearPaginationState();
        return None;
      }
      var candidate := CandidateKeyColumn(schemaColumns);
      var plan := match candidate case Some(keyColumn) => Keyset(keyColumn, None, None) case None => Slices;
      var state := PaginationState(database, table.value, PREVIEW_PAGE_SIZE, 0, 0, plan);

      var pageSql := PaginationSql(state, Reset);
      if pageSql.Unavailable? {
        ClearPaginationState();
        return Some(pageSql);
      }
      if schemaColumns != [] {
        resultColumns := schemaColumns;
      }
      paginationState := Some(state);
      pendingPageTransition := Some(Reset);
      sql := Some(pageSql);
    }

    /** Returns the page query to execute, if the transition is possible. */
    method RunPaginationTransition(transition: PageTransition) returns (sql: Option<PageSql>)
      modifies this
      ensures View() == Transitioned(old(View()), transition)
      ensures sql.Some? <==> Issues(old(View()), transition)
      ensures sql.Some? ==> sql.value == PaginationSql(old(View()).state.value, transition)
    {
      hide PaginationSql;
      if paginationState.None? {
        return None;
      }
      var state := paginationState.value;
      if transition.PreviousPage? && state.pageIndex == 0 {
        return None;
      }
      var pageSql := PaginationSql(state, transition);
      if pageSql.Unavailable? {
        return None;
      }
      if schemaColumns != [] {
        resultColumns := schemaColumns;
      }
      pendingPageTransition := Some(transition);
      sql := Some(pageSql);
    }

    method FinalizePaginationAfterQuery()
      modifies this
      ensures View() == Finalized(old(View()))
    {
      if pendingPageTransition.None? {
        return;
      }
      var transition := pendingPageTransition.value;
      pendingPageTransition := None;

      var rowCount := |results|;
      var keyBounds: Option<(Option<string>, Option<string>)> := None;
      if paginationState.Some? && paginationState.value.plan.Keyset? {
        keyBounds := Some(ExtractKeyBounds(results, resultColumns, paginationState.value.plan.keyColumn));
      }
      if paginationState.None? {
        return;
      }
      var state := paginationState.value;
      state := state.(lastPageRowCount := rowCount);
      match transition {
        case Reset =>
          state := state.(pageIndex := 0);
        case NextPage =>
          if rowCount > 0 {
            state := state.(pageIndex := SatAdd(state.pageIndex, 1));
          }
        case PreviousPage =>
          if rowCount > 0 {
            state := state.(pageIndex := SatSub(state.pageIndex, 1));
          }
      }
      if state.plan.Keyset? && keyBounds.Some? {
        state := state.(plan := state.plan.(firstKey := keyBounds.value.0, lastKey := keyBounds.value.1));
      }
      paginationState := Some(state);
    }
  }
}
