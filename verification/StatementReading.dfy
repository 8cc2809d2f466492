/** A reader of the other generated statements: what each asks the server for, found from the text alone. */
module StatementReading {
  import opened Text
  import opened MySqlStrings
  import opened SqlGenerator
  import opened GeneratedSql
  import opened SqlReading

  datatype Asked =
    | TableColumns(target: SqlTarget)
    | TableDefinition(target: SqlTarget)
    | TableIndexes(target: SqlTarget)
    | ColumnValues(column: string, target: SqlTarget, window: Option<Window>)
    | RowEstimate(database: string, table: string)
    | LikeSearch(target: SqlTarget, column: string, pattern: string, order: Option<Order>, window: Option<Window>)

  // ---------------------------------------------------------------- the reader

  function WholeTarget(s: string): Option<SqlTarget> {
    match ReadTarget(s)
    case Some((target, "")) => Some(target)
    case _ => None
  }

  /** Behind SELECT: a column of a table. */
  function ReadValues(s: string): Option<Asked> {
    match ReadName(s)
    case None => None
    case Some((column, s)) =>
      match After(" FROM ", s)
      case None => None
      case Some(s) =>
        match ReadTarget(s)
        case None => None
        case Some((target, s)) =>
          match ReadWindow(s)
          case Some((window, "")) => Some(ColumnValues(column, target, window))
          case _ => None
  }

  /** Behind the opening quote of the database name. */
  function ReadNames(s: string): Option<Asked> {
    match ReadString(s)
    case None => None
    case Some((database, s)) =>
      match After(" AND TABLE_NAME = '", s)
      case None => None
      case Some(s) =>
        match ReadString(s)
        case Some((table, "")) => Some(RowEstimate(database, table))
        case _ => None
  }

  /** Behind the selected estimate. */
  function ReadEstimate(s: string): Option<Asked> {
    match After("FROM information_schema.TABLES ", s)
    case None => None
    case Some(s) =>
      match After("WHERE TABLE_SCHEMA = '", s)
      case None => None
      case Some(s) => ReadNames(s)
  }

  /** Behind the opening quote of the pattern. */
  function ReadPattern(target: SqlTarget, column: string, s: string): Option<Asked> {
    match ReadString(s)
    case None => None
    case Some((pattern, s)) =>
      match ReadOrder(s)
      case None => None
      case Some((order, s)) =>
        match ReadWindow(s)
        case Some((window, "")) => Some(LikeSearch(target, column, pattern, order, window))
        case _ => None
  }

  /** Behind SELECT * FROM: the rows of a table whose column matches a pattern. */
  function ReadSearch(s: string): Option<Asked> {
    match ReadTarget(s)
    case None => None
    case Some((target, s)) =>
      match After(" WHERE ", s)
      case None => None
      case Some(s) =>
        match ReadName(s)
        case None => None
        case Some((column, s)) =>
          match After(" LIKE '", s)
          case None => None
          case Some(s) => ReadPattern(target, column, s)
  }

  function Map<T>(o: Option<T>, f: T -> Asked): Option<Asked> {
    if o.Some? then Some(f(o.value)) else None
  }

  function ReadAsked(s: string): Option<Asked> {
    if "DESCRIBE " <= s then Map(WholeTarget(s[9..]), target => TableColumns(target))
    else if "SHOW CREATE TABLE " <= s then Map(WholeTarget(s[18..]), target => TableDefinition(target))
    else if "SHOW INDEX FROM " <= s then Map(WholeTarget(s[16..]), target => TableIndexes(target))
    else if "SELECT `" <= s then ReadValues(s[7..])
    else if "SELECT TABLE_ROWS AS estimated_rows " <= s then ReadEstimate(s[36..])
    else if "SELECT * FROM " <= s then ReadSearch(s[14..])
    else None
  }

  // ---------------------------------------------------------------- what is asked for

  /** What a request that is not for a page asks for. */
  function AskedFor(target: SqlTarget, r: Request): Option<Asked> {
    match r
    case Describe => Some(TableColumns(target))
    case ShowCreate => Some(TableDefinition(target))
    case ShowIndex => Some(TableIndexes(target))
    case ColumnPreview(column, limit) => Some(ColumnValues(column, target, Some(Window(limit, 0))))
    case CountEstimate =>
      if target.database.Some? then Some(RowEstimate(target.database.value, target.table)) else None
    case FilteredSorted(column, limit) =>
      Some(LikeSearch(target, column, "%search%", Some(Order(column, true)), Some(Window(limit, 0))))
    case _ => None
  }

  lemma WholeTargetRead(target: SqlTarget)
    ensures WholeTarget(QualifiedTableSql(target)) == Some(target)
  {
    hide ReadTarget, QualifiedTableSql;
    TargetRead(target, "");
    assert QualifiedTableSql(target) + "" == QualifiedTableSql(target);
  }

  lemma DescriptionsMean(target: SqlTarget)
    ensures ReadAsked(DescribeTableSql(target)) == AskedFor(target, Describe)
    ensures ReadAsked(ShowCreateTableSql(target)) == AskedFor(target, ShowCreate)
    ensures ReadAsked(ShowIndexSql(target)) == AskedFor(target, ShowIndex)
  {
    hide WholeTarget, QualifiedTableSql, ReadValues, ReadEstimate, ReadSearch;
    WholeTargetRead(target);
    WordRead("DESCRIBE ", QualifiedTableSql(target));
    WordRead("SHOW CREATE TABLE ", QualifiedTableSql(target));
    WordRead("SHOW INDEX FROM ", QualifiedTableSql(target));
    NotAPrefix("DESCRIBE ", ShowCreateTableSql(target), 0);
    NotAPrefix("DESCRIBE ", ShowIndexSql(target), 0);
    NotAPrefix("SHOW CREATE TABLE ", ShowIndexSql(target), 5);
  }

  lemma ValuesRead(target: SqlTarget, column: string, limit: nat)
    ensures ReadValues(QuoteIdentifier(column)
                       + (" FROM " + (QualifiedTableSql(target) + (" LIMIT " + Decimal(limit)))))
            == Some(ColumnValues(column, target, Some(Window(limit, 0))))
  {
    hide ReadName, ReadTarget, ReadWindow, QuoteIdentifier, QualifiedTableSql, Decimal;
    var window := " LIMIT " + Decimal(limit);
    var from := QualifiedTableSql(target) + window;
    NameRead(column, " FROM " + from);
    WordRead(" FROM ", from);
    TargetRead(target, window);
    WindowRead(limit, "");
    assert window + "" == window;
  }

  lemma ValuesAreNoOther(tail: string)
    requires tail != "" && tail[0] == '`'
    ensures ReadAsked("SELECT " + tail) == ReadValues(tail)
  {
    hide ReadValues, ReadEstimate, ReadSearch, WholeTarget, Map;
    var text := "SELECT " + tail;
    assert text[7..] == tail;
    NotAPrefix("DESCRIBE ", text, 0);
    NotAPrefix("SHOW CREATE TABLE ", text, 1);
    NotAPrefix("SHOW INDEX FROM ", text, 1);
  }

  lemma ColumnPreviewMeans(target: SqlTarget, column: string, limit: nat)
    requires Generate(target, ColumnPreview(column, limit)).Ok?
    ensures ReadAsked(Generate(target, ColumnPreview(column, limit)).value)
            == AskedFor(target, ColumnPreview(column, limit))
  {
    hide ReadValues, ReadAsked, QualifiedTableSql, Decimal, Doubled;
    var tail := QuoteIdentifier(column) + (" FROM " + (QualifiedTableSql(target) + (" LIMIT " + Decimal(limit))));
    assert Generate(target, ColumnPreview(column, limit)).value == "SELECT " + tail;
    ValuesRead(target, column, limit);
    ValuesAreNoOther(tail);
  }

  lemma PatternRead(target: SqlTarget, column: string, limit: nat)
    ensures ReadPattern(target, column,
              "%search%'" + (" ORDER BY " + QuoteIdentifier(column) + " ASC" + (" LIMIT " + Decimal(limit))))
            == Some(LikeSearch(target, column, "%search%", Some(Order(column, true)), Some(Window(limit, 0))))
  {
    hide ReadString, ReadOrder, ReadWindow, QuoteIdentifier, Decimal, Written;
    var window := " LIMIT " + Decimal(limit);
    var behind := " ORDER BY " + QuoteIdentifier(column) + " ASC" + window;
    SearchIsWritten();
    KeptReadsBack("%search%", behind);
    assert "%search%" + "'" + behind == "%search%'" + behind;
    OrderRead(column, true, window);
    WindowRead(limit, "");
    assert window + "" == window;
  }

  lemma SearchIsWritten()
    ensures Written("%search%") == "%search%"
  {
    hide Doubled;
    NothingDoubled("%search%", '\'');
  }

  lemma SearchRead(target: SqlTarget, column: string, limit: nat)
    ensures ReadSearch(QualifiedTableSql(target) + (" WHERE " + (QuoteIdentifier(column) + (" LIKE '" +
              ("%search%'" + (" ORDER BY " + QuoteIdentifier(column) + " ASC" + (" LIMIT " + Decimal(limit))))))))
            == Some(LikeSearch(target, column, "%search%", Some(Order(column, true)), Some(Window(limit, 0))))
  {
    hide ReadName, ReadTarget, ReadPattern, QuoteIdentifier, QualifiedTableSql, Decimal;
    var behind := "%search%'" + (" ORDER BY " + QuoteIdentifier(column) + " ASC" + (" LIMIT " + Decimal(limit)));
    PatternRead(target, column, limit);
    WordRead(" LIKE '", behind);
    NameRead(column, " LIKE '" + behind);
    var where := QuoteIdentifier(column) + (" LIKE '" + behind);
    WordRead(" WHERE ", where);
    TargetRead(target, " WHERE " + where);
  }

  lemma FilteredText(target: SqlTarget, column: string, limit: nat)
    requires Generate(target, FilteredSorted(column, limit)).Ok?
    ensures Generate(target, FilteredSorted(column, limit)).value
            == "SELECT * FROM " + (QualifiedTableSql(target) + (" WHERE " + (QuoteIdentifier(column) + (" LIKE '" +
                 ("%search%'" + (" ORDER BY " + QuoteIdentifier(column) + " ASC" + (" LIMIT " + Decimal(limit))))))))
  {
    hide QuoteIdentifier, QualifiedTableSql, Decimal;
  }

  lemma FilteredSortedMeans(target: SqlTarget, column: string, limit: nat)
    requires Generate(target, FilteredSorted(column, limit)).Ok?
    ensures ReadAsked(Generate(target, FilteredSorted(column, limit)).value)
            == AskedFor(target, FilteredSorted(column, limit))
  {
    hide ReadValues, ReadEstimate, ReadSearch, WholeTarget, QualifiedTableSql, QuoteIdentifier, Decimal, Generate;
    var text := Generate(target, FilteredSorted(column, limit)).value;
    FilteredText(target, column, limit);
    SearchRead(target, column, limit);
    NotAPrefix("DESCRIBE ", text, 0);
    NotAPrefix("SHOW CREATE TABLE ", text, 1);
    NotAPrefix("SHOW INDEX FROM ", text, 1);
    NotAPrefix("SELECT `", text, 7);
    NotAPrefix("SELECT TABLE_ROWS AS estimated_rows ", text, 7);
  }

  lemma NamesRead(database: string, table: string)
    ensures ReadNames(Written(database) + "'" + (" AND TABLE_NAME = '" + (Written(table) + "'" + "")))
              == Some(RowEstimate(database, table))
            <==> BackslashesKept(database) && BackslashesKept(table)
  {
    hide ReadString, Written, BackslashesKept;
    var last := Written(table) + "'" + "";
    ReadsBackIff(database, " AND TABLE_NAME = '" + last);
    ReadsBackIff(table, "");
    WordRead(" AND TABLE_NAME = '", last);
  }

  lemma EstimateText(database: string, table: string)
    ensures CountEstimateSql(SqlTarget(Some(database), table)) == Result.Ok(
              "SELECT TABLE_ROWS AS estimated_rows " + ("FROM information_schema.TABLES " + ("WHERE TABLE_SCHEMA = '"
              + (Written(database) + "'" + (" AND TABLE_NAME = '" + (Written(table) + "'" + ""))))))
  {
    hide Doubled;
    var d, t := Doubled(database, '\''), Doubled(table, '\'');
    EstimateGlued("SELECT TABLE_ROWS AS estimated_rows ", "FROM information_schema.TABLES ", d, t);
  }

  lemma EstimateGlued(select: string, from: string, d: string, t: string)
    ensures select + from + "WHERE TABLE_SCHEMA = " + ("'" + d + "'") + " AND TABLE_NAME = " + ("'" + t + "'")
            == select + (from + ("WHERE TABLE_SCHEMA = '" + (d + "'" + (" AND TABLE_NAME = '" + (t + "'" + "")))))
  {
  }

  lemma EstimateHeadRead(names: string)
    ensures ReadEstimate("FROM information_schema.TABLES " + ("WHERE TABLE_SCHEMA = '" + names)) == ReadNames(names)
  {
    hide ReadNames;
    WordRead("WHERE TABLE_SCHEMA = '", names);
    WordRead("FROM information_schema.TABLES ", "WHERE TABLE_SCHEMA = '" + names);
  }

  lemma EstimateIsNoOther(from: string)
    ensures ReadAsked("SELECT TABLE_ROWS AS estimated_rows " + from) == ReadEstimate(from)
  {
    hide ReadValues, ReadEstimate, ReadSearch, WholeTarget, Map;
    var text := "SELECT TABLE_ROWS AS estimated_rows " + from;
    WordRead("SELECT TABLE_ROWS AS estimated_rows ", from);
    NotAPrefix("DESCRIBE ", text, 0);
    NotAPrefix("SHOW CREATE TABLE ", text, 1);
    NotAPrefix("SHOW INDEX FROM ", text, 1);
    NotAPrefix("SELECT `", text, 7);
  }

  lemma EstimateMeansIff(database: string, table: string)
    ensures ReadAsked(CountEstimateSql(SqlTarget(Some(database), table)).value) == Some(RowEstimate(database, table))
            <==> BackslashesKept(database) && BackslashesKept(table)
  {
    hide ReadAsked, ReadEstimate, ReadNames, Written, BackslashesKept, CountEstimateSql;
    var names := Written(database) + "'" + (" AND TABLE_NAME = '" + (Written(table) + "'" + ""));
    EstimateText(database, table);
    NamesRead(database, table);
    EstimateHeadRead(names);
    EstimateIsNoOther("FROM information_schema.TABLES " + ("WHERE TABLE_SCHEMA = '" + names));
  }

  /** Reading any other generated text gives what was asked for, of the table and the column asked about, whatever
      their names; an estimate reads its two names as strings, and gives them exactly when both keep their
      backslashes. */
  lemma OtherTextMeansIff(target: SqlTarget, r: Request)
    requires Generate(target, r).Ok? && AskedFor(target, r).Some?
    ensures ReadAsked(Generate(target, r).value) == AskedFor(target, r)
            <==> (r.CountEstimate? ==> BackslashesKept(target.database.value) && BackslashesKept(target.table))
  {
    hide ReadAsked, BackslashesKept, QualifiedTableSql;
    match r
    case ColumnPreview(column, limit) => ColumnPreviewMeans(target, column, limit);
    case FilteredSorted(column, limit) => FilteredSortedMeans(target, column, limit);
    case CountEstimate => EstimateMeansIff(target.database.value, target.table);
    case _ => DescriptionsMean(target);
  }

  // ---------------------------------------------------------------- when there is a text

  lemma BlankIff(s: string)
    ensures Trim(s) == "" <==> AllWhitespace(s)
  {
    hide TrimStart, TrimEnd, IsWhitespace;
    var left, right := TrimParts(s);
    if AllWhitespace(s) {
      BlankTrimsAway(s);
      TrimEndCuts("");
    }
    if Trim(s) == "" {
      assert s == left + right;
    }
  }

  /** A target has a table name that is not blank, and a database name that is not, if it has one. */
  lemma TargetIff(database: Option<string>, table: string)
    ensures NewTarget(database, table) ==
            if AllWhitespace(table) then Result.Err(EmptyTableName)
            else if database.Some? && AllWhitespace(database.value) then Result.Err(EmptyDatabaseName)
            else Result.Ok(SqlTarget(database, table))
  {
    hide Trim, AllWhitespace;
    BlankIff(table);
    if database.Some? {
      BlankIff(database.value);
    }
  }

  function ColumnOf(r: Request): Option<string> {
    match r
    case FirstPage(column, _) => Some(column)
    case Page(column, _, _, _) => Some(column)
    case ColumnPreview(column, _) => Some(column)
    case FilteredSorted(column, _) => Some(column)
    case _ => None
  }

  /** A text is generated unless a column is asked for by a blank name, or an estimate without a database. */
  lemma GeneratedUnless(target: SqlTarget, r: Request)
    ensures Generate(target, r) == Result.Err(EmptyColumnName)
            <==> ColumnOf(r).Some? && AllWhitespace(ColumnOf(r).value)
    ensures Generate(target, r) == Result.Err(MissingDatabaseForEstimate) <==> r.CountEstimate? && target.database.None?
    ensures Generate(target, r).Err? ==> Generate(target, r).error in {EmptyColumnName, MissingDatabaseForEstimate}
  {
    hide Trim, AllWhitespace, QualifiedTableSql, QuoteIdentifier, QuoteSqlLiteral, QuoteSqlString, Decimal;
    if ColumnOf(r).Some? {
      BlankIff(ColumnOf(r).value);
    }
  }
}
