/** Generated statements as the server reads them. */
module GeneratedForServer {
  import opened Text
  import opened SqlLexer
  import opened SafeMode
  import opened MySqlStrings
  import opened SqlGenerator
  import opened GeneratedSql
  import opened ServerReading

  /** Read from mode m, w is kept whole and the server goes on with b in mode n; what else can go wrong is in b. */
  ghost predicate ReadsInto(w: string, m: ServerMode, b: string, n: ServerMode) {
    && ServerPieces(w + b, m) == OnFirst(w, ServerPieces(b, n))
    && (SharedComments(w + b, m) <==> SharedComments(b, n))
    && (QuotesKept(w + b, m) <==> QuotesKept(b, n))
  }

  lemma TakesInto(c: char, b: string, m: ServerMode, n: ServerMode)
    requires ServerAdvance([c] + b, m) == Take(n)
    requires m == Reading(Top) ==> !OpensComment([c] + b)
    requires m.Escaping? ==> c != QuoteOf(m.quote)
    ensures ReadsInto([c], m, b, n)
  {
    hide ServerAdvance, OpensComment, QuoteOf, ServerPieces, SharedComments, QuotesKept, ServerKeeps;
    ServerTakes(c, b, m);
  }

  lemma IntoThen(v: string, w: string, b: string, m: ServerMode, n: ServerMode, k: ServerMode)
    requires ReadsInto(v, m, w + b, n) && ReadsInto(w, n, b, k)
    ensures ReadsInto(v + w, m, b, k)
  {
    hide ServerPieces, SharedComments, QuotesKept, OnFirst;
    assert v + w + b == v + (w + b);
    TwoOnFirst(v, w, ServerPieces(b, k));
  }

  lemma NothingInto(b: string, m: ServerMode)
    ensures ReadsInto("", m, b, m)
  {
    hide ServerPieces, SharedComments, QuotesKept, OnFirst;
    assert "" + b == b;
    NothingOnFirst(ServerPieces(b, m));
  }

  /** From the top level and back to it, whatever follows. */
  ghost predicate ServerInert(w: string) {
    forall b: string :: ReadsInto(w, Reading(Top), b, Reading(Top))
  }

  lemma ServerInertConcat(v: string, w: string)
    requires ServerInert(v) && ServerInert(w)
    ensures ServerInert(v + w)
  {
    hide ReadsInto;
    forall b: string
      ensures ReadsInto(v + w, Reading(Top), b, Reading(Top))
    {
      IntoThen(v, w, b, Reading(Top), Reading(Top), Reading(Top));
    }
  }

  // ---------------------------------------------------------------- fixed text and numbers

  lemma {:induction false} CalmInto(w: string, b: string)
    requires Calm(w)
    ensures ReadsInto(w, Reading(Top), b, Reading(Top))
  {
    hide ReadsInto, Calm;
    if w == "" {
      NothingInto(b, Reading(Top));
    } else {
      var rest := w[1..];
      CalmTail(w);
      CalmInto(rest, b);
      CalmTaken(w, b);
      TakesInto(w[0], rest + b, Reading(Top), Reading(Top));
      IntoThen([w[0]], rest, b, Reading(Top), Reading(Top), Reading(Top));
      assert [w[0]] + rest == w;
    }
  }

  lemma CalmTail(w: string)
    requires Calm(w) && w != ""
    ensures Calm(w[1..])
  {
    forall i | 0 <= i < |w| - 1
      ensures CalmAt(w[1..], i)
    {
      assert CalmAt(w, i + 1);
    }
  }

  lemma CalmTaken(w: string, b: string)
    requires Calm(w) && w != ""
    ensures var s := [w[0]] + (w[1..] + b); !OpensComment(s) && ServerAdvance(s, Reading(Top)) == Take(Reading(Top))
  {
    assert CalmAt(w, 0);
    var s := [w[0]] + (w[1..] + b);
    assert s[0] == w[0] && (|w| > 1 ==> s[1] == w[1]);
  }

  lemma CalmIsServerInert(w: string)
    requires Calm(w)
    ensures ServerInert(w)
  {
    hide ReadsInto, Calm;
    forall b: string
      ensures ReadsInto(w, Reading(Top), b, Reading(Top))
    {
      CalmInto(w, b);
    }
  }

  // ---------------------------------------------------------------- names

  lemma QuoteTaken(q: char, b: string, m: Mode)
    requires (q == '`' && (m.Top? || m.Backtick?)) || (q == '\'' && (m.Top? || m.Single?))
    ensures ReadsInto([q], Reading(m), b, Reading(if m.Top? then QuoteMode(q) else Top))
  {
    TakesInto(q, b, Reading(m), Reading(if m.Top? then QuoteMode(q) else Top));
  }

  lemma PlainTaken(c: char, b: string, m: Mode)
    requires (m.Backtick? && c != '`') || (m.Single? && c != '\'' && c != '\\')
    ensures ReadsInto([c], Reading(m), b, Reading(m))
  {
    TakesInto(c, b, Reading(m), Reading(m));
  }

  lemma {:induction false} NameInto(s: string, b: string)
    ensures ReadsInto(Doubled(s, '`') + ['`'], Reading(Backtick), b, Reading(Top))
  {
    hide ReadsInto;
    var close := ['`'];
    if s == "" {
      QuoteTaken('`', b, Backtick);
      assert Doubled(s, '`') + close == close;
    } else {
      var done := Doubled(s[1..], '`') + close;
      NameInto(s[1..], b);
      if s[0] == '`' {
        QuoteTaken('`', done + b, Top);
        IntoThen(close, done, b, Reading(Top), Reading(Backtick), Reading(Top));
        assert close + done + b == close + (done + b);
        QuoteTaken('`', close + done + b, Backtick);
        IntoThen(close, close + done, b, Reading(Backtick), Reading(Top), Reading(Top));
        assert Doubled(s, '`') + close == close + (close + done);
      } else {
        PlainTaken(s[0], done + b, Backtick);
        IntoThen([s[0]], done, b, Reading(Backtick), Reading(Backtick), Reading(Top));
        assert Doubled(s, '`') + close == [s[0]] + done;
      }
    }
  }

  lemma IdentifierIsServerInert(identifier: string)
    ensures ServerInert(QuoteIdentifier(identifier))
  {
    hide ReadsInto, Doubled;
    var done := Doubled(identifier, '`') + ['`'];
    assert QuoteIdentifier(identifier) == ['`'] + done;
    forall b: string
      ensures ReadsInto(['`'] + done, Reading(Top), b, Reading(Top))
    {
      NameInto(identifier, b);
      QuoteTaken('`', done + b, Top);
      IntoThen(['`'], done, b, Reading(Top), Reading(Backtick), Reading(Top));
    }
  }

  lemma TableIsServerInert(target: SqlTarget)
    ensures ServerInert(QualifiedTableSql(target))
  {
    hide ServerInert, QuoteIdentifier;
    IdentifierIsServerInert(target.table);
    if target.database.Some? {
      var database := QuoteIdentifier(target.database.value);
      IdentifierIsServerInert(target.database.value);
      CalmIsServerInert(".");
      ServerInertConcat(database, ".");
      ServerInertConcat(database + ".", QuoteIdentifier(target.table));
    }
  }

  // ---------------------------------------------------------------- strings

  lemma BackslashTaken(b: string)
    ensures ReadsInto(['\\'], Reading(Single), b, Escaping(Single))
  {
    TakesInto('\\', b, Reading(Single), Escaping(Single));
  }

  lemma EscapedTaken(c: char, b: string)
    requires c != '\''
    ensures ReadsInto([c], Escaping(Single), b, Reading(Single))
  {
    TakesInto(c, b, Escaping(Single), Reading(Single));
  }

  /** In a string in which no backslash takes a quote or the end, the closing quote is the generator's own. */
  lemma {:induction false} StringInto(t: string, b: string)
    requires EscapesClose(t)
    ensures ReadsInto(Written(t) + ['\''], Reading(Single), b, Reading(Top))
    decreases |t|
  {
    hide ReadsInto, Written;
    var close := ['\''];
    WrittenStep(t);
    if t == "" {
      QuoteTaken('\'', b, Single);
      assert Written(t) + close == close;
    } else if t[0] == '\\' {
      WrittenStep(t[1..]);
      assert t[1..][1..] == t[2..];
      var done := Written(t[2..]) + close;
      StringInto(t[2..], b);
      EscapedTaken(t[1], done + b);
      IntoThen([t[1]], done, b, Escaping(Single), Reading(Single), Reading(Top));
      BackslashTaken([t[1]] + done + b);
      IntoThen(['\\'], [t[1]] + done, b, Reading(Single), Escaping(Single), Reading(Top));
      assert Written(t) + close == ['\\'] + ([t[1]] + done);
    } else {
      var done := Written(t[1..]) + close;
      StringInto(t[1..], b);
      if t[0] == '\'' {
        QuoteTaken('\'', done + b, Top);
        IntoThen(close, done, b, Reading(Top), Reading(Single), Reading(Top));
        QuoteTaken('\'', close + done + b, Single);
        IntoThen(close, close + done, b, Reading(Single), Reading(Top), Reading(Top));
        assert Written(t) + close == close + (close + done);
      } else {
        PlainTaken(t[0], done + b, Single);
        IntoThen([t[0]], done, b, Reading(Single), Reading(Single), Reading(Top));
        assert Written(t) + close == [t[0]] + done;
      }
    }
  }

  lemma QuoteLost(b: string)
    ensures !QuotesKept(['\''] + b, Escaping(Single))
  {
  }

  lemma BrokenBehind(v: string, w: string, m: ServerMode, n: ServerMode)
    requires ReadsInto(v, m, w, n) && !QuotesKept(w, n)
    ensures !QuotesKept(v + w, m)
  {
    hide QuotesKept, SharedComments, ServerPieces, OnFirst;
  }

  /** In any other string a backslash takes a quote. */
  lemma {:induction false} StringBreaks(t: string, b: string)
    requires !EscapesClose(t)
    ensures !QuotesKept(Written(t) + (['\''] + b), Reading(Single))
    decreases |t|
  {
    hide ReadsInto, Written, QuotesKept;
    var tail := ['\''] + b;
    WrittenStep(t);
    if t[0] == '\\' {
      WrittenStep(t[1..]);
      if |t| > 1 && t[1] != '\'' {
        assert t[1..][1..] == t[2..];
        var rest := Written(t[2..]) + tail;
        StringBreaks(t[2..], b);
        EscapedTaken(t[1], rest);
        BrokenBehind([t[1]], rest, Escaping(Single), Reading(Single));
        BackslashTaken([t[1]] + rest);
        BrokenBehind(['\\'], [t[1]] + rest, Reading(Single), Escaping(Single));
        assert Written(t) + tail == ['\\'] + ([t[1]] + rest);
      } else {
        var rest := if |t| > 1 then ['\''] + Written(t[2..]) + tail else b;
        QuoteLost(rest);
        BackslashTaken(['\''] + rest);
        BrokenBehind(['\\'], ['\''] + rest, Reading(Single), Escaping(Single));
        assert |t| > 1 ==> t[1..][1..] == t[2..];
        assert |t| == 1 ==> t[1..] == "";
        assert Written(t) + tail == ['\\'] + (['\''] + rest);
      }
    } else {
      var rest := Written(t[1..]) + tail;
      StringBreaks(t[1..], b);
      if t[0] == '\'' {
        QuoteTaken('\'', rest, Top);
        BrokenBehind(['\''], rest, Reading(Top), Reading(Single));
        QuoteTaken('\'', ['\''] + rest, Single);
        BrokenBehind(['\''], ['\''] + rest, Reading(Single), Reading(Top));
        assert Written(t) + tail == ['\''] + (['\''] + rest);
      } else {
        PlainTaken(t[0], rest, Single);
        BrokenBehind([t[0]], rest, Reading(Single), Reading(Single));
        assert Written(t) + tail == [t[0]] + rest;
      }
    }
  }

  lemma StringIsServerInert(t: string)
    requires EscapesClose(t)
    ensures ServerInert(QuoteSqlString(t))
  {
    hide ReadsInto, Doubled, EscapesClose;
    var done := Written(t) + ['\''];
    assert QuoteSqlString(t) == ['\''] + done;
    forall b: string
      ensures ReadsInto(['\''] + done, Reading(Top), b, Reading(Top))
    {
      StringInto(t, b);
      QuoteTaken('\'', done + b, Top);
      IntoThen(['\''], done, b, Reading(Top), Reading(Single), Reading(Top));
    }
  }

  lemma StringBreaksTop(t: string, b: string)
    requires !EscapesClose(t)
    ensures !QuotesKept(QuoteSqlString(t) + b, Reading(Top))
  {
    hide ReadsInto, Doubled, EscapesClose, QuotesKept;
    var rest := Written(t) + (['\''] + b);
    StringBreaks(t, b);
    QuoteTaken('\'', rest, Top);
    BrokenBehind(['\''], rest, Reading(Top), Reading(Single));
    assert QuoteSqlString(t) + b == ['\''] + rest;
  }

  /** A boundary is written as a number, or as a string that the server closes where the generator does. */
  predicate LiteralCloses(boundary: string) {
    EscapesClose(Trim(boundary))
  }

  lemma LiteralIsServerInert(boundary: string)
    requires LiteralCloses(boundary)
    ensures ServerInert(QuoteSqlLiteral(boundary))
  {
    hide ServerInert, EscapesClose, ParsesAsF64, ParsesAsI128, ParsesAsU128, Trim, QuoteSqlString, Calm;
    var t := Trim(boundary);
    NumericIsFloat(t);
    if ParsesAsF64(t) {
      FloatIsCalm(t);
      CalmIsServerInert(t);
    } else {
      StringIsServerInert(t);
    }
  }

  lemma LiteralBreaks(boundary: string, b: string)
    requires !LiteralCloses(boundary)
    ensures !QuotesKept(QuoteSqlLiteral(boundary) + b, Reading(Top))
  {
    hide EscapesClose, ParsesAsF64, ParsesAsI128, ParsesAsU128, Trim, QuoteSqlString, QuotesKept;
    var t := Trim(boundary);
    NumericIsFloat(t);
    if ParsesAsF64(t) {
      FloatIsPlain(t);
      PlainIsKept(t);
      assert false;
    } else {
      StringBreaksTop(t, b);
    }
  }

  // ---------------------------------------------------------------- whole statements

  lemma Grow(w: string, fixed: string, token: string)
    requires ServerInert(w) && Calm(fixed) && ServerInert(token)
    ensures ServerInert(w + fixed + token)
  {
    hide ServerInert, Calm;
    CalmIsServerInert(fixed);
    ServerInertConcat(w, fixed);
    ServerInertConcat(w + fixed, token);
  }

  lemma Begin(fixed: string, token: string)
    requires Calm(fixed) && ServerInert(token)
    ensures ServerInert(fixed + token)
  {
    hide ServerInert, Calm;
    CalmIsServerInert(fixed);
    ServerInertConcat(fixed, token);
  }

  lemma NumberIsServerInert(n: nat)
    ensures ServerInert(Decimal(n))
  {
    hide ServerInert, Decimal, Calm;
    DigitsAreCalm(Decimal(n));
    CalmIsServerInert(Decimal(n));
  }

  lemma SlicesAreInert(target: SqlTarget, limit: nat, offset: nat)
    ensures ServerInert(PreviewSelectSql(target, limit)) && ServerInert(OffsetPageSql(target, limit, offset))
  {
    hide ServerInert, QualifiedTableSql, Decimal;
    TableIsServerInert(target);
    NumberIsServerInert(limit);
    NumberIsServerInert(offset);
    Begin("SELECT * FROM ", QualifiedTableSql(target));
    Grow("SELECT * FROM " + QualifiedTableSql(target), " LIMIT ", Decimal(limit));
    Grow("SELECT * FROM " + QualifiedTableSql(target) + " LIMIT " + Decimal(limit), " OFFSET ", Decimal(offset));
  }

  lemma FirstPageIsInert(target: SqlTarget, keyColumn: string, limit: nat)
    requires Trim(keyColumn) != ""
    ensures ServerInert(KeysetFirstPageSql(target, keyColumn, limit).value)
  {
    hide ServerInert, QualifiedTableSql, QuoteIdentifier, Decimal, Trim;
    var table, key := QualifiedTableSql(target), QuoteIdentifier(keyColumn);
    TableIsServerInert(target);
    IdentifierIsServerInert(keyColumn);
    NumberIsServerInert(limit);
    Begin("SELECT * FROM ", table);
    Grow("SELECT * FROM " + table, " ORDER BY ", key);
    Grow("SELECT * FROM " + table + " ORDER BY " + key, " ASC LIMIT ", Decimal(limit));
  }

  /** The text before the boundary of a page query. */
  function PageHead(target: SqlTarget, keyColumn: string, direction: PaginationDirection): string {
    (if direction.Next? then "SELECT * FROM " else "SELECT * FROM (SELECT * FROM ") + QualifiedTableSql(target)
    + " WHERE " + QuoteIdentifier(keyColumn) + (if direction.Next? then " > " else " < ")
  }

  /** The text behind it. */
  function PageRest(keyColumn: string, direction: PaginationDirection, limit: nat): string {
    var key := QuoteIdentifier(keyColumn);
    if direction.Next? then " ORDER BY " + key + " ASC LIMIT " + Decimal(limit)
    else " ORDER BY " + key + " DESC LIMIT " + Decimal(limit) + ") AS page_window ORDER BY " + key + " ASC"
  }

  lemma PageParts(target: SqlTarget, keyColumn: string, boundary: string, direction: PaginationDirection, limit: nat)
    requires Trim(keyColumn) != ""
    ensures KeysetPageSql(target, keyColumn, boundary, direction, limit).value ==
            PageHead(target, keyColumn, direction) + (QuoteSqlLiteral(boundary) + PageRest(keyColumn, direction, limit))
  {
    hide QualifiedTableSql, QuoteIdentifier, QuoteSqlLiteral, Decimal, Trim;
    var table, key := QualifiedTableSql(target), QuoteIdentifier(keyColumn);
    var head, literal := PageHead(target, keyColumn, direction), QuoteSqlLiteral(boundary);
    match direction
    case Next =>
      Joined4(head + literal, " ORDER BY ", key, " ASC LIMIT ", Decimal(limit));
      Joined4(head, literal, PageRest(keyColumn, direction, limit), "", "");
    case Previous =>
      Joined4(head + literal, " ORDER BY ", key, " DESC LIMIT ", Decimal(limit));
      var limited := " ORDER BY " + key + " DESC LIMIT " + Decimal(limit);
      Joined4(head + literal, limited, ") AS page_window ORDER BY ", key, " ASC");
      Joined4(head, literal, PageRest(keyColumn, direction, limit), "", "");
  }

  lemma Joined4(head: string, a: string, b: string, c: string, d: string)
    ensures head + a + b + c + d == head + (a + b + c + d)
    ensures head + a + b == head + (a + b)
  {
  }

  lemma PageHeadIsInert(target: SqlTarget, keyColumn: string, direction: PaginationDirection)
    ensures ServerInert(PageHead(target, keyColumn, direction))
  {
    hide ServerInert, QualifiedTableSql, QuoteIdentifier;
    var first := if direction.Next? then "SELECT * FROM " else "SELECT * FROM (SELECT * FROM ";
    var sign := if direction.Next? then " > " else " < ";
    TableIsServerInert(target);
    IdentifierIsServerInert(keyColumn);
    Begin(first, QualifiedTableSql(target));
    Grow(first + QualifiedTableSql(target), " WHERE ", QuoteIdentifier(keyColumn));
    CalmIsServerInert(sign);
    ServerInertConcat(first + QualifiedTableSql(target) + " WHERE " + QuoteIdentifier(keyColumn), sign);
  }

  lemma PageRestIsInert(keyColumn: string, direction: PaginationDirection, limit: nat)
    ensures ServerInert(PageRest(keyColumn, direction, limit))
  {
    hide ServerInert, QuoteIdentifier, Decimal;
    var key := QuoteIdentifier(keyColumn);
    IdentifierIsServerInert(keyColumn);
    NumberIsServerInert(limit);
    Begin(" ORDER BY ", key);
    if direction.Next? {
      Grow(" ORDER BY " + key, " ASC LIMIT ", Decimal(limit));
    } else {
      var limited := " ORDER BY " + key + " DESC LIMIT " + Decimal(limit);
      Grow(" ORDER BY " + key, " DESC LIMIT ", Decimal(limit));
      Grow(limited, ") AS page_window ORDER BY ", key);
      CalmIsServerInert(" ASC");
      ServerInertConcat(limited + ") AS page_window ORDER BY " + key, " ASC");
    }
  }

  lemma InertKeepsQuotes(w: string, b: string)
    requires ServerInert(w)
    ensures QuotesKept(w + b, Reading(Top)) <==> QuotesKept(b, Reading(Top))
  {
    hide QuotesKept, SharedComments, ServerPieces, OnFirst;
    assert ReadsInto(w, Reading(Top), b, Reading(Top));
  }

  lemma PageIsInertIff(target: SqlTarget, keyColumn: string, boundary: string, direction: PaginationDirection,
                       limit: nat)
    requires Trim(keyColumn) != ""
    ensures var sql := KeysetPageSql(target, keyColumn, boundary, direction, limit).value;
            && (LiteralCloses(boundary) ==> ServerInert(sql))
            && (!LiteralCloses(boundary) ==> !QuotesKept(sql, Reading(Top)))
  {
    hide ServerInert, PageHead, PageRest, QuoteSqlLiteral, KeysetPageSql, LiteralCloses, QuotesKept, Trim;
    var head, rest := PageHead(target, keyColumn, direction), PageRest(keyColumn, direction, limit);
    PageParts(target, keyColumn, boundary, direction, limit);
    PageHeadIsInert(target, keyColumn, direction);
    PageRestIsInert(keyColumn, direction, limit);
    if LiteralCloses(boundary) {
      LiteralIsServerInert(boundary);
      ServerInertConcat(QuoteSqlLiteral(boundary), rest);
      ServerInertConcat(head, QuoteSqlLiteral(boundary) + rest);
    } else {
      LiteralBreaks(boundary, rest);
      InertKeepsQuotes(head, QuoteSqlLiteral(boundary) + rest);
    }
  }

  lemma DescriptionsAreInert(target: SqlTarget)
    ensures ServerInert(DescribeTableSql(target)) && ServerInert(ShowCreateTableSql(target))
    ensures ServerInert(ShowIndexSql(target))
  {
    hide ServerInert, QualifiedTableSql;
    TableIsServerInert(target);
    Begin("DESCRIBE ", QualifiedTableSql(target));
    Begin("SHOW CREATE TABLE ", QualifiedTableSql(target));
    Begin("SHOW INDEX FROM ", QualifiedTableSql(target));
  }

  lemma ColumnPreviewIsInert(target: SqlTarget, column: string, limit: nat)
    requires Trim(column) != ""
    ensures ServerInert(SelectColumnPreviewSql(target, column, limit).value)
  {
    hide ServerInert, QualifiedTableSql, QuoteIdentifier, Decimal, Trim;
    var table, key := QualifiedTableSql(target), QuoteIdentifier(column);
    TableIsServerInert(target);
    IdentifierIsServerInert(column);
    NumberIsServerInert(limit);
    Begin("SELECT ", key);
    Grow("SELECT " + key, " FROM ", table);
    Grow("SELECT " + key + " FROM " + table, " LIMIT ", Decimal(limit));
  }

  lemma SearchPatternIsServerInert()
    ensures ServerInert(SEARCH_PATTERN)
  {
    hide ServerInert, Doubled;
    var t := "%search%";
    NothingDoubled(t, '\'');
    PlainIsKept(t);
    StringIsServerInert(t);
    assert "'" + t + "'" == SEARCH_PATTERN;
  }

  lemma FilteredSortedIsInert(target: SqlTarget, column: string, limit: nat)
    requires Trim(column) != ""
    ensures ServerInert(FilteredSortedPreviewSql(target, column, limit).value)
  {
    hide ServerInert, QualifiedTableSql, QuoteIdentifier, Decimal, Trim, SEARCH_PATTERN;
    var table, key := QualifiedTableSql(target), QuoteIdentifier(column);
    TableIsServerInert(target);
    IdentifierIsServerInert(column);
    SearchPatternIsServerInert();
    NumberIsServerInert(limit);
    var w := "SELECT * FROM " + table;
    Begin("SELECT * FROM ", table);
    Grow(w, " WHERE ", key);
    Grow(w + " WHERE " + key, " LIKE ", SEARCH_PATTERN);
    Grow(w + " WHERE " + key + " LIKE " + SEARCH_PATTERN, " ORDER BY ", key);
    Grow(w + " WHERE " + key + " LIKE " + SEARCH_PATTERN + " ORDER BY " + key, " ASC LIMIT ", Decimal(limit));
  }

  /** The fixed text before the database name of an estimate. */
  function CountHead(): string {
    "SELECT TABLE_ROWS AS estimated_rows " + "FROM information_schema.TABLES " + "WHERE TABLE_SCHEMA = "
  }

  lemma CountHeadIsServerInert()
    ensures ServerInert(CountHead())
  {
    hide ServerInert, Calm;
    var a, b, c := "SELECT TABLE_ROWS AS estimated_rows ", "FROM information_schema.TABLES ", "WHERE TABLE_SCHEMA = ";
    CountHeadIsCalm(a);
    CountSourceIsCalm(b);
    CountTailIsCalm(c);
    CalmConcat(a, b);
    CalmConcat(a + b, c);
    CalmIsServerInert(a + b + c);
  }

  lemma CountParts(database: string, table: string)
    ensures CountEstimateSql(SqlTarget(Some(database), table)).value ==
            CountHead() + (QuoteSqlString(database) + (" AND TABLE_NAME = " + (QuoteSqlString(table) + "")))
  {
    hide QuoteSqlString;
    var head := CountHead();
    Joined4(head, QuoteSqlString(database), " AND TABLE_NAME = ", QuoteSqlString(table), "");
    Joined4(QuoteSqlString(database), " AND TABLE_NAME = ", QuoteSqlString(table), "", "");
    assert QuoteSqlString(table) + "" == QuoteSqlString(table);
  }

  lemma CountIsInertIff(database: string, table: string)
    ensures var sql := CountEstimateSql(SqlTarget(Some(database), table)).value;
            && (EscapesClose(database) && EscapesClose(table) ==> ServerInert(sql))
            && (!(EscapesClose(database) && EscapesClose(table)) ==> !QuotesKept(sql, Reading(Top)))
  {
    hide ServerInert, CountHead, QuoteSqlString, EscapesClose, QuotesKept, CountEstimateSql;
    var name, and := QuoteSqlString(database), " AND TABLE_NAME = ";
    var last := QuoteSqlString(table) + "";
    CountParts(database, table);
    CountHeadIsServerInert();
    CalmIsServerInert(and);
    InertKeepsQuotes(CountHead(), name + (and + last));
    InertKeepsQuotes(and, last);
    if !EscapesClose(database) {
      StringBreaksTop(database, and + last);
    } else {
      StringIsServerInert(database);
      InertKeepsQuotes(name, and + last);
      if !EscapesClose(table) {
        StringBreaksTop(table, "");
      } else {
        StringIsServerInert(table);
        assert last == QuoteSqlString(table);
        ServerInertConcat(and, last);
        ServerInertConcat(name, and + last);
        ServerInertConcat(CountHead(), name + (and + last));
      }
    }
  }

  /** The strings that a request puts into its text are closed where the generator closes them. */
  predicate StringsClose(target: SqlTarget, r: Request) {
    && (r.Page? ==> EscapesClose(Trim(r.boundary)))
    && (r.CountEstimate? && target.database.Some? ==> EscapesClose(target.database.value) && EscapesClose(target.table))
  }

  lemma InertIsOnePiece(sql: string)
    requires ServerInert(sql)
    ensures ServerPieces(sql, Reading(Top)) == [sql]
    ensures SharedComments(sql, Reading(Top)) && QuotesKept(sql, Reading(Top))
  {
    assert ReadsInto(sql, Reading(Top), "", Reading(Top));
    hide ServerInert;
    assert sql + "" == sql;
    NothingLeft();
    OnFirstAlone(sql, "");
  }

  lemma GeneratedIsInertIff(target: SqlTarget, r: Request)
    requires Generate(target, r).Ok?
    ensures StringsClose(target, r) ==> ServerInert(Generate(target, r).value)
    ensures !StringsClose(target, r) ==> !QuotesKept(Generate(target, r).value, Reading(Top))
  {
    hide ServerInert, QuotesKept, Trim, EscapesClose;
    match r
    case Preview(limit) => SlicesAreInert(target, limit, 0);
    case FirstPage(column, limit) => FirstPageIsInert(target, column, limit);
    case Page(column, boundary, direction, limit) => PageIsInertIff(target, column, boundary, direction, limit);
    case OffsetPage(limit, offset) => SlicesAreInert(target, limit, offset);
    case Describe => DescriptionsAreInert(target);
    case ShowCreate => DescriptionsAreInert(target);
    case ShowIndex => DescriptionsAreInert(target);
    case ColumnPreview(column, limit) => ColumnPreviewIsInert(target, column, limit);
    case CountEstimate => CountIsInertIff(target.database.value, target.table);
    case FilteredSorted(column, limit) => FilteredSortedIsInert(target, column, limit);
  }

  lemma WordFirst(word: string, sql: string)
    requires AllLetters(word) && word != "" && word + " " <= sql
    ensures ServerWord(sql) == word
  {
    var rest := " " + sql[|word| + 1..];
    assert sql == word + rest && sql[0] == word[0];
    LeadingTaken(word, rest);
  }

  predicate StartsAsReading(sql: string) {
    "SELECT" + " " <= sql || "SHOW" + " " <= sql || "DESCRIBE" + " " <= sql
  }

  lemma SlicesStart(target: SqlTarget, limit: nat, offset: nat)
    ensures StartsAsReading(PreviewSelectSql(target, limit)) && StartsAsReading(OffsetPageSql(target, limit, offset))
  {
    hide QualifiedTableSql, Decimal;
  }

  lemma FirstPageStart(target: SqlTarget, column: string, limit: nat)
    requires Trim(column) != ""
    ensures StartsAsReading(KeysetFirstPageSql(target, column, limit).value)
  {
    hide QualifiedTableSql, QuoteIdentifier, Decimal, Trim;
  }

  lemma PageHeadStart(target: SqlTarget, column: string, direction: PaginationDirection)
    ensures StartsAsReading(PageHead(target, column, direction))
  {
    hide QualifiedTableSql, QuoteIdentifier;
  }

  lemma LongerStart(head: string, rest: string)
    requires StartsAsReading(head)
    ensures StartsAsReading(head + rest)
  {
  }

  lemma PageStarts(target: SqlTarget, column: string, boundary: string, direction: PaginationDirection, limit: nat)
    requires Trim(column) != ""
    ensures StartsAsReading(KeysetPageSql(target, column, boundary, direction, limit).value)
  {
    hide StartsAsReading, PageHead, PageRest, QuoteSqlLiteral, KeysetPageSql, Trim;
    PageParts(target, column, boundary, direction, limit);
    PageHeadStart(target, column, direction);
    LongerStart(PageHead(target, column, direction), QuoteSqlLiteral(boundary) + PageRest(column, direction, limit));
  }

  lemma DescriptionsStart(target: SqlTarget)
    ensures StartsAsReading(DescribeTableSql(target)) && StartsAsReading(ShowCreateTableSql(target))
    ensures StartsAsReading(ShowIndexSql(target))
  {
    hide QualifiedTableSql;
  }

  lemma ColumnsStart(target: SqlTarget, column: string, limit: nat)
    requires Trim(column) != ""
    ensures StartsAsReading(SelectColumnPreviewSql(target, column, limit).value)
    ensures StartsAsReading(FilteredSortedPreviewSql(target, column, limit).value)
  {
    hide QualifiedTableSql, QuoteIdentifier, Decimal, Trim, SEARCH_PATTERN;
  }

  lemma CountStart(database: string, table: string)
    ensures StartsAsReading(CountEstimateSql(SqlTarget(Some(database), table)).value)
  {
    hide QuoteSqlString, CountEstimateSql;
    CountParts(database, table);
    assert "SELECT" + " " <= CountHead();
  }

  lemma GeneratedStart(target: SqlTarget, r: Request)
    requires Generate(target, r).Ok?
    ensures StartsAsReading(Generate(target, r).value)
  {
    hide StartsAsReading, Trim;
    match r
    case Preview(limit) => SlicesStart(target, limit, 0);
    case FirstPage(column, limit) => FirstPageStart(target, column, limit);
    case Page(column, boundary, direction, limit) => PageStarts(target, column, boundary, direction, limit);
    case OffsetPage(limit, offset) => SlicesStart(target, limit, offset);
    case Describe => DescriptionsStart(target);
    case ShowCreate => DescriptionsStart(target);
    case ShowIndex => DescriptionsStart(target);
    case ColumnPreview(column, limit) => ColumnsStart(target, column, limit);
    case CountEstimate => CountStart(target.database.value, target.table);
    case FilteredSorted(column, limit) => ColumnsStart(target, column, limit);
  }

  lemma GeneratedWord(target: SqlTarget, r: Request)
    requires Generate(target, r).Ok?
    ensures IsSafeReadKeyword(ServerWord(Generate(target, r).value))
  {
    hide Generate, ServerWord;
    var sql := Generate(target, r).value;
    GeneratedStart(target, r);
    if "SELECT" + " " <= sql {
      WordFirst("SELECT", sql);
    } else if "SHOW" + " " <= sql {
      WordFirst("SHOW", sql);
    } else {
      WordFirst("DESCRIBE", sql);
    }
  }

  /** Scanner and server read a generated statement alike exactly when no backslash in a string that was put into
      it takes a quote or the end. For the server, too, it is then one statement, the whole text, and starts with a
      reading keyword, whatever the names and the limits are. */
  lemma GeneratedReadsAlikeIff(target: SqlTarget, r: Request)
    requires Generate(target, r).Ok?
    ensures var sql := Generate(target, r).value;
            && (SharedComments(sql, Reading(Top)) && QuotesKept(sql, Reading(Top)) <==> StringsClose(target, r))
            && (StringsClose(target, r) ==> ServerPieces(sql, Reading(Top)) == [sql])
            && IsSafeReadKeyword(ServerWord(sql))
  {
    hide ServerInert, QuotesKept, SharedComments, ServerPieces, Generate, StringsClose, ServerWord, IsSafeReadKeyword;
    GeneratedIsInertIff(target, r);
    GeneratedWord(target, r);
    if StringsClose(target, r) {
      InertIsOnePiece(Generate(target, r).value);
    }
  }
}
