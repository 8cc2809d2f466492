/** Every generated statement is one safe reading statement, whatever the names, values and limits are. */
module GeneratedSql {
  import opened Text
  import opened SqlLexer
  import opened ConfirmationGuard
  import opened SafeMode
  import opened SqlGenerator

  /** Scanning w from the top level keeps every character and ends at the top level, whatever follows. */
  ghost predicate Inert(w: string) {
    forall b: string {:trigger Lex(w + b, Top)} :: Lex(w + b, Top) == Prepend(w, Lex(b, Top))
  }

  lemma InertConcat(a: string, b: string)
    requires Inert(a) && Inert(b)
    ensures Inert(a + b)
  {
    hide Lex, Prepend;
    forall c: string
      ensures Lex(a + b + c, Top) == Prepend(a + b, Lex(c, Top))
    {
      assert a + b + c == a + (b + c);
      assert Lex(a + (b + c), Top) == Prepend(a, Lex(b + c, Top));
      assert Lex(b + c, Top) == Prepend(b, Lex(c, Top));
      PrependTwice(a, b, Lex(c, Top));
    }
  }

  /** Not a quote, a semicolon or a comment opener, nor one completed by the text that follows w. */
  predicate CalmAt(w: string, i: nat)
    requires i < |w|
  {
    && w[i] != '\'' && w[i] != '"' && w[i] != '`' && w[i] != ';' && w[i] != '#' && w[i] != '/'
    && (w[i] == '-' ==> i + 1 < |w| && w[i + 1] != '-')
  }

  predicate Calm(w: string) {
    forall i :: 0 <= i < |w| ==> CalmAt(w, i)
  }

  lemma {:induction false} CalmScan(w: string, b: string)
    requires Calm(w)
    ensures Lex(w + b, Top) == Prepend(w, Lex(b, Top))
  {
    if w == "" {
      assert w + b == b;
      PrependNothing(Lex(b, Top));
    } else {
      hide Prepend;
      assert (w + b)[1..] == w[1..] + b && (w + b)[0] == w[0];
      assert CalmAt(w, 0);
      assert |w| > 1 ==> (w + b)[1] == w[1];
      assert Advance(w + b, Top) == Emit(Top);
      forall i | 0 <= i < |w| - 1
        ensures CalmAt(w[1..], i)
      {
        assert CalmAt(w, i + 1);
      }
      CalmScan(w[1..], b);
      PrependTwice([w[0]], w[1..], Lex(b, Top));
      assert [w[0]] + w[1..] == w;
    }
  }

  lemma CalmIsInert(w: string)
    requires Calm(w)
    ensures Inert(w)
  {
    hide Lex, Prepend, Calm;
    forall b: string
      ensures Lex(w + b, Top) == Prepend(w, Lex(b, Top))
    {
      CalmScan(w, b);
    }
  }

  // ---------------------------------------------------------------- quoted names and strings

  function QuoteMode(q: char): Mode {
    if q == '`' then Backtick else Single
  }

  lemma EmitOne(c: char, tail: string, m: Mode, next: Mode)
    requires Advance([c] + tail, m) == Emit(next)
    ensures Lex([c] + tail, m) == Prepend([c], Lex(tail, next))
  {
    assert ([c] + tail)[1..] == tail;
  }

  /** Doubling keeps the scanner inside the quotes up to the closing one. */
  lemma {:induction false} QuotedScan(s: string, q: char, b: string)
    requires q == '`' || q == '\''
    ensures Lex(Doubled(s, q) + [q] + b, QuoteMode(q)) == Prepend(Doubled(s, q) + [q], Lex(b, Top))
  {
    hide Lex, Prepend;
    var m := QuoteMode(q);
    if s == "" {
      assert Doubled(s, q) + [q] + b == [q] + b;
      assert Doubled(s, q) + [q] == [q];
      EmitOne(q, b, m, Top);
    } else {
      QuotedScan(s[1..], q, b);
      var done := Doubled(s[1..], q) + [q];
      var tail := done + b;
      var r := Lex(b, Top);
      if s[0] == q {
        assert Doubled(s, q) + [q] == [q, q] + done;
        assert Doubled(s, q) + [q] + b == [q] + ([q] + tail);
        EmitOne(q, [q] + tail, m, Top);
        EmitOne(q, tail, Top, m);
        PrependTwice([q], done, r);
        PrependTwice([q], [q] + done, r);
        assert [q] + ([q] + done) == [q, q] + done;
      } else {
        assert Doubled(s, q) + [q] == [s[0]] + done;
        assert Doubled(s, q) + [q] + b == [s[0]] + tail;
        EmitOne(s[0], tail, m, m);
        PrependTwice([s[0]], done, r);
      }
    }
  }

  lemma QuotedIsInert(s: string, q: char)
    requires q == '`' || q == '\''
    ensures Inert([q] + Doubled(s, q) + [q])
  {
    hide Lex, Prepend, Doubled;
    var done := Doubled(s, q) + [q];
    assert [q] + Doubled(s, q) + [q] == [q] + done;
    forall b: string
      ensures Lex([q] + done + b, Top) == Prepend([q] + done, Lex(b, Top))
    {
      assert [q] + done + b == [q] + (done + b);
      EmitOne(q, done + b, Top, QuoteMode(q));
      QuotedScan(s, q, b);
      PrependTwice([q], done, Lex(b, Top));
    }
  }

  lemma IdentifierIsInert(identifier: string)
    ensures Inert(QuoteIdentifier(identifier))
  {
    hide Inert;
    QuotedIsInert(identifier, '`');
  }

  lemma StringIsInert(value: string)
    ensures Inert(QuoteSqlString(value))
  {
    hide Inert;
    QuotedIsInert(value, '\'');
  }

  // ---------------------------------------------------------------- numbers

  lemma DigitsAreCalm(s: string)
    requires AllDigits(s)
    ensures Calm(s)
  {
  }

  lemma CalmConcat(a: string, b: string)
    requires Calm(a) && Calm(b)
    ensures Calm(a + b)
  {
    forall i | 0 <= i < |a + b|
      ensures CalmAt(a + b, i)
    {
      assert if i < |a| then CalmAt(a, i) else CalmAt(b, i - |a|);
    }
  }

  /** A sign is calm when a character other than a minus follows it. */
  lemma SignIsCalm(s: string)
    requires Calm(StripSign(s)) && StripSign(s) != "" && StripSign(s)[0] != '-'
    ensures Calm(s)
  {
    forall i | 0 <= i < |s|
      ensures CalmAt(s, i)
    {
      if StripSign(s) == s {
        assert CalmAt(StripSign(s), i);
      } else if i > 0 {
        assert CalmAt(s[1..], i - 1);
      }
    }
  }

  lemma MantissaIsCalm(s: string)
    requires IsMantissa(s)
    ensures Calm(s)
  {
    var dot := FirstOf(s, '.', '.');
    assert forall i :: 0 <= i < dot ==> s[i] == s[..dot][i];
    if dot < |s| {
      assert forall i :: dot < i < |s| ==> s[i] == s[dot + 1..][i - dot - 1];
    }
  }

  lemma NumberIsCalm(s: string)
    requires IsNumber(s)
    ensures Calm(s)
  {
    hide Calm, IsMantissa, IsExponent;
    var e := FirstOf(s, 'e', 'E');
    MantissaIsCalm(s[..e]);
    if e == |s| {
      assert s[..e] == s;
    } else {
      assert s == s[..e] + [s[e]] + s[e + 1..];
      ExponentIsCalm(s[e + 1..]);
      LetterIsCalm(s[e]);
      CalmConcat(s[..e], [s[e]]);
      CalmConcat(s[..e] + [s[e]], s[e + 1..]);
    }
  }

  lemma LetterIsCalm(c: char)
    requires c == 'e' || c == 'E'
    ensures Calm([c])
  {
  }

  lemma ExponentIsCalm(s: string)
    requires IsExponent(s)
    ensures Calm(s)
  {
    DigitsAreCalm(StripSign(s));
    SignIsCalm(s);
  }

  lemma NonFiniteIsCalm(s: string)
    requires IsNonFiniteName(s)
    ensures Calm(s)
  {
    var name := StripSign(s);
    var lower := AsciiLowercase(name);
    forall i | 0 <= i < |name|
      ensures name[i] !in "'\"`;#/-"
    {
      assert lower[i] == AsciiLower(name[i]);
      assert lower[i] in "infinityna";
    }
    SignIsCalm(s);
  }

  lemma FloatIsCalm(s: string)
    requires ParsesAsF64(s)
    ensures Calm(s)
  {
    hide Calm, IsNumber, IsNonFiniteName;
    if IsNonFiniteName(s) {
      NonFiniteIsCalm(s);
    } else {
      NumberIsCalm(StripSign(s));
      NumberStartsWithDigit(StripSign(s));
      SignIsCalm(s);
    }
  }

  lemma LiteralIsInert(value: string)
    ensures Inert(QuoteSqlLiteral(value))
  {
    hide Inert, ParsesAsF64, ParsesAsI128, ParsesAsU128, Trim, QuoteSqlString;
    var t := Trim(value);
    if ParsesAsI128(t) || ParsesAsU128(t) {
      IntegersParseAsFloats(t);
    }
    if ParsesAsF64(t) {
      FloatIsCalm(t);
      CalmIsInert(t);
    } else {
      StringIsInert(t);
    }
  }

  lemma DecimalIsInert(n: nat)
    ensures Inert(Decimal(n))
  {
    hide Decimal, Inert;
    DigitsAreCalm(Decimal(n));
    CalmIsInert(Decimal(n));
  }

  lemma TableIsInert(target: SqlTarget)
    ensures Inert(QualifiedTableSql(target))
  {
    hide Inert, QuoteIdentifier;
    IdentifierIsInert(target.table);
    if target.database.Some? {
      var database := QuoteIdentifier(target.database.value);
      IdentifierIsInert(target.database.value);
      CalmIsInert(".");
      InertConcat(database, ".");
      InertConcat(database + ".", QuoteIdentifier(target.table));
    }
  }

  // ---------------------------------------------------------------- whole statements

  /** The text is exactly one statement, is its own normal form and is allowed without confirmation. */
  predicate ReadsOnly(sql: string) {
    && Statements(sql) == [sql]
    && Normalize(sql) == sql
    && Assess(sql).IsSafeReadOnly()
  }

  lemma {:induction false} WordTaken(word: string, rest: string)
    requires forall i :: 0 <= i < |word| ==> !IsWhitespace(word[i])
    ensures TakeWord(word + " " + rest) == word
  {
    if word == "" {
      assert (word + " " + rest)[0] == ' ';
    } else {
      assert (word + " " + rest)[1..] == word[1..] + " " + rest;
      WordTaken(word[1..], rest);
    }
  }

  predicate IsReadingWord(word: string) {
    word in ["SELECT", "SHOW", "DESCRIBE"]
  }

  lemma ReadingWordTaken(word: string, rest: string)
    requires IsReadingWord(word)
    ensures TakeWord(word + " " + rest) == word && AsciiUppercase(word) == word
    ensures IsSafeReadKeyword(word) && !IsWhitespace((word + " " + rest)[0])
  {
    WordTaken(word, rest);
  }

  lemma InertIsOneStatement(sql: string)
    requires Inert(sql) && sql != "" && Trimmed(sql)
    ensures Statements(sql) == [sql] && Normalize(sql) == sql
  {
    hide Inert;
    assert sql + "" == sql;
    assert Lex(sql + "", Top) == Prepend(sql, Lex("", Top)) by { InertAlone(sql); }
    assert Lex(sql, Top).pieces == [sql + ""];
    TrimOfTrimmed(sql);
    KeepCons(sql, []);
    assert [sql] + [] == [sql];
  }

  lemma InertAlone(sql: string)
    requires Inert(sql)
    ensures Lex(sql + "", Top) == Prepend(sql, Lex("", Top))
  {
  }

  /** The beginning of a reading statement, ending in a solid character. */
  ghost predicate Draft(w: string, word: string) {
    && Inert(w)
    && word + " " <= w && |w| > |word| + 1
    && !IsWhitespace(w[|w| - 1])
  }

  /** A name, string or number in the generated text. */
  ghost predicate SolidToken(token: string) {
    Inert(token) && token != "" && !IsWhitespace(token[|token| - 1])
  }

  lemma Extend(w: string, word: string, fixed: string, token: string)
    requires Draft(w, word) && Calm(fixed) && SolidToken(token)
    ensures Draft(w + fixed + token, word)
  {
    hide Inert, Calm;
    CalmIsInert(fixed);
    InertConcat(w, fixed);
    InertConcat(w + fixed, token);
  }

  lemma Start(word: string, fixed: string, token: string)
    requires Calm(fixed) && word + " " <= fixed && SolidToken(token)
    ensures Draft(fixed + token, word)
  {
    hide Inert, Calm;
    CalmIsInert(fixed);
    InertConcat(fixed, token);
  }

  lemma Finish(word: string, sql: string)
    requires IsReadingWord(word) && Draft(sql, word)
    ensures ReadsOnly(sql)
  {
    hide Inert, TakeWord, IsSafeReadKeyword, Statements, Normalize, Assess;
    var rest := sql[|word| + 1..];
    assert sql == word + " " + rest;
    ReadingWordTaken(word, rest);
    InertIsOneStatement(sql);
    TrimOfTrimmed(sql);
    SafeIffOneReadingStatement(sql);
  }

  lemma NumberIsSolid(n: nat)
    ensures SolidToken(Decimal(n))
  {
    hide Inert;
    DecimalIsInert(n);
    assert '0' <= Decimal(n)[|Decimal(n)| - 1] <= '9';
  }

  lemma IdentifierIsSolid(identifier: string)
    ensures SolidToken(QuoteIdentifier(identifier))
  {
    hide Inert;
    IdentifierIsInert(identifier);
  }

  lemma StringIsSolid(value: string)
    ensures SolidToken(QuoteSqlString(value))
  {
    hide Inert;
    StringIsInert(value);
  }

  lemma TableIsSolid(target: SqlTarget)
    ensures SolidToken(QualifiedTableSql(target))
  {
    hide Inert;
    TableIsInert(target);
  }

  lemma LiteralIsSolid(value: string)
    ensures SolidToken(QuoteSqlLiteral(value))
  {
    hide Inert, ParsesAsI128, ParsesAsU128, ParsesAsF64, Trim;
    LiteralIsInert(value);
    TrimIsTrimmed(value);
    var t := Trim(value);
    if t == "" {
      EmptyIsNoNumber();
    }
  }

  lemma EmptyIsNoNumber()
    ensures !ParsesAsI128("") && !ParsesAsU128("") && !ParsesAsF64("")
  {
    if IsNumber("") {
      NumberStartsWithDigit("");
      assert false;
    }
    assert AsciiLowercase("") == "";
  }

  lemma PreviewSelectReads(target: SqlTarget, limit: nat)
    ensures ReadsOnly(PreviewSelectSql(target, limit))
  {
    hide SolidToken, Draft, QualifiedTableSql, Decimal, ReadsOnly;
    TableIsSolid(target);
    NumberIsSolid(limit);
    var w := "SELECT * FROM " + QualifiedTableSql(target);
    Start("SELECT", "SELECT * FROM ", QualifiedTableSql(target));
    Extend(w, "SELECT", " LIMIT ", Decimal(limit));
    Finish("SELECT", PreviewSelectSql(target, limit));
  }

  lemma OffsetPageReads(target: SqlTarget, limit: nat, offset: nat)
    ensures ReadsOnly(OffsetPageSql(target, limit, offset))
  {
    hide SolidToken, Draft, QualifiedTableSql, Decimal, ReadsOnly;
    TableIsSolid(target);
    NumberIsSolid(limit);
    NumberIsSolid(offset);
    var w := "SELECT * FROM " + QualifiedTableSql(target);
    Start("SELECT", "SELECT * FROM ", QualifiedTableSql(target));
    Extend(w, "SELECT", " LIMIT ", Decimal(limit));
    Extend(w + " LIMIT " + Decimal(limit), "SELECT", " OFFSET ", Decimal(offset));
    Finish("SELECT", OffsetPageSql(target, limit, offset));
  }

  lemma KeysetFirstPageReads(target: SqlTarget, keyColumn: string, limit: nat)
    requires Trim(keyColumn) != ""
    ensures ReadsOnly(KeysetFirstPageSql(target, keyColumn, limit).value)
  {
    hide SolidToken, Draft, QualifiedTableSql, QuoteIdentifier, Decimal, ReadsOnly, Trim;
    var table, key := QualifiedTableSql(target), QuoteIdentifier(keyColumn);
    TableIsSolid(target);
    IdentifierIsSolid(keyColumn);
    NumberIsSolid(limit);
    Start("SELECT", "SELECT * FROM ", table);
    Extend("SELECT * FROM " + table, "SELECT", " ORDER BY ", key);
    Extend("SELECT * FROM " + table + " ORDER BY " + key, "SELECT", " ASC LIMIT ", Decimal(limit));
    Finish("SELECT", KeysetFirstPageSql(target, keyColumn, limit).value);
  }

  lemma KeysetNextReads(target: SqlTarget, keyColumn: string, boundary: string, limit: nat)
    requires Trim(keyColumn) != ""
    ensures ReadsOnly(KeysetPageSql(target, keyColumn, boundary, Next, limit).value)
  {
    hide SolidToken, Draft, QualifiedTableSql, QuoteIdentifier, QuoteSqlLiteral, Decimal, ReadsOnly, Trim;
    var table, key, literal := QualifiedTableSql(target), QuoteIdentifier(keyColumn), QuoteSqlLiteral(boundary);
    TableIsSolid(target);
    IdentifierIsSolid(keyColumn);
    LiteralIsSolid(boundary);
    NumberIsSolid(limit);
    var w := "SELECT * FROM " + table;
    Start("SELECT", "SELECT * FROM ", table);
    Extend(w, "SELECT", " WHERE ", key);
    Extend(w + " WHERE " + key, "SELECT", " > ", literal);
    Extend(w + " WHERE " + key + " > " + literal, "SELECT", " ORDER BY ", key);
    Extend(w + " WHERE " + key + " > " + literal + " ORDER BY " + key, "SELECT", " ASC LIMIT ", Decimal(limit));
    Finish("SELECT", KeysetPageSql(target, keyColumn, boundary, Next, limit).value);
  }

  lemma KeysetPreviousReads(target: SqlTarget, keyColumn: string, boundary: string, limit: nat)
    requires Trim(keyColumn) != ""
    ensures ReadsOnly(KeysetPageSql(target, keyColumn, boundary, Previous, limit).value)
  {
    hide SolidToken, Draft, QualifiedTableSql, QuoteIdentifier, QuoteSqlLiteral, Decimal, ReadsOnly, Trim;
    var table, key, literal := QualifiedTableSql(target), QuoteIdentifier(keyColumn), QuoteSqlLiteral(boundary);
    TableIsSolid(target);
    IdentifierIsSolid(keyColumn);
    LiteralIsSolid(boundary);
    NumberIsSolid(limit);
    AscIsSolid();
    var w := "SELECT * FROM (SELECT * FROM " + table;
    Start("SELECT", "SELECT * FROM (SELECT * FROM ", table);
    Extend(w, "SELECT", " WHERE ", key);
    Extend(w + " WHERE " + key, "SELECT", " < ", literal);
    var filtered := w + " WHERE " + key + " < " + literal;
    Extend(filtered, "SELECT", " ORDER BY ", key);
    Extend(filtered + " ORDER BY " + key, "SELECT", " DESC LIMIT ", Decimal(limit));
    var limited := filtered + " ORDER BY " + key + " DESC LIMIT " + Decimal(limit);
    Extend(limited, "SELECT", ") AS page_window ORDER BY ", key);
    var ordered := limited + ") AS page_window ORDER BY " + key;
    Extend(ordered, "SELECT", "", " ASC");
    assert ordered + "" == ordered;
    Finish("SELECT", KeysetPageSql(target, keyColumn, boundary, Previous, limit).value);
  }

  lemma AscIsSolid()
    ensures SolidToken(" ASC")
  {
    hide Inert;
    CalmIsInert(" ASC");
  }

  lemma DescriptionsRead(target: SqlTarget)
    ensures ReadsOnly(DescribeTableSql(target))
    ensures ReadsOnly(ShowCreateTableSql(target))
    ensures ReadsOnly(ShowIndexSql(target))
  {
    hide SolidToken, Draft, QualifiedTableSql, ReadsOnly;
    var table := QualifiedTableSql(target);
    TableIsSolid(target);
    Start("DESCRIBE", "DESCRIBE ", table);
    Start("SHOW", "SHOW CREATE TABLE ", table);
    Start("SHOW", "SHOW INDEX FROM ", table);
    Finish("DESCRIBE", DescribeTableSql(target));
    Finish("SHOW", ShowCreateTableSql(target));
    Finish("SHOW", ShowIndexSql(target));
  }

  lemma SelectColumnPreviewReads(target: SqlTarget, column: string, limit: nat)
    requires Trim(column) != ""
    ensures ReadsOnly(SelectColumnPreviewSql(target, column, limit).value)
  {
    hide SolidToken, Draft, QualifiedTableSql, QuoteIdentifier, Decimal, ReadsOnly, Trim;
    var table, key := QualifiedTableSql(target), QuoteIdentifier(column);
    TableIsSolid(target);
    IdentifierIsSolid(column);
    NumberIsSolid(limit);
    Start("SELECT", "SELECT ", key);
    Extend("SELECT " + key, "SELECT", " FROM ", table);
    Extend("SELECT " + key + " FROM " + table, "SELECT", " LIMIT ", Decimal(limit));
    Finish("SELECT", SelectColumnPreviewSql(target, column, limit).value);
  }

  lemma CountHeadIsCalm(head: string)
    requires head == "SELECT TABLE_ROWS AS estimated_rows "
    ensures Calm(head) && "SELECT" + " " <= head
  {
  }

  lemma CountSourceIsCalm(from: string)
    requires from == "FROM information_schema.TABLES "
    ensures Calm(from)
  {
  }

  lemma CountTailIsCalm(where: string)
    requires where == "WHERE TABLE_SCHEMA = "
    ensures Calm(where) && Calm(" AND TABLE_NAME = ")
  {
  }

  lemma CountEstimateReads(target: SqlTarget)
    requires target.database.Some?
    ensures ReadsOnly(CountEstimateSql(target).value)
  {
    hide SolidToken, Draft, Calm, QuoteSqlString, ReadsOnly;
    var database, table := QuoteSqlString(target.database.value), QuoteSqlString(target.table);
    var a, b, c := "SELECT TABLE_ROWS AS estimated_rows ", "FROM information_schema.TABLES ", "WHERE TABLE_SCHEMA = ";
    StringIsSolid(target.database.value);
    StringIsSolid(target.table);
    CountHeadIsCalm(a);
    CountSourceIsCalm(b);
    CountTailIsCalm(c);
    CalmConcat(a, b);
    CalmConcat(a + b, c);
    Start("SELECT", a + b + c, database);
    Extend(a + b + c + database, "SELECT", " AND TABLE_NAME = ", table);
    Finish("SELECT", CountEstimateSql(target).value);
  }

  lemma FilteredSortedPreviewReads(target: SqlTarget, column: string, limit: nat)
    requires Trim(column) != ""
    ensures ReadsOnly(FilteredSortedPreviewSql(target, column, limit).value)
  {
    hide SolidToken, Draft, QualifiedTableSql, QuoteIdentifier, Decimal, ReadsOnly, Trim, SEARCH_PATTERN;
    var table, key := QualifiedTableSql(target), QuoteIdentifier(column);
    TableIsSolid(target);
    IdentifierIsSolid(column);
    SearchPatternIsSolid();
    NumberIsSolid(limit);
    var w := "SELECT * FROM " + table;
    Start("SELECT", "SELECT * FROM ", table);
    Extend(w, "SELECT", " WHERE ", key);
    Extend(w + " WHERE " + key, "SELECT", " LIKE ", SEARCH_PATTERN);
    Extend(w + " WHERE " + key + " LIKE " + SEARCH_PATTERN, "SELECT", " ORDER BY ", key);
    Extend(w + " WHERE " + key + " LIKE " + SEARCH_PATTERN + " ORDER BY " + key, "SELECT",
           " ASC LIMIT ", Decimal(limit));
    Finish("SELECT", FilteredSortedPreviewSql(target, column, limit).value);
  }

  lemma {:induction false} NothingDoubled(s: string, q: char)
    requires q !in s
    ensures Doubled(s, q) == s
  {
    if s != "" {
      NothingDoubled(s[1..], q);
      assert [s[0]] + s[1..] == s;
    }
  }

  lemma SearchPatternIsSolid()
    ensures SolidToken(SEARCH_PATTERN)
  {
    hide Inert, Doubled;
    var s := "%search%";
    NothingDoubled(s, '\'');
    StringIsInert(s);
    assert "'" + s + "'" == SEARCH_PATTERN;
  }

  /** What the application asks the generator for. */
  datatype Request =
    | Preview(limit: nat)
    | FirstPage(column: string, limit: nat)
    | Page(column: string, boundary: string, direction: PaginationDirection, limit: nat)
    | OffsetPage(limit: nat, offset: nat)
    | Describe
    | ShowCreate
    | ShowIndex
    | ColumnPreview(column: string, limit: nat)
    | CountEstimate
    | FilteredSorted(column: string, limit: nat)

  function Generate(target: SqlTarget, r: Request): Result<string> {
    match r
    case Preview(limit) => Ok(PreviewSelectSql(target, limit))
    case FirstPage(column, limit) => KeysetFirstPageSql(target, column, limit)
    case Page(column, boundary, direction, limit) => KeysetPageSql(target, column, boundary, direction, limit)
    case OffsetPage(limit, offset) => Ok(OffsetPageSql(target, limit, offset))
    case Describe => Ok(DescribeTableSql(target))
    case ShowCreate => Ok(ShowCreateTableSql(target))
    case ShowIndex => Ok(ShowIndexSql(target))
    case ColumnPreview(column, limit) => SelectColumnPreviewSql(target, column, limit)
    case CountEstimate => CountEstimateSql(target)
    case FilteredSorted(column, limit) => FilteredSortedPreviewSql(target, column, limit)
  }

  /** For every database, table and column name, every boundary value and every limit, the generated
      text is lexed as exactly one statement, is its own normal form and needs no confirmation. */
  lemma GeneratedSqlReadsOnly(target: SqlTarget, r: Request)
    requires Generate(target, r).Ok?
    ensures ReadsOnly(Generate(target, r).value)
  {
    hide ReadsOnly;
    match r
    case Preview(limit) => PreviewSelectReads(target, limit);
    case FirstPage(column, limit) => KeysetFirstPageReads(target, column, limit);
    case Page(column, boundary, direction, limit) =>
      if direction.Next? {
        KeysetNextReads(target, column, boundary, limit);
      } else {
        KeysetPreviousReads(target, column, boundary, limit);
      }
    case OffsetPage(limit, offset) => OffsetPageReads(target, limit, offset);
    case Describe => DescriptionsRead(target);
    case ShowCreate => DescriptionsRead(target);
    case ShowIndex => DescriptionsRead(target);
    case ColumnPreview(column, limit) => SelectColumnPreviewReads(target, column, limit);
    case CountEstimate => CountEstimateReads(target);
    case FilteredSorted(column, limit) => FilteredSortedPreviewReads(target, column, limit);
  }

  /** The guard lets every generated statement through, whatever its state. */
  lemma GuardAllowsGeneratedSql(g: Guard, fingerprint: Fingerprint, target: SqlTarget, r: Request)
    requires Generate(target, r).Ok?
    ensures AskedToken(g, SqlJudge(fingerprint), Generate(target, r).value) == None
    ensures Evaluated(g, SqlJudge(fingerprint), Generate(target, r).value) == g
  {
    hide Generate, Assess, Statements, Normalize, SqlJudge;
    GeneratedSqlReadsOnly(target, r);
    JudgesByAssessment(fingerprint, Generate(target, r).value);
  }
}
