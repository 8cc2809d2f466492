/** Generated SQL text: names and values are quoted so that the statement splitter never leaves them early. */
module SqlGenerator {
  import opened Text
  import opened SqlLexer
  import opened SafeMode
  import opened MySqlStrings

  datatype SqlGenerationError = EmptyDatabaseName | EmptyTableName | EmptyColumnName | MissingDatabaseForEstimate

  datatype Result<+T> = Ok(value: T) | Err(error: SqlGenerationError)

  datatype PaginationDirection = Next | Previous

  datatype SqlTarget = SqlTarget(database: Option<string>, table: string)

  function NewTarget(database: Option<string>, table: string): Result<SqlTarget> {
    if Trim(table) == "" then Err(EmptyTableName)
    else if database.Some? && Trim(database.value) == "" then Err(EmptyDatabaseName)
    else Ok(SqlTarget(database, table))
  }

  // ---------------------------------------------------------------- quoting

  function QuoteIdentifier(identifier: string): string {
    "`" + Doubled(identifier, '`') + "`"
  }

  function QuoteSqlString(value: string): string {
    "'" + Doubled(value, '\'') + "'"
  }

  function StripSign(s: string): string {
    if s != "" && (s[0] == '+' || s[0] == '-') then s[1..] else s
  }

  predicate ParsesAsI128(s: string) {
    var digits := StripSign(s);
    && digits != "" && AllDigits(digits)
    && DecimalValue(digits) < 0x8000_0000_0000_0000_0000_0000_0000_0000 + (if s[0] == '-' then 1 else 0)
  }

  predicate ParsesAsU128(s: string) {
    var digits := if s != "" && s[0] == '+' then s[1..] else s;
    && digits != "" && AllDigits(digits)
    && DecimalValue(digits) <= 0xFFFF_FFFF_FFFF_FFFF_FFFF_FFFF_FFFF_FFFF
  }

  /** The first position holding one of two characters, or the length. */
  function FirstOf(s: string, a: char, b: char): (k: nat)
    ensures k <= |s|
    ensures forall i :: 0 <= i < k ==> s[i] != a && s[i] != b
    ensures k < |s| ==> s[k] == a || s[k] == b
  {
    if s == "" || s[0] == a || s[0] == b then 0 else 1 + FirstOf(s[1..], a, b)
  }

  predicate IsMantissa(s: string) {
    var dot := FirstOf(s, '.', '.');
    && AllDigits(s[..dot])
    && (if dot == |s| then dot > 0 else |s| > 1 && AllDigits(s[dot + 1..]))
  }

  predicate IsExponent(s: string) {
    StripSign(s) != "" && AllDigits(StripSign(s))
  }

  predicate IsNumber(s: string) {
    var e := FirstOf(s, 'e', 'E');
    IsMantissa(s[..e]) && (e < |s| ==> IsExponent(s[e + 1..]))
  }

  /** The names the float parser accepts besides digits. */
  predicate IsNonFiniteName(s: string) {
    var name := AsciiLowercase(StripSign(s));
    name == "inf" || name == "infinity" || name == "nan"
  }

  predicate ParsesAsF64(s: string) {
    IsNonFiniteName(s) || IsNumber(StripSign(s))
  }

  predicate IsNumeric(trimmed: string) {
    ParsesAsI128(trimmed) || ParsesAsU128(trimmed) || ParsesAsF64(trimmed)
  }

  function QuoteSqlLiteral(value: string): string {
    var trimmed := Trim(value);
    if IsNumeric(trimmed) then trimmed
    else QuoteSqlString(trimmed)
  }

  function QualifiedTableSql(target: SqlTarget): string {
    match target.database
    case Some(database) => QuoteIdentifier(database) + "." + QuoteIdentifier(target.table)
    case None => QuoteIdentifier(target.table)
  }

  // ---------------------------------------------------------------- the generators

  function PreviewSelectSql(target: SqlTarget, limit: nat): string {
    "SELECT * FROM " + QualifiedTableSql(target) + " LIMIT " + Decimal(limit)
  }

  function KeysetFirstPageSql(target: SqlTarget, keyColumn: string, limit: nat): Result<string> {
    if Trim(keyColumn) == "" then Err(EmptyColumnName)
    else Ok("SELECT * FROM " + QualifiedTableSql(target)
            + " ORDER BY " + QuoteIdentifier(keyColumn) + " ASC LIMIT " + Decimal(limit))
  }

  function KeysetPageSql(target: SqlTarget, keyColumn: string, boundary: string,
                         direction: PaginationDirection, limit: nat): Result<string>
  {
    if Trim(keyColumn) == "" then Err(EmptyColumnName)
    else
      var table, key, literal := QualifiedTableSql(target), QuoteIdentifier(keyColumn), QuoteSqlLiteral(boundary);
      match direction
      case Next =>
        Ok("SELECT * FROM " + table + " WHERE " + key + " > " + literal
           + " ORDER BY " + key + " ASC LIMIT " + Decimal(limit))
      case Previous =>
        Ok("SELECT * FROM (SELECT * FROM " + table + " WHERE " + key + " < " + literal
           + " ORDER BY " + key + " DESC LIMIT " + Decimal(limit) + ") AS page_window ORDER BY " + key + " ASC")
  }

  function OffsetPageSql(target: SqlTarget, limit: nat, offset: nat): string {
    "SELECT * FROM " + QualifiedTableSql(target) + " LIMIT " + Decimal(limit) + " OFFSET " + Decimal(offset)
  }

  function DescribeTableSql(target: SqlTarget): string {
    "DESCRIBE " + QualifiedTableSql(target)
  }

  function ShowCreateTableSql(target: SqlTarget): string {
    "SHOW CREATE TABLE " + QualifiedTableSql(target)
  }

  function ShowIndexSql(target: SqlTarget): string {
    "SHOW INDEX FROM " + QualifiedTableSql(target)
  }

  function SelectColumnPreviewSql(target: SqlTarget, column: string, limit: nat): Result<string> {
    if Trim(column) == "" then Err(EmptyColumnName)
    else Ok("SELECT " + QuoteIdentifier(column) + " FROM " + QualifiedTableSql(target) + " LIMIT " + Decimal(limit))
  }

  function CountEstimateSql(target: SqlTarget): Result<string> {
    match target.database
    case None => Err(MissingDatabaseForEstimate)
    case Some(database) =>
      Ok("SELECT TABLE_ROWS AS estimated_rows " + "FROM information_schema.TABLES " + "WHERE TABLE_SCHEMA = "
         + QuoteSqlString(database) + " AND TABLE_NAME = " + QuoteSqlString(target.table))
  }

  const SEARCH_PATTERN := "'%search%'"

  function FilteredSortedPreviewSql(target: SqlTarget, column: string, limit: nat): Result<string> {
    if Trim(column) == "" then Err(EmptyColumnName)
    else
      var key := QuoteIdentifier(column);
      Ok("SELECT * FROM " + QualifiedTableSql(target) + " WHERE " + key + " LIKE " + SEARCH_PATTERN + " ORDER BY " + key
         + " ASC LIMIT " + Decimal(limit))
  }

  // ---------------------------------------------------------------- what a quoted token denotes

  /** Reads the rest of a token quoted by q, where only a doubled q stands for itself: its value and the
      text behind it. This is how the server reads a name in backticks; a string has escapes besides. */
  function ReadQuoted(s: string, q: char): Option<(string, string)> {
    if s == "" then None
    else if s[0] != q then
      match ReadQuoted(s[1..], q)
      case None => None
      case Some((value, rest)) => Some(([s[0]] + value, rest))
    else if |s| > 1 && s[1] == q then
      match ReadQuoted(s[2..], q)
      case None => None
      case Some((value, rest)) => Some(([q] + value, rest))
    else Some(("", s[1..]))
  }

  /** Reading a quoted name back gives exactly the original, for every text. */
  lemma {:induction false} QuotingRoundTrip(s: string, q: char, rest: string)
    requires rest != "" ==> rest[0] != q
    ensures ReadQuoted(Doubled(s, q) + [q] + rest, q) == Some((s, rest))
  {
    var text := Doubled(s, q) + [q] + rest;
    if s == "" {
      assert text == [q] + rest && text[1..] == rest;
    } else {
      QuotingRoundTrip(s[1..], q, rest);
      var tail := Doubled(s[1..], q) + [q] + rest;
      if s[0] == q {
        assert text == [q, q] + tail && text[2..] == tail;
      } else {
        assert text == [s[0]] + tail && text[1..] == tail;
      }
      assert [s[0]] + s[1..] == s;
    }
  }

  function Power(base: nat, n: nat): nat {
    if n == 0 then 1 else base * Power(base, n - 1)
  }

  /** Half a step beyond the largest double: from here on, rounding leaves the range. */
  function DoubleLimit(): int {
    (Power(2, 54) - 1) * Power(2, 970)
  }

  /** The value digits * 10^scale is rounded to a double. */
  predicate FitsDouble(digits: nat, scale: int) {
    if scale >= 0 then digits * Power(10, scale) < DoubleLimit() else digits < DoubleLimit() * Power(10, 0 - scale)
  }

  function ExponentValue(s: string): int
    requires IsExponent(s)
  {
    var value := DecimalValue(StripSign(s));
    if s[0] == '-' then 0 - value else value
  }

  /** A number with an exponent is a double for the server, which rejects it beyond the range of doubles. */
  predicate OverflowsDouble(s: string) {
    var text := StripSign(s);
    && IsNumber(text)
    && var e := FirstOf(text, 'e', 'E');
       && e < |text|
       && var mantissa := text[..e];
          var dot := FirstOf(mantissa, '.', '.');
          var fraction := if dot < |mantissa| then mantissa[dot + 1..] else "";
          !FitsDouble(DecimalValue(mantissa[..dot] + fraction), ExponentValue(text[e + 1..]) - |fraction|)
  }

  /** A number that the server accepts, with an optional sign. */
  predicate IsSqlNumber(s: string) {
    IsNumber(StripSign(s)) && !OverflowsDouble(s)
  }

  /** A text that the server reads as a constant: one string literal or one number. */
  predicate IsSqlConstant(text: string) {
    || (text != "" && text[0] == '\'' && ReadString(text[1..]).Some? && ReadString(text[1..]).value.1 == "")
    || IsSqlNumber(text)
  }

  /** The characters that numbers and the non-finite names are made of. */
  predicate IsFloatChar(c: char) {
    '0' <= c <= '9' || 'a' <= c <= 'z' || 'A' <= c <= 'Z' || c in ".+-"
  }

  predicate FloatChars(s: string) {
    forall i :: 0 <= i < |s| ==> IsFloatChar(s[i])
  }

  lemma SignedFloatChars(s: string)
    requires FloatChars(StripSign(s))
    ensures FloatChars(s)
  {
    forall i | 0 <= i < |s|
      ensures IsFloatChar(s[i])
    {
      if StripSign(s) != s && i > 0 {
        assert s[i] == StripSign(s)[i - 1];
      }
    }
  }

  lemma MantissaChars(s: string)
    requires IsMantissa(s)
    ensures FloatChars(s)
  {
    var dot := FirstOf(s, '.', '.');
    forall i | 0 <= i < |s|
      ensures IsFloatChar(s[i])
    {
      if i < dot {
        assert s[..dot][i] == s[i];
      } else if i > dot {
        assert s[dot + 1..][i - dot - 1] == s[i];
      }
    }
  }

  lemma NumberChars(s: string)
    requires IsNumber(s)
    ensures FloatChars(s)
  {
    hide IsMantissa, StripSign;
    var e := FirstOf(s, 'e', 'E');
    MantissaChars(s[..e]);
    if e < |s| {
      assert FloatChars(StripSign(s[e + 1..]));
      SignedFloatChars(s[e + 1..]);
    }
    forall i | 0 <= i < |s|
      ensures IsFloatChar(s[i])
    {
      if i < e {
        assert s[..e][i] == s[i];
      } else if i > e {
        assert s[e + 1..][i - e - 1] == s[i];
      }
    }
  }

  lemma NonFiniteChars(s: string)
    requires IsNonFiniteName(s)
    ensures FloatChars(s)
  {
    var name := StripSign(s);
    var lower := AsciiLowercase(name);
    forall i | 0 <= i < |name|
      ensures IsFloatChar(name[i])
    {
      assert AsciiLower(name[i]) == lower[i];
      assert 'a' <= lower[i] <= 'z';
    }
    SignedFloatChars(s);
  }

  /** What parses as a number is not blank and holds no space, backslash or quote. */
  lemma FloatIsPlain(s: string)
    requires ParsesAsF64(s)
    ensures s != "" && ' ' !in s && '\\' !in s && '\'' !in s
  {
    hide IsNumber, StripSign;
    if IsNonFiniteName(s) {
      NonFiniteChars(s);
      NonFiniteIsNotBlank(s);
    } else {
      NumberChars(StripSign(s));
      SignedFloatChars(s);
      NumberStartsWithDigit(StripSign(s));
      BlankHasNoSign();
    }
    hide FloatChars;
    FloatCharsArePlain(s);
  }

  lemma NonFiniteIsNotBlank(s: string)
    requires IsNonFiniteName(s)
    ensures s != ""
  {
    assert s == "" ==> AsciiLowercase(StripSign(s)) == "";
  }

  lemma BlankHasNoSign()
    ensures StripSign("") == ""
  {
  }

  lemma FloatCharsArePlain(s: string)
    requires FloatChars(s)
    ensures ' ' !in s && '\\' !in s && '\'' !in s
  {
  }

  lemma NumberStartsWithDigit(s: string)
    requires IsNumber(s)
    ensures s != "" && (s[0] == '.' || '0' <= s[0] <= '9')
  {
    var e := FirstOf(s, 'e', 'E');
    var dot := FirstOf(s[..e], '.', '.');
    if dot > 0 {
      assert s[..e][..dot][0] == s[0];
    }
  }

  lemma DigitsAreNumber(s: string)
    requires s != "" && AllDigits(s)
    ensures IsNumber(s)
  {
    assert FirstOf(s, 'e', 'E') == FirstOf(s, '.', '.') == |s|;
    assert s[..|s|] == s;
  }

  lemma IntegersParseAsFloats(s: string)
    requires ParsesAsI128(s) || ParsesAsU128(s)
    ensures ParsesAsF64(s)
  {
    if ParsesAsI128(s) {
      DigitsAreNumber(StripSign(s));
    } else if s[0] == '+' {
      DigitsAreNumber(s[1..]);
    } else {
      assert StripSign(s) == s;
      DigitsAreNumber(s);
    }
  }

  lemma NumericIsFloat(t: string)
    ensures IsNumeric(t) <==> ParsesAsF64(t)
  {
    hide ParsesAsI128, ParsesAsU128, ParsesAsF64;
    if ParsesAsI128(t) || ParsesAsU128(t) {
      IntegersParseAsFloats(t);
    }
  }

  lemma NonFiniteIsNoConstant(t: string)
    requires IsNonFiniteName(t)
    ensures !IsSqlConstant(t)
  {
    hide IsNumber, ReadString, OverflowsDouble;
    NonFiniteChars(t);
    FloatCharsArePlain(t);
    var name := StripSign(t);
    assert name != "" && AsciiLower(name[0]) == AsciiLowercase(name)[0];
    assert AsciiLowercase(name)[0] == 'i' || AsciiLowercase(name)[0] == 'n';
    if IsNumber(name) {
      NumberStartsWithDigit(name);
      assert false;
    }
  }

  lemma QuotedIsConstantIff(t: string)
    ensures IsSqlConstant(QuoteSqlString(t)) <==> EscapesClose(t)
  {
    hide IsNumber, ReadString, EscapesClose, Doubled, OverflowsDouble;
    var text := QuoteSqlString(t);
    assert text[0] == '\'' && text[1..] == Doubled(t, '\'') + "'";
    ClosesIff(t);
    if IsNumber(StripSign(text)) {
      NumberStartsWithDigit(StripSign(text));
      assert false;
    }
  }

  lemma NumberIsConstantIff(t: string)
    requires IsNumber(StripSign(t)) && '\'' !in t
    ensures IsSqlConstant(t) <==> !OverflowsDouble(t)
  {
    hide IsNumber, ReadString, OverflowsDouble;
  }

  lemma OverflowParses(t: string)
    requires OverflowsDouble(t)
    ensures IsNumber(StripSign(t)) && ParsesAsF64(t)
  {
    hide FitsDouble, DoubleLimit;
  }

  /** A boundary value becomes an SQL constant exactly when, trimmed, it is not one of the non-finite float
      names, which are emitted as bare words, nor a number too large for a double, which is emitted bare too,
      and no backslash in it takes a quote or the end of the text, which would leave the string open or close
      it early. */
  lemma LiteralIsConstantIff(value: string)
    ensures IsSqlConstant(QuoteSqlLiteral(value)) <==>
              !IsNonFiniteName(Trim(value)) && !OverflowsDouble(Trim(value)) && EscapesClose(Trim(value))
  {
    hide IsSqlConstant, IsNumber, Trim, QuoteSqlString, EscapesClose, ParsesAsI128, ParsesAsU128, OverflowsDouble;
    var t := Trim(value);
    NumericIsFloat(t);
    if OverflowsDouble(t) {
      OverflowParses(t);
    }
    if IsNonFiniteName(t) {
      NonFiniteIsNoConstant(t);
    } else if ParsesAsF64(t) {
      FloatIsPlain(t);
      PlainIsKept(t);
      NumberIsConstantIff(t);
    } else {
      QuotedIsConstantIff(t);
    }
  }

  /** The server compares with the trimmed value itself exactly when this is a number that it accepts, or is
      quoted and each of its backslashes is followed by a percent sign or an underscore. */
  predicate BoundaryKept(value: string) {
    IsSqlNumber(Trim(value)) || (!IsNumeric(Trim(value)) && BackslashesKept(Trim(value)))
  }

  lemma SqlNumberIsNumeric(t: string)
    requires IsSqlNumber(t)
    ensures IsNumeric(t)
  {
    hide IsNumber, OverflowsDouble;
  }

  lemma StringReadsBackIff(value: string, rest: string)
    requires !IsNumeric(Trim(value)) && (rest == "" || rest[0] != '\'')
    ensures var text := QuoteSqlLiteral(value) + rest;
            && text != "" && text[0] == '\''
            && (ReadString(text[1..]) == Some((Trim(value), rest)) <==> BoundaryKept(value))
            && (!BoundaryKept(value) ==>
                  ReadString(text[1..]).Some? ==> ReadString(text[1..]).value.0 != Trim(value))
  {
    hide Trim, IsNumeric, IsSqlNumber, Doubled, ReadString, BackslashesKept;
    if IsSqlNumber(Trim(value)) {
      SqlNumberIsNumeric(Trim(value));
    }
    var text := QuoteSqlLiteral(value) + rest;
    assert text[1..] == Written(Trim(value)) + "'" + rest;
    ReadsBackIff(Trim(value), rest);
  }

  lemma BareWordExample()
    ensures QuoteSqlLiteral("NaN") == "NaN" && !IsSqlConstant("NaN")
  {
    var v := "NaN";
    TrimOfTrimmed(v);
    assert AsciiLowercase(v) == "nan";
    assert IsNonFiniteName(v);
    NonFiniteIsNoConstant(v);
  }

  lemma {:induction false} TwoPowers(m: nat, n: nat)
    ensures Power(2, m + n) == Power(2, m) * Power(2, n) && Power(2, m) >= 1
  {
    if m > 0 {
      TwoPowers(m - 1, n);
      Twice(Power(2, m - 1), Power(2, n));
      assert Power(2, m + n) == 2 * Power(2, m - 1 + n);
    }
  }

  lemma Twice(a: nat, b: nat)
    ensures 2 * (a * b) == (2 * a) * b
  {
  }

  lemma {:induction false} TenPowers(n: nat)
    ensures Power(10, n) >= Power(2, 3 * n)
  {
    if n > 0 {
      TenPowers(n - 1);
      assert Power(2, 3 * n) == 2 * Power(2, 3 * n - 1) == 4 * Power(2, 3 * n - 2) == 8 * Power(2, 3 * (n - 1));
    }
  }

  lemma TwoPowersGrow(m: nat, n: nat)
    requires m <= n
    ensures Power(2, m) <= Power(2, n)
  {
    hide Power;
    TwoPowers(m, n - m);
    TwoPowers(n - m, 0);
    AtLeastItself(Power(2, m), Power(2, n - m));
  }

  lemma AtLeastItself(a: nat, b: nat)
    requires b >= 1
    ensures a <= a * b
  {
  }

  lemma LimitIsBelow()
    ensures DoubleLimit() < Power(2, 1024)
  {
    hide Power;
    TwoPowers(54, 970);
    TwoPowers(970, 54);
    OneLess(Power(2, 54), Power(2, 970));
  }

  lemma OneLess(a: nat, b: nat)
    ensures (a - 1) * b == a * b - b
  {
  }

  lemma TooLarge(scale: nat)
    requires scale >= 342
    ensures !FitsDouble(1, scale)
  {
    hide Power;
    TenPowers(scale);
    TwoPowersGrow(1024, 3 * scale);
    LimitIsBelow();
    assert 1 * Power(10, scale) == Power(10, scale);
  }

  lemma HundredsValue()
    ensures AllDigits("400") && DecimalValue("400") == 400 && DecimalValue("1") == 1
  {
    assert "400"[..2] == "40" && "40"[..1] == "4" && "4"[..0] == "" && "1"[..0] == "";
    assert DecimalValue("4") == 4 && DecimalValue("40") == 40;
  }

  lemma HugeNumber()
    ensures OverflowsDouble("1e400")
  {
    hide FitsDouble, DecimalValue;
    var text := "1e400";
    HundredsValue();
    TooLarge(400);
    assert FirstOf(text, 'e', 'E') == 1 && text[..1] == "1" && text[2..] == "400";
    assert FirstOf("1", '.', '.') == 1 && "1"[..1] + "" == "1";
  }

  /** A number beyond the range of doubles parses as infinity and is emitted as it stands. */
  lemma HugeNumberExample()
    ensures QuoteSqlLiteral("1e400") == "1e400" && !IsSqlConstant("1e400")
  {
    hide OverflowsDouble, IsNumber, ParsesAsI128, ParsesAsU128;
    TrimOfTrimmed("1e400");
    HugeNumber();
    OverflowParses("1e400");
  }

  lemma NotNumeric(t: string)
    requires '\\' in t
    ensures !IsNumeric(t)
  {
    hide ParsesAsI128, ParsesAsU128, ParsesAsF64;
    NumericIsFloat(t);
    if ParsesAsF64(t) {
      FloatIsPlain(t);
    }
  }

  lemma BackslashIsQuoted(v: string)
    requires Trimmed(v) && '\\' in v
    ensures QuoteSqlLiteral(v) == QuoteSqlString(v)
  {
    hide Trim, Trimmed, IsNumeric, QuoteSqlString;
    TrimOfTrimmed(v);
    NotNumeric(v);
  }

  /** A single backslash takes the closing quote: the literal never ends. */
  lemma OpenStringExample()
    ensures QuoteSqlLiteral("\\") == "'\\'" && ReadString("\\'") == None && !IsSqlConstant(QuoteSqlLiteral("\\"))
  {
    hide Doubled, ReadString, QuoteSqlLiteral, IsSqlConstant, IsNumeric, Unescaped;
    BackslashIsQuoted("\\");
    WrittenStep("\\");
    QuotedIsConstantIff("\\");
    ReadsEscape('\'', "");
    NothingToRead();
    assert "\\"[1..] == "" && Written("\\") == "\\";
    assert "'" + "\\" + "'" == "'\\'" && "\\'" == ['\\', '\''] + "";
  }

  /** A backslash before a letter that it does not escape is lost: the server compares with another key. */
  lemma LostBackslashExample()
    ensures QuoteSqlLiteral("\\a") == "'\\a'" && ReadString("\\a'") == Some(("a", ""))
  {
    hide Doubled, ReadString, QuoteSqlLiteral, IsNumeric;
    BackslashIsQuoted("\\a");
    WrittenStep("\\a");
    WrittenStep("a");
    WrittenStep("");
    assert "\\a"[1..] == "a" && "a"[1..] == "" && Written("a") == "a" && Written("\\a") == "\\a";
    assert "'" + "\\a" + "'" == "'\\a'" && Unescaped('a') + "" == "a";
    ReadsEscape('a', "'");
    ReadsClosing("");
    assert "\\a'" == ['\\', 'a'] + "'" && "'" == "'" + "";
  }
}
