/** A reader of page queries: what the generated text means, found from the text alone. */
module SqlReading {
  import opened Text
  import opened MySqlStrings
  import opened SqlGenerator
  import opened GeneratedSql
  import opened PageQueries

  /** A word is anything else that stands bare: a column name, or a number that the server rejects. */
  datatype Literal = Quoted(value: string) | Number(text: string) | Word(text: string)

  datatype Comparison = Greater | Less

  datatype Condition = Condition(column: string, comparison: Comparison, literal: Literal)

  datatype Order = Order(column: string, ascending: bool)

  datatype Window = Window(limit: nat, offset: nat)

  datatype Source = Stored(target: SqlTarget) | Derived(select: Select)

  datatype Select = Select(source: Source, where: Option<Condition>, order: Option<Order>, window: Option<Window>)

  // ---------------------------------------------------------------- the reader

  /** The text behind an expected word. */
  function After(word: string, s: string): Option<string> {
    if word <= s then Some(s[|word|..]) else None
  }

  function ReadName(s: string): (r: Option<(string, string)>)
    ensures r.Some? ==> |r.value.1| < |s|
  {
    if s != "" && s[0] == '`' then
      ReadingShortens(s[1..], '`');
      ReadQuoted(s[1..], '`')
    else None
  }

  lemma {:induction false} ReadingShortens(s: string, q: char)
    ensures ReadQuoted(s, q).Some? ==> |ReadQuoted(s, q).value.1| < |s|
    decreases |s|
  {
    if s != "" {
      if s[0] != q {
        ReadingShortens(s[1..], q);
      } else if |s| > 1 && s[1] == q {
        ReadingShortens(s[2..], q);
      }
    }
  }

  function ReadTarget(s: string): (r: Option<(SqlTarget, string)>)
    ensures r.Some? ==> |r.value.1| < |s|
  {
    match ReadName(s)
    case None => None
    case Some((first, rest)) =>
      if rest != "" && rest[0] == '.' then
        match ReadName(rest[1..])
        case None => None
        case Some((second, rest)) => Some((SqlTarget(Some(first), second), rest))
      else Some((SqlTarget(None, first), rest))
  }

  predicate IsDigit(c: char) {
    '0' <= c <= '9'
  }

  function LeadingDigits(s: string): (n: nat)
    ensures n <= |s| && AllDigits(s[..n])
  {
    if s != "" && IsDigit(s[0]) then 1 + LeadingDigits(s[1..]) else 0
  }

  function ReadNumber(s: string): Option<(nat, string)> {
    var n := LeadingDigits(s);
    if n == 0 then None else Some((DecimalValue(s[..n]), s[n..]))
  }

  function WordLength(s: string): (n: nat)
    ensures n <= |s|
  {
    if s != "" && s[0] != ' ' then 1 + WordLength(s[1..]) else 0
  }

  function ReadLiteral(s: string): Option<(Literal, string)> {
    if s != "" && s[0] == '\'' then
      match ReadString(s[1..])
      case None => None
      case Some((value, rest)) => Some((Quoted(value), rest))
    else
      var n := WordLength(s);
      if n == 0 then None else Some((if IsSqlNumber(s[..n]) then Number(s[..n]) else Word(s[..n]), s[n..]))
  }

  function ReadComparison(column: string, comparison: Comparison, s: string): Option<(Option<Condition>, string)> {
    match ReadLiteral(s)
    case None => None
    case Some((literal, rest)) => Some((Some(Condition(column, comparison, literal)), rest))
  }

  function ReadWhere(s: string): Option<(Option<Condition>, string)> {
    match After(" WHERE ", s)
    case None => Some((None, s))
    case Some(s) =>
      match ReadName(s)
      case None => None
      case Some((column, rest)) =>
        if " > " <= rest then ReadComparison(column, Greater, rest[3..])
        else if " < " <= rest then ReadComparison(column, Less, rest[3..])
        else None
  }

  function ReadOrder(s: string): Option<(Option<Order>, string)> {
    match After(" ORDER BY ", s)
    case None => Some((None, s))
    case Some(s) =>
      match ReadName(s)
      case None => None
      case Some((column, rest)) =>
        if " ASC" <= rest then Some((Some(Order(column, true)), rest[4..]))
        else if " DESC" <= rest then Some((Some(Order(column, false)), rest[5..]))
        else None
  }

  function ReadWindow(s: string): Option<(Option<Window>, string)> {
    match After(" LIMIT ", s)
    case None => Some((None, s))
    case Some(s) =>
      match ReadNumber(s)
      case None => None
      case Some((limit, rest)) =>
        match After(" OFFSET ", rest)
        case None => Some((Some(Window(limit, 0)), rest))
        case Some(s) =>
          match ReadNumber(s)
          case None => None
          case Some((offset, rest)) => Some((Some(Window(limit, offset)), rest))
  }

  function ReadClauses(source: Source, s: string): Option<(Select, string)> {
    match ReadWhere(s)
    case None => None
    case Some((where, s)) =>
      match ReadOrder(s)
      case None => None
      case Some((order, s)) =>
        match ReadWindow(s)
        case None => None
        case Some((window, s)) => Some((Select(source, where, order, window), s))
  }

  /** One level of derived table is as deep as page queries go. */
  function ReadPlain(s: string): Option<(Select, string)> {
    match After("SELECT * FROM ", s)
    case None => None
    case Some(s) =>
      match ReadTarget(s)
      case None => None
      case Some((target, rest)) => ReadClauses(Stored(target), rest)
  }

  function ReadDerived(s: string): Option<(Select, string)> {
    match After("SELECT * FROM (", s)
    case None => None
    case Some(s) =>
      match ReadPlain(s)
      case None => None
      case Some((inner, rest)) =>
        match After(") AS page_window", rest)
        case None => None
        case Some(rest) => ReadClauses(Derived(inner), rest)
  }

  /** The select statement that the whole text spells. */
  function ReadSelect(s: string): Option<Select> {
    match (if "SELECT * FROM (" <= s then ReadDerived(s) else ReadPlain(s))
    case Some((select, "")) => Some(select)
    case _ => None
  }

  // ---------------------------------------------------------------- the meaning of a select

  predicate IsIntegerText(text: string) {
    var digits := if text != "" && text[0] == '-' then text[1..] else text;
    digits != "" && AllDigits(digits)
  }

  function Filtered(rows: seq<Row>, where: Option<Condition>, key: string, ki: nat): Option<seq<Row>> {
    match where
    case None => Some(rows)
    case Some(Condition(column, comparison, literal)) =>
      if column != key || !literal.Number? || !IsIntegerText(literal.text) then None
      else Some(WhereKey(rows, ki, if comparison.Greater? then Next else Previous, IntOf(literal.text)))
  }

  function Ordered(rows: seq<Row>, order: Option<Order>, key: string, ki: nat): Option<seq<Row>> {
    match order
    case None => Some(rows)
    case Some(Order(column, ascending)) =>
      if column != key then None else Some(if ascending then OrderAsc(rows, ki) else OrderDesc(rows, ki))
  }

  function Windowed(rows: seq<Row>, window: Option<Window>): seq<Row> {
    if window.None? then rows else Limit(Offset(rows, window.value.offset), window.value.limit)
  }

  /** The rows of a select over one stored table with an integer key; None when the text speaks of
      another table or column, or compares the key with something that is not an integer. */
  function Rows(q: Select, target: SqlTarget, key: string, table: seq<Row>, ki: nat): Option<seq<Row>> {
    var source := match q.source
      case Stored(t) => if t == target then Some(table) else None
      case Derived(inner) => Rows(inner, target, key, table, ki);
    if source.None? then None
    else
      var filtered := Filtered(source.value, q.where, key, ki);
      if filtered.None? then None
      else
        var ordered := Ordered(filtered.value, q.order, key, ki);
        if ordered.None? then None else Some(Windowed(ordered.value, q.window))
  }

  // ---------------------------------------------------------------- reading what the generator wrote

  lemma WordRead(word: string, rest: string)
    ensures After(word, word + rest) == Some(rest)
  {
  }

  lemma NotAPrefix(word: string, s: string, k: nat)
    requires k < |word| && (k < |s| ==> s[k] != word[k])
    ensures !(word <= s)
  {
  }

  lemma NameRead(identifier: string, rest: string)
    requires rest == "" || rest[0] != '`'
    ensures ReadName(QuoteIdentifier(identifier) + rest) == Some((identifier, rest))
  {
    hide ReadQuoted, Doubled;
    var text := QuoteIdentifier(identifier) + rest;
    assert text[1..] == Doubled(identifier, '`') + ['`'] + rest;
    QuotingRoundTrip(identifier, '`', rest);
  }

  lemma TargetRead(target: SqlTarget, rest: string)
    requires rest == "" || (rest[0] != '`' && rest[0] != '.')
    ensures ReadTarget(QualifiedTableSql(target) + rest) == Some((target, rest))
  {
    hide ReadName, QuoteIdentifier;
    match target.database
    case None => NameRead(target.table, rest);
    case Some(database) =>
      var behind := "." + (QuoteIdentifier(target.table) + rest);
      assert QualifiedTableSql(target) + rest == QuoteIdentifier(database) + behind;
      NameRead(database, behind);
      assert behind[1..] == QuoteIdentifier(target.table) + rest;
      NameRead(target.table, rest);
  }

  lemma {:induction false} DigitsRead(digits: string, rest: string)
    requires AllDigits(digits) && (rest == "" || !IsDigit(rest[0]))
    ensures LeadingDigits(digits + rest) == |digits|
  {
    if digits == "" {
      assert digits + rest == rest;
    } else {
      assert (digits + rest)[1..] == digits[1..] + rest;
      DigitsRead(digits[1..], rest);
    }
  }

  lemma NumberRead(n: nat, rest: string)
    requires rest == "" || !IsDigit(rest[0])
    ensures ReadNumber(Decimal(n) + rest) == Some((n, rest))
  {
    hide Decimal, DecimalValue, LeadingDigits;
    DigitsRead(Decimal(n), rest);
    DecimalRoundTrip(n);
    assert (Decimal(n) + rest)[..|Decimal(n)|] == Decimal(n);
  }

  lemma {:induction false} BareRead(word: string, rest: string)
    requires ' ' !in word && (rest == "" || rest[0] == ' ')
    ensures WordLength(word + rest) == |word|
  {
    if word == "" {
      assert word + rest == rest;
    } else {
      assert (word + rest)[1..] == word[1..] + rest;
      assert word[0] in word;
      BareRead(word[1..], rest);
    }
  }

  /** The value that a boundary stands for: a number if the server takes its text for one, else the text. */
  function BoundaryValue(boundary: string): Literal {
    var t := Trim(boundary);
    if IsSqlNumber(t) then Number(t) else Quoted(t)
  }

  /** The boundary can be read, though not always as its value. */
  predicate BoundaryReads(boundary: string) {
    IsNumeric(Trim(boundary)) || BackslashesKept(Trim(boundary))
  }

  /** What such a boundary is read as. */
  function SpelledLiteral(boundary: string): Literal {
    var t := Trim(boundary);
    if !IsNumeric(t) then Quoted(t) else if IsSqlNumber(t) then Number(t) else Word(t)
  }

  lemma SpelledIsValueIff(boundary: string)
    ensures BoundaryKept(boundary) <==> BoundaryReads(boundary) && SpelledLiteral(boundary) == BoundaryValue(boundary)
    ensures BoundaryReads(boundary) && !BoundaryKept(boundary) ==> SpelledLiteral(boundary).Word?
  {
    hide IsNumeric, IsSqlNumber, Trim, BackslashesKept;
    if IsSqlNumber(Trim(boundary)) {
      SqlNumberIsNumeric(Trim(boundary));
    }
  }

  /** A boundary that can be read is read as what it spells; else its value is not read. */
  lemma LiteralRead(boundary: string, rest: string)
    requires rest == "" || rest[0] == ' '
    ensures var read := ReadLiteral(QuoteSqlLiteral(boundary) + rest);
            && (BoundaryReads(boundary) ==> read == Some((SpelledLiteral(boundary), rest)))
            && (!BoundaryReads(boundary) ==> read.Some? ==> read.value.0 != BoundaryValue(boundary))
  {
    hide IsNumeric, IsSqlNumber, Trim, ReadString, WordLength, BackslashesKept, QuoteSqlString;
    var t := Trim(boundary);
    if IsNumeric(t) {
      NumericIsFloat(t);
      FloatIsPlain(t);
      BareRead(t, rest);
      assert (t + rest)[..|t|] == t && t[0] in t;
    } else {
      hide QuoteSqlLiteral;
      if IsSqlNumber(t) {
        SqlNumberIsNumeric(t);
      }
      var text := QuoteSqlLiteral(boundary) + rest;
      StringReadsBackIff(boundary, rest);
      assert text != "" && text[0] == '\'';
      assert ReadLiteral(text) == match ReadString(text[1..])
                                  case None => None
                                  case Some((value, behind)) => Some((Quoted(value), behind));
    }
  }

  /** The boundary's value is read exactly when it is kept. */
  lemma LiteralReadIff(boundary: string, rest: string)
    requires rest == "" || rest[0] == ' '
    ensures var read := ReadLiteral(QuoteSqlLiteral(boundary) + rest);
            && (BoundaryKept(boundary) ==> read == Some((BoundaryValue(boundary), rest)))
            && (!BoundaryKept(boundary) ==> read.Some? ==> read.value.0 != BoundaryValue(boundary))
  {
    hide ReadLiteral, QuoteSqlLiteral, BoundaryKept, BoundaryReads, SpelledLiteral, BoundaryValue;
    LiteralRead(boundary, rest);
    SpelledIsValueIff(boundary);
  }

  lemma WhereRead(column: string, comparison: Comparison, boundary: string, rest: string)
    ensures ReadWhere(" WHERE " + QuoteIdentifier(column) + (if comparison.Greater? then " > " else " < ")
                      + QuoteSqlLiteral(boundary) + rest) ==
            ReadComparison(column, comparison, QuoteSqlLiteral(boundary) + rest)
  {
    hide ReadName, QuoteIdentifier, QuoteSqlLiteral, ReadLiteral;
    var literal := QuoteSqlLiteral(boundary) + rest;
    var sign := if comparison.Greater? then " > " else " < ";
    var behind := sign + literal;
    WordRead(" WHERE ", QuoteIdentifier(column) + behind);
    assert " WHERE " + QuoteIdentifier(column) + sign + QuoteSqlLiteral(boundary) + rest ==
           " WHERE " + (QuoteIdentifier(column) + behind);
    NameRead(column, behind);
    assert behind[3..] == literal;
    if comparison.Less? {
      NotAPrefix(" > ", behind, 1);
    }
  }

  lemma NoWhere(s: string)
    requires |s| < 2 || s[1] != 'W'
    ensures ReadWhere(s) == Some((None, s))
  {
    NotAPrefix(" WHERE ", s, 1);
  }

  lemma OrderRead(column: string, ascending: bool, rest: string)
    ensures ReadOrder(" ORDER BY " + QuoteIdentifier(column) + (if ascending then " ASC" else " DESC") + rest) ==
            Some((Some(Order(column, ascending)), rest))
  {
    hide ReadName, QuoteIdentifier;
    var behind := (if ascending then " ASC" else " DESC") + rest;
    WordRead(" ORDER BY ", QuoteIdentifier(column) + behind);
    assert " ORDER BY " + QuoteIdentifier(column) + (if ascending then " ASC" else " DESC") + rest
        == " ORDER BY " + (QuoteIdentifier(column) + behind);
    NameRead(column, behind);
    if ascending {
      assert behind[4..] == rest;
    } else {
      assert behind[5..] == rest;
      NotAPrefix(" ASC", behind, 1);
    }
  }

  lemma NoOrder(s: string)
    requires |s| < 2 || s[1] != 'O'
    ensures ReadOrder(s) == Some((None, s))
  {
    NotAPrefix(" ORDER BY ", s, 1);
  }

  lemma WindowRead(limit: nat, rest: string)
    requires rest == "" || rest[0] == ')'
    ensures ReadWindow(" LIMIT " + Decimal(limit) + rest) == Some((Some(Window(limit, 0)), rest))
  {
    hide Decimal, ReadNumber;
    WordRead(" LIMIT ", Decimal(limit) + rest);
    assert " LIMIT " + Decimal(limit) + rest == " LIMIT " + (Decimal(limit) + rest);
    NumberRead(limit, rest);
  }

  lemma OffsetRead(limit: nat, offset: nat)
    ensures ReadWindow(" LIMIT " + Decimal(limit) + " OFFSET " + Decimal(offset)) ==
            Some((Some(Window(limit, offset)), ""))
  {
    hide Decimal, ReadNumber;
    var behind := " OFFSET " + Decimal(offset);
    WordRead(" LIMIT ", Decimal(limit) + behind);
    assert " LIMIT " + Decimal(limit) + " OFFSET " + Decimal(offset) == " LIMIT " + (Decimal(limit) + behind);
    NumberRead(limit, behind);
    WordRead(" OFFSET ", Decimal(offset));
    assert Decimal(offset) + "" == Decimal(offset);
    NumberRead(offset, "");
  }

  lemma NoWindow(s: string)
    requires s == ""
    ensures ReadWindow(s) == Some((None, s))
  {
  }

  // ---------------------------------------------------------------- whole statements

  lemma PlainRead(target: SqlTarget, clauses: string)
    requires clauses != "" && clauses[0] == ' '
    ensures ReadPlain("SELECT * FROM " + QualifiedTableSql(target) + clauses) == ReadClauses(Stored(target), clauses)
    ensures !("SELECT * FROM (" <= "SELECT * FROM " + QualifiedTableSql(target) + clauses)
  {
    hide ReadTarget, ReadClauses, QualifiedTableSql;
    var behind := QualifiedTableSql(target) + clauses;
    var text := "SELECT * FROM " + QualifiedTableSql(target) + clauses;
    assert text == "SELECT * FROM " + behind;
    WordRead("SELECT * FROM ", behind);
    TargetRead(target, clauses);
    TargetStart(target);
    NotAPrefix("SELECT * FROM (", text, 14);
  }

  lemma TargetStart(target: SqlTarget)
    ensures QualifiedTableSql(target) != "" && QualifiedTableSql(target)[0] == '`'
  {
    hide Doubled;
  }

  /** The clauses of a keyset page, with what follows them. */
  function KeyedClauses(column: string, comparison: Comparison, boundary: string, ascending: bool, limit: nat,
                        rest: string): string
  {
    " WHERE " + QuoteIdentifier(column) + (if comparison.Greater? then " > " else " < ") + QuoteSqlLiteral(boundary)
    + (" ORDER BY " + QuoteIdentifier(column) + (if ascending then " ASC" else " DESC")
       + (" LIMIT " + Decimal(limit) + rest))
  }

  lemma KeyedClausesRead(source: Source, column: string, comparison: Comparison, boundary: string, ascending: bool,
                         limit: nat, rest: string)
    requires BoundaryReads(boundary) && (rest == "" || rest[0] == ')')
    ensures ReadClauses(source, KeyedClauses(column, comparison, boundary, ascending, limit, rest)) ==
            Some((Select(source, Some(Condition(column, comparison, SpelledLiteral(boundary))),
                         Some(Order(column, ascending)), Some(Window(limit, 0))), rest))
  {
    hide ReadWhere, ReadOrder, ReadWindow, ReadLiteral, QuoteIdentifier, QuoteSqlLiteral, Decimal, SpelledLiteral,
      BoundaryReads, BoundaryValue;
    var windowed := " LIMIT " + Decimal(limit) + rest;
    var ordered := " ORDER BY " + QuoteIdentifier(column) + (if ascending then " ASC" else " DESC") + windowed;
    WhereRead(column, comparison, boundary, ordered);
    LiteralRead(boundary, ordered);
    OrderRead(column, ascending, windowed);
    WindowRead(limit, rest);
  }

  /** With a boundary that is not kept, whatever is read is another condition. */
  lemma KeyedClausesMisread(source: Source, column: string, comparison: Comparison, boundary: string, ascending: bool,
                            limit: nat, rest: string)
    requires !BoundaryKept(boundary)
    ensures var read := ReadClauses(source, KeyedClauses(column, comparison, boundary, ascending, limit, rest));
            read.Some? ==>
              && read.value.0.source == source
              && read.value.0.where != Some(Condition(column, comparison, BoundaryValue(boundary)))
  {
    hide ReadWhere, ReadOrder, ReadWindow, ReadLiteral, QuoteIdentifier, QuoteSqlLiteral, Decimal, BoundaryValue,
      BoundaryKept;
    var windowed := " LIMIT " + Decimal(limit) + rest;
    var ordered := " ORDER BY " + QuoteIdentifier(column) + (if ascending then " ASC" else " DESC") + windowed;
    WhereRead(column, comparison, boundary, ordered);
    LiteralReadIff(boundary, ordered);
  }

  /** What a page request means. */
  function Meaning(target: SqlTarget, r: Request): Option<Select> {
    match r
    case FirstPage(column, limit) =>
      Some(Select(Stored(target), None, Some(Order(column, true)), Some(Window(limit, 0))))
    case Page(column, boundary, Next, limit) =>
      Some(Select(Stored(target), Some(Condition(column, Greater, BoundaryValue(boundary))), Some(Order(column, true)),
                  Some(Window(limit, 0))))
    case Page(column, boundary, Previous, limit) =>
      Some(Select(Derived(Select(Stored(target), Some(Condition(column, Less, BoundaryValue(boundary))),
                                 Some(Order(column, false)), Some(Window(limit, 0)))),
                  None, Some(Order(column, true)), None))
    case OffsetPage(limit, offset) => Some(Select(Stored(target), None, None, Some(Window(limit, offset))))
    case Preview(limit) => Some(Select(Stored(target), None, None, Some(Window(limit, 0))))
    case _ => None
  }

  lemma FirstPageRead(target: SqlTarget, column: string, limit: nat)
    requires KeysetFirstPageSql(target, column, limit).Ok?
    ensures ReadSelect(KeysetFirstPageSql(target, column, limit).value) == Meaning(target, FirstPage(column, limit))
  {
    hide ReadWhere, ReadOrder, ReadWindow, ReadPlain, ReadDerived, QuoteIdentifier, QualifiedTableSql, Decimal, Trim;
    var windowed := " LIMIT " + Decimal(limit) + "";
    var ordered := " ORDER BY " + QuoteIdentifier(column) + " ASC" + windowed;
    assert KeysetFirstPageSql(target, column, limit).value == "SELECT * FROM " + QualifiedTableSql(target) + ordered;
    PlainRead(target, ordered);
    NoWhere(ordered);
    OrderRead(column, true, windowed);
    WindowRead(limit, "");
  }

  lemma NextPageText(target: SqlTarget, column: string, boundary: string, limit: nat)
    requires KeysetPageSql(target, column, boundary, Next, limit).Ok?
    ensures KeysetPageSql(target, column, boundary, Next, limit).value ==
            "SELECT * FROM " + QualifiedTableSql(target) + KeyedClauses(column, Greater, boundary, true, limit, "")
  {
    hide QuoteIdentifier, QuoteSqlLiteral, QualifiedTableSql, Decimal, Trim;
  }

  lemma NextPageReadIff(target: SqlTarget, column: string, boundary: string, limit: nat)
    requires KeysetPageSql(target, column, boundary, Next, limit).Ok?
    ensures (ReadSelect(KeysetPageSql(target, column, boundary, Next, limit).value)
             == Meaning(target, Page(column, boundary, Next, limit)))
            <==> BoundaryKept(boundary)
  {
    hide ReadClauses, ReadPlain, ReadDerived, KeyedClauses, KeysetPageSql, BoundaryValue, QualifiedTableSql,
      BoundaryKept, BoundaryReads, SpelledLiteral;
    var clauses := KeyedClauses(column, Greater, boundary, true, limit, "");
    NextPageText(target, column, boundary, limit);
    ClausesStart(column, Greater, boundary, true, limit, "");
    PlainRead(target, clauses);
    SpelledIsValueIff(boundary);
    if BoundaryKept(boundary) {
      KeyedClausesRead(Stored(target), column, Greater, boundary, true, limit, "");
    } else {
      KeyedClausesMisread(Stored(target), column, Greater, boundary, true, limit, "");
    }
  }

  lemma ClausesStart(column: string, comparison: Comparison, boundary: string, ascending: bool, limit: nat,
      rest: string)
    ensures var clauses := KeyedClauses(column, comparison, boundary, ascending, limit, rest);
            clauses != "" && clauses[0] == ' '
  {
    hide QuoteIdentifier, QuoteSqlLiteral, Decimal;
  }

  function OuterClauses(column: string): string {
    " ORDER BY " + QuoteIdentifier(column) + " ASC" + ""
  }

  lemma PreviousPageText(target: SqlTarget, column: string, boundary: string, limit: nat)
    requires KeysetPageSql(target, column, boundary, Previous, limit).Ok?
    ensures KeysetPageSql(target, column, boundary, Previous, limit).value ==
            "SELECT * FROM (" + ("SELECT * FROM " + QualifiedTableSql(target)
                                 + KeyedClauses(column, Less, boundary, false, limit,
                                                ") AS page_window" + OuterClauses(column)))
  {
    hide QuoteIdentifier, QuoteSqlLiteral, QualifiedTableSql, Decimal, Trim;
    var table, key, literal, number :=
      QualifiedTableSql(target), QuoteIdentifier(column), QuoteSqlLiteral(boundary), Decimal(limit);
    var head := "SELECT * FROM (SELECT * FROM " + table;
    Glued(head, " WHERE ", key, " < ", literal);
    Glued(head + (" WHERE " + key + " < " + literal), " ORDER BY ", key, " DESC LIMIT ", number);
    Glued(head + (" WHERE " + key + " < " + literal) + (" ORDER BY " + key + " DESC LIMIT " + number),
          ") AS page_window ORDER BY ", key, " ASC", "");
    Nested(table, " WHERE " + key + " < " + literal, " ORDER BY " + key, number, key);
  }

  lemma Glued(head: string, a: string, b: string, c: string, d: string)
    ensures head + a + b + c + d == head + (a + b + c + d)
  {
  }

  lemma Nested(table: string, where: string, order: string, number: string, key: string)
    ensures "SELECT * FROM (SELECT * FROM " + table + where + (order + " DESC LIMIT " + number)
            + (") AS page_window ORDER BY " + key + " ASC" + "") ==
            "SELECT * FROM (" + ("SELECT * FROM " + table
                                 + (where + (order + " DESC" + (" LIMIT " + number
                                    + (") AS page_window" + (" ORDER BY " + key + " ASC" + ""))))))
  {
    assert " DESC LIMIT " == " DESC" + " LIMIT ";
    assert ") AS page_window ORDER BY " == ") AS page_window" + " ORDER BY ";
    assert "SELECT * FROM (SELECT * FROM " == "SELECT * FROM (" + "SELECT * FROM ";
    var tail := ") AS page_window ORDER BY " + key + " ASC" + "";
    assert tail == ") AS page_window" + (" ORDER BY " + key + " ASC" + "");
    assert order + " DESC LIMIT " + number == order + " DESC" + (" LIMIT " + number);
  }

  lemma PreviousPageReadIff(target: SqlTarget, column: string, boundary: string, limit: nat)
    requires KeysetPageSql(target, column, boundary, Previous, limit).Ok?
    ensures (ReadSelect(KeysetPageSql(target, column, boundary, Previous, limit).value)
             == Meaning(target, Page(column, boundary, Previous, limit)))
            <==> BoundaryKept(boundary)
  {
    hide ReadClauses, ReadPlain, ReadDerived, KeyedClauses, KeysetPageSql, BoundaryValue, QualifiedTableSql,
      OuterClauses, BoundaryKept, BoundaryReads, SpelledLiteral;
    var behind := ") AS page_window" + OuterClauses(column);
    var clauses := KeyedClauses(column, Less, boundary, false, limit, behind);
    var inner := "SELECT * FROM " + QualifiedTableSql(target) + clauses;
    PreviousPageText(target, column, boundary, limit);
    ClausesStart(column, Less, boundary, false, limit, behind);
    PlainRead(target, clauses);
    SpelledIsValueIff(boundary);
    if BoundaryKept(boundary) {
      var select := Select(Stored(target), Some(Condition(column, Less, BoundaryValue(boundary))),
                           Some(Order(column, false)), Some(Window(limit, 0)));
      KeyedClausesRead(Stored(target), column, Less, boundary, false, limit, behind);
      DerivedRead(inner, select, OuterClauses(column));
      OuterRead(Derived(select), column);
    } else {
      KeyedClausesMisread(Stored(target), column, Less, boundary, false, limit, behind);
      DerivedHolds(inner);
    }
  }

  /** What a derived table is read as is what its text is read as. */
  lemma DerivedHolds(inner: string)
    ensures "SELECT * FROM (" <= "SELECT * FROM (" + inner
    ensures var read := ReadDerived("SELECT * FROM (" + inner);
            read.Some? ==> ReadPlain(inner).Some? && read.value.0.source == Derived(ReadPlain(inner).value.0)
  {
    hide ReadPlain, ReadWhere, ReadOrder, ReadWindow;
    WordRead("SELECT * FROM (", inner);
  }

  lemma DerivedRead(inner: string, select: Select, outer: string)
    requires ReadPlain(inner) == Some((select, ") AS page_window" + outer))
    ensures "SELECT * FROM (" <= "SELECT * FROM (" + inner
    ensures ReadDerived("SELECT * FROM (" + inner) == ReadClauses(Derived(select), outer)
  {
    hide ReadPlain, ReadClauses;
    WordRead("SELECT * FROM (", inner);
    WordRead(") AS page_window", outer);
  }

  lemma OuterRead(source: Source, column: string)
    ensures ReadClauses(source, OuterClauses(column)) ==
            Some((Select(source, None, Some(Order(column, true)), None), ""))
  {
    hide ReadWhere, ReadOrder, ReadWindow, QuoteIdentifier;
    NoWhere(" ORDER BY " + QuoteIdentifier(column) + " ASC" + "");
    OrderRead(column, true, "");
    NoWindow("");
  }

  lemma OffsetPageRead(target: SqlTarget, limit: nat, offset: nat)
    ensures ReadSelect(OffsetPageSql(target, limit, offset)) == Meaning(target, OffsetPage(limit, offset))
  {
    hide ReadWhere, ReadOrder, ReadWindow, ReadPlain, ReadDerived, QualifiedTableSql, Decimal;
    var clauses := " LIMIT " + Decimal(limit) + " OFFSET " + Decimal(offset);
    assert OffsetPageSql(target, limit, offset) == "SELECT * FROM " + QualifiedTableSql(target) + clauses;
    PlainRead(target, clauses);
    NoWhere(clauses);
    NoOrder(clauses);
    OffsetRead(limit, offset);
  }

  lemma PreviewRead(target: SqlTarget, limit: nat)
    ensures ReadSelect(PreviewSelectSql(target, limit)) == Meaning(target, Preview(limit))
  {
    hide ReadWhere, ReadOrder, ReadWindow, ReadPlain, ReadDerived, QualifiedTableSql, Decimal;
    var clauses := " LIMIT " + Decimal(limit) + "";
    assert PreviewSelectSql(target, limit) == "SELECT * FROM " + QualifiedTableSql(target) + clauses;
    PlainRead(target, clauses);
    NoWhere(clauses);
    NoOrder(clauses);
    WindowRead(limit, "");
  }

  /** Reading the generated text of a page query gives the query that was asked for — its table, its
      column, the side of the boundary, the direction of the order and the window, whatever the names —
      exactly when the boundary, if there is one, is a number that the server accepts, or is quoted and keeps
      its backslashes. */
  lemma PageTextMeansIff(target: SqlTarget, r: Request)
    requires Generate(target, r).Ok? && Meaning(target, r).Some?
    ensures (ReadSelect(Generate(target, r).value) == Meaning(target, r))
            <==> (r.Page? ==> BoundaryKept(r.boundary))
  {
    hide ReadSelect, KeysetFirstPageSql, KeysetPageSql, OffsetPageSql, PreviewSelectSql, Meaning, BoundaryKept;
    match r
    case FirstPage(column, limit) => FirstPageRead(target, column, limit);
    case Page(column, boundary, Next, limit) => NextPageReadIff(target, column, boundary, limit);
    case Page(column, boundary, Previous, limit) => PreviousPageReadIff(target, column, boundary, limit);
    case OffsetPage(limit, offset) => OffsetPageRead(target, limit, offset);
    case Preview(limit) => PreviewRead(target, limit);
    case _ => NoMeaning(target, r);
  }

  lemma NoMeaning(target: SqlTarget, r: Request)
    requires !(r.FirstPage? || r.Page? || r.OffsetPage? || r.Preview?)
    ensures Meaning(target, r).None?
  {
  }

  /** A boundary that is an integer is emitted as it stands and read as a number. */
  lemma IntegerBoundary(boundary: string)
    requires IsIntegerText(Trim(boundary))
    ensures QuoteSqlLiteral(boundary) == Trim(boundary) && BoundaryValue(boundary) == Number(Trim(boundary))
    ensures BoundaryKept(boundary)
  {
    hide Trim, IsNumeric, IsNumber, IsSqlNumber, IsIntegerText;
    IntegerIsSqlNumber(Trim(boundary));
    SqlNumberIsNumeric(Trim(boundary));
  }

  lemma IntegerIsSqlNumber(t: string)
    requires IsIntegerText(t)
    ensures IsSqlNumber(t)
  {
    hide IsNumber, FitsDouble;
    var digits := StripSign(t);
    assert digits == if t[0] == '-' then t[1..] else t;
    DigitsAreNumber(digits);
    assert FirstOf(digits, 'e', 'E') == |digits|;
  }

  lemma NumberedRows(rows: seq<Row>, n: nat)
    ensures Windowed(rows, Some(Window(n, 0))) == Limit(rows, n)
  {
    assert rows[0..] == rows;
  }

  lemma MeaningRows(target: SqlTarget, r: Request, key: string, table: seq<Row>, ki: nat)
    requires r.FirstPage? || r.Page? || r.OffsetPage?
    requires r.FirstPage? || r.Page? ==> r.column == key
    requires r.Page? ==> IsIntegerText(Trim(r.boundary))
    ensures Meaning(target, r).Some?
            && Rows(Meaning(target, r).value, target, key, table, ki) == Some(Answer(r, table, ki))
  {
    hide OrderAsc, Reverse, WhereKey, BoundaryValue, BoundaryKept, QuoteSqlLiteral, IntOf, Windowed, Limit, Trim,
      IsIntegerText;
    match r
    case FirstPage(_, limit) => NumberedRows(OrderAsc(table, ki), limit);
    case Page(_, boundary, direction, limit) =>
      IntegerBoundary(boundary);
      var rows := WhereKey(table, ki, direction, IntOf(QuoteSqlLiteral(boundary)));
      NumberedRows(OrderAsc(rows, ki), limit);
      NumberedRows(OrderDesc(rows, ki), limit);
      if direction.Previous? {
        NotWindowed(OrderAsc(Limit(OrderDesc(rows, ki), limit), ki));
      }
    case OffsetPage(limit, offset) => OffsetRows(table, limit, offset);
  }

  lemma NotWindowed(rows: seq<Row>)
    ensures Windowed(rows, None) == rows
  {
  }

  lemma OffsetRows(rows: seq<Row>, limit: nat, offset: nat)
    ensures Windowed(rows, Some(Window(limit, offset))) == Limit(Offset(rows, offset), limit)
  {
  }

  /** The boundary NaN is read as the name of a column. */
  lemma NameBoundaryExample(target: SqlTarget, column: string, limit: nat)
    requires KeysetPageSql(target, column, "NaN", Next, limit).Ok?
    ensures var read := ReadSelect(KeysetPageSql(target, column, "NaN", Next, limit).value);
            && read.Some? && read.value.where == Some(Condition(column, Greater, Word("NaN")))
            && read != Meaning(target, Page(column, "NaN", Next, limit))
  {
    hide ReadClauses, ReadPlain, ReadDerived, KeyedClauses, KeysetPageSql, BoundaryValue, QualifiedTableSql,
      BoundaryReads, SpelledLiteral, BoundaryKept;
    var clauses := KeyedClauses(column, Greater, "NaN", true, limit, "");
    NextPageText(target, column, "NaN", limit);
    ClausesStart(column, Greater, "NaN", true, limit, "");
    PlainRead(target, clauses);
    NameIsWord();
    KeyedClausesRead(Stored(target), column, Greater, "NaN", true, limit, "");
    SpelledIsValueIff("NaN");
    NextPageReadIff(target, column, "NaN", limit);
  }

  lemma NameIsWord()
    ensures BoundaryReads("NaN") && SpelledLiteral("NaN") == Word("NaN") && !BoundaryKept("NaN")
  {
    hide ParsesAsI128, ParsesAsU128, IsNumber, IsSqlNumber, BackslashesKept, ReadString;
    TrimOfTrimmed("NaN");
    BareWordExample();
    assert AsciiLowercase("NaN") == "nan";
    assert IsNonFiniteName("NaN");
  }

  /** The rows that the page protocol works with are the rows of the generated text. */
  lemma AnswerIsTextRows(target: SqlTarget, r: Request, key: string, table: seq<Row>, ki: nat)
    requires Generate(target, r).Ok? && (r.FirstPage? || r.Page? || r.OffsetPage?)
    requires r.FirstPage? || r.Page? ==> r.column == key
    requires r.Page? ==> IsIntegerText(Trim(r.boundary))
    ensures ReadSelect(Generate(target, r).value).Some?
    ensures Rows(ReadSelect(Generate(target, r).value).value, target, key, table, ki) == Some(Answer(r, table, ki))
  {
    hide ReadSelect, Generate, Meaning, Rows, Answer, BoundaryValue, BoundaryKept, IsIntegerText, Trim, QuoteSqlLiteral;
    MeaningRows(target, r, key, table, ki);
    if r.Page? {
      IntegerBoundary(r.boundary);
    }
    PageTextMeansIff(target, r);
  }
}
