/** The relational meaning of the page queries over a table with a unique integer key. */
module PageQueries {
  import opened Text
  import opened SqlGenerator
  import opened GeneratedSql

  type Row = seq<string>

  // ---------------------------------------------------------------- integer keys

  function RenderInt(k: int): string {
    if k < 0 then "-" + Decimal(-k) else Decimal(k)
  }

  /** The value of an integer constant; other texts are not compared by the model. */
  function IntOf(text: string): int {
    if text != "" && text[0] == '-' then
      if AllDigits(text[1..]) then 0 - DecimalValue(text[1..]) else 0
    else if AllDigits(text) then DecimalValue(text) else 0
  }

  lemma IntRoundTrip(k: int)
    ensures IntOf(RenderInt(k)) == k
  {
    if k < 0 {
      DecimalRoundTrip(-k);
      assert RenderInt(k)[1..] == Decimal(-k);
    } else {
      DecimalRoundTrip(k);
      assert '0' <= Decimal(k)[0] <= '9';
    }
  }

  lemma RenderedIsTrimmed(k: int)
    ensures Trim(RenderInt(k)) == RenderInt(k)
  {
    hide Decimal, Trim;
    var text := RenderInt(k);
    var digits := Decimal(if k < 0 then -k else k);
    assert '0' <= digits[0] <= '9' && '0' <= digits[|digits| - 1] <= '9';
    assert text[|text| - 1] == digits[|digits| - 1];
    TrimOfTrimmed(text);
  }

  /** A rendered key is emitted as it stands. */
  lemma KeyLiteral(k: int)
    ensures QuoteSqlLiteral(RenderInt(k)) == RenderInt(k)
  {
    hide IsNumber, ParsesAsI128, ParsesAsU128, Decimal, Trim;
    var digits := Decimal(if k < 0 then -k else k);
    DigitsAreNumber(digits);
    assert '0' <= digits[0] <= '9';
    assert StripSign(RenderInt(k)) == digits;
    RenderedIsTrimmed(k);
  }

  function KeyOf(row: Row, ki: nat): int {
    if ki < |row| then IntOf(row[ki]) else 0
  }

  predicate IsKeyed(row: Row, ki: nat) {
    ki < |row| && row[ki] == RenderInt(KeyOf(row, ki))
  }

  /** Every row holds a canonical integer key and no key occurs twice. */
  predicate IsKeyedTable(table: seq<Row>, ki: nat) {
    && (forall i :: 0 <= i < |table| ==> IsKeyed(table[i], ki))
    && (forall i, j :: 0 <= i < j < |table| ==> KeyOf(table[i], ki) != KeyOf(table[j], ki))
  }

  // ---------------------------------------------------------------- relational operators

  predicate Ascending(rows: seq<Row>, ki: nat) {
    forall i, j :: 0 <= i < j < |rows| ==> KeyOf(rows[i], ki) < KeyOf(rows[j], ki)
  }

  function Insert(row: Row, rows: seq<Row>, ki: nat): seq<Row> {
    if rows == [] || KeyOf(row, ki) < KeyOf(rows[0], ki) then [row] + rows
    else [rows[0]] + Insert(row, rows[1..], ki)
  }

  function OrderAsc(rows: seq<Row>, ki: nat): seq<Row> {
    if rows == [] then [] else Insert(rows[0], OrderAsc(rows[1..], ki), ki)
  }

  function Reverse(rows: seq<Row>): seq<Row> {
    if rows == [] then [] else [rows[|rows| - 1]] + Reverse(rows[..|rows| - 1])
  }

  function OrderDesc(rows: seq<Row>, ki: nat): seq<Row> {
    Reverse(OrderAsc(rows, ki))
  }

  function WhereKey(rows: seq<Row>, ki: nat, direction: PaginationDirection, bound: int): seq<Row> {
    if rows == [] then []
    else
      var keep := if direction.Next? then KeyOf(rows[0], ki) > bound else KeyOf(rows[0], ki) < bound;
      (if keep then [rows[0]] else []) + WhereKey(rows[1..], ki, direction, bound)
  }

  function Limit(rows: seq<Row>, n: nat): seq<Row> {
    if n < |rows| then rows[..n] else rows
  }

  function Offset(rows: seq<Row>, n: nat): seq<Row> {
    if n < |rows| then rows[n..] else []
  }

  /** The rows a page request returns. Other requests are not answered by the model. */
  function Answer(r: Request, table: seq<Row>, ki: nat): seq<Row> {
    match r
    case FirstPage(_, limit) =>
      Limit(OrderAsc(table, ki), limit)
    case Page(_, boundary, Next, limit) =>
      Limit(OrderAsc(WhereKey(table, ki, Next, IntOf(QuoteSqlLiteral(boundary))), ki), limit)
    case Page(_, boundary, Previous, limit) =>
      OrderAsc(Limit(OrderDesc(WhereKey(table, ki, Previous, IntOf(QuoteSqlLiteral(boundary))), ki), limit), ki)
    case OffsetPage(limit, offset) =>
      Limit(Offset(table, offset), limit)
    case _ => []
  }

  // ---------------------------------------------------------------- sorting

  lemma {:induction false} InsertKeepsRows(row: Row, rows: seq<Row>, ki: nat)
    ensures multiset(Insert(row, rows, ki)) == multiset{row} + multiset(rows)
    ensures |Insert(row, rows, ki)| == |rows| + 1
  {
    if rows == [] || KeyOf(row, ki) < KeyOf(rows[0], ki) {
    } else {
      InsertKeepsRows(row, rows[1..], ki);
      assert rows == [rows[0]] + rows[1..];
    }
  }

  lemma {:induction false} InsertSorts(row: Row, rows: seq<Row>, ki: nat)
    requires Ascending(rows, ki)
    requires forall i :: 0 <= i < |rows| ==> KeyOf(rows[i], ki) != KeyOf(row, ki)
    ensures Ascending(Insert(row, rows, ki), ki)
  {
    hide KeyOf;
    if rows == [] || KeyOf(row, ki) < KeyOf(rows[0], ki) {
    } else {
      InsertSorts(row, rows[1..], ki);
      InsertKeepsRows(row, rows[1..], ki);
      var tail := Insert(row, rows[1..], ki);
      forall j | 0 <= j < |tail|
        ensures KeyOf(rows[0], ki) < KeyOf(tail[j], ki)
      {
        assert tail[j] in multiset(tail);
        assert tail[j] == row || tail[j] in rows[1..];
      }
    }
  }

  /** Ordering gives the rows in strictly increasing key order and neither loses nor repeats any. */
  lemma {:induction false} OrderSorts(rows: seq<Row>, ki: nat)
    requires forall i, j :: 0 <= i < j < |rows| ==> KeyOf(rows[i], ki) != KeyOf(rows[j], ki)
    ensures Ascending(OrderAsc(rows, ki), ki)
    ensures multiset(OrderAsc(rows, ki)) == multiset(rows)
    ensures |OrderAsc(rows, ki)| == |rows|
  {
    if rows != [] {
      OrderSorts(rows[1..], ki);
      assert rows == [rows[0]] + rows[1..];
      var tail := OrderAsc(rows[1..], ki);
      forall i | 0 <= i < |tail|
        ensures KeyOf(tail[i], ki) != KeyOf(rows[0], ki)
      {
        assert tail[i] in multiset(rows[1..]);
        var j :| 0 <= j < |rows[1..]| && rows[1..][j] == tail[i];
        assert rows[j + 1] == tail[i];
      }
      InsertSorts(rows[0], tail, ki);
      InsertKeepsRows(rows[0], tail, ki);
    }
  }

  lemma {:induction false} WhereInsert(row: Row, rows: seq<Row>, ki: nat, d: PaginationDirection, bound: int)
    requires Ascending(rows, ki)
    ensures WhereKey(Insert(row, rows, ki), ki, d, bound)
         == if (if d.Next? then KeyOf(row, ki) > bound else KeyOf(row, ki) < bound)
            then Insert(row, WhereKey(rows, ki, d, bound), ki)
            else WhereKey(rows, ki, d, bound)
  {
    if rows == [] || KeyOf(row, ki) < KeyOf(rows[0], ki) {
      assert ([row] + rows)[1..] == rows;
      WhereMembers(rows, ki, d, bound);
    } else {
      var tail := Insert(row, rows[1..], ki);
      assert ([rows[0]] + tail)[1..] == tail;
      WhereInsert(row, rows[1..], ki, d, bound);
      WhereMembers(rows[1..], ki, d, bound);
      var kept := WhereKey(rows[1..], ki, d, bound);
      assert ([rows[0]] + kept)[1..] == kept;
      if d.Previous? && KeyOf(row, ki) < bound {
        assert KeyOf(rows[0], ki) < bound;
      }
      if d.Next? && KeyOf(row, ki) > bound && !(KeyOf(rows[0], ki) > bound) {
        assert WhereKey(rows, ki, d, bound) == kept;
      }
    }
  }

  lemma {:induction false} WhereMembers(rows: seq<Row>, ki: nat, d: PaginationDirection, bound: int)
    ensures forall i :: 0 <= i < |WhereKey(rows, ki, d, bound)| ==> WhereKey(rows, ki, d, bound)[i] in rows
  {
    if rows != [] {
      WhereMembers(rows[1..], ki, d, bound);
    }
  }

  /** Filtering before ordering gives the same rows as ordering before filtering. */
  lemma {:induction false} WhereOrder(rows: seq<Row>, ki: nat, d: PaginationDirection, bound: int)
    requires forall i, j :: 0 <= i < j < |rows| ==> KeyOf(rows[i], ki) != KeyOf(rows[j], ki)
    ensures OrderAsc(WhereKey(rows, ki, d, bound), ki) == WhereKey(OrderAsc(rows, ki), ki, d, bound)
  {
    if rows != [] {
      var tail := rows[1..];
      WhereOrder(tail, ki, d, bound);
      OrderSorts(tail, ki);
      WhereInsert(rows[0], OrderAsc(tail, ki), ki, d, bound);
      var kept := WhereKey(tail, ki, d, bound);
      assert ([rows[0]] + kept)[1..] == kept;
      assert [] + kept == kept;
    }
  }

  /** In key order, the rows after (before) row j are those with a larger (smaller) key. */
  lemma {:induction false} WhereSplits(rows: seq<Row>, ki: nat, j: nat, bound: int)
    requires Ascending(rows, ki) && j < |rows| && bound == KeyOf(rows[j], ki)
    ensures WhereKey(rows, ki, Next, bound) == rows[j + 1..]
    ensures WhereKey(rows, ki, Previous, bound) == rows[..j]
  {
    if j == 0 {
      WhereAll(rows[1..], ki, bound);
      assert rows[0..0] == [];
    } else {
      WhereSplits(rows[1..], ki, j - 1, bound);
      assert rows[1..][j..] == rows[j + 1..];
      assert rows[..j] == [rows[0]] + rows[1..][..j - 1];
    }
  }

  lemma {:induction false} WhereAll(rows: seq<Row>, ki: nat, bound: int)
    requires forall i :: 0 <= i < |rows| ==> KeyOf(rows[i], ki) > bound
    ensures WhereKey(rows, ki, Next, bound) == rows
    ensures WhereKey(rows, ki, Previous, bound) == []
  {
    if rows != [] {
      WhereAll(rows[1..], ki, bound);
      assert rows == [rows[0]] + rows[1..];
    }
  }

  lemma {:induction false} InsertLast(row: Row, rows: seq<Row>, ki: nat)
    requires Ascending(rows + [row], ki)
    ensures Insert(row, rows, ki) == rows + [row]
  {
    if rows != [] {
      assert (rows + [row])[0] == rows[0] && (rows + [row])[|rows|] == row;
      assert rows[1..] + [row] == (rows + [row])[1..];
      InsertLast(row, rows[1..], ki);
      assert [rows[0]] + (rows[1..] + [row]) == rows + [row];
    }
  }

  lemma ReverseStep(rows: seq<Row>)
    requires rows != []
    ensures Reverse(rows) == [rows[|rows| - 1]] + Reverse(rows[..|rows| - 1])
  {
  }

  lemma InsertFirst(row: Row, rows: seq<Row>, ki: nat)
    ensures OrderAsc([row] + rows, ki) == Insert(row, OrderAsc(rows, ki), ki)
  {
    hide Insert;
    assert ([row] + rows)[1..] == rows;
  }

  lemma NothingReversed(ki: nat)
    ensures Reverse([]) == [] && OrderAsc([], ki) == []
  {
  }

  lemma {:induction false} OrderReversed(rows: seq<Row>, ki: nat)
    requires Ascending(rows, ki)
    ensures OrderAsc(Reverse(rows), ki) == rows
  {
    hide OrderAsc, Reverse, Insert, KeyOf;
    if rows == [] {
      NothingReversed(ki);
    } else {
      var front, last := rows[..|rows| - 1], rows[|rows| - 1];
      assert front + [last] == rows;
      OrderReversed(front, ki);
      ReverseStep(rows);
      InsertFirst(last, Reverse(front), ki);
      InsertLast(last, front, ki);
    }
  }

  lemma {:induction false} ReverseLength(rows: seq<Row>)
    ensures |Reverse(rows)| == |rows|
  {
    if rows != [] {
      ReverseLength(rows[..|rows| - 1]);
    }
  }

  lemma LimitCons(row: Row, rows: seq<Row>, n: nat)
    requires n > 0
    ensures Limit([row] + rows, n) == [row] + Limit(rows, n - 1)
  {
  }

  lemma LastOf(rows: seq<Row>, from: nat)
    requires from < |rows|
    ensures Reverse(rows[from..]) == [rows[|rows| - 1]] + Reverse(rows[..|rows| - 1][from..])
  {
    assert rows[from..][..|rows| - from - 1] == rows[..|rows| - 1][from..];
  }

  lemma LimitOfNone(rows: seq<Row>)
    ensures Limit(rows, 0) == [] && Reverse([]) == [] && Limit([], 0) == []
  {
  }

  lemma {:induction false} LimitReversed(rows: seq<Row>, n: nat)
    ensures Limit(Reverse(rows), n) == Reverse(rows[if n < |rows| then |rows| - n else 0..])
    ensures |Reverse(rows)| == |rows|
  {
    hide Reverse, Limit;
    ReverseLength(rows);
    LimitOfNone(Reverse(rows));
    if rows == [] {
      LimitOfNothing(n);
    } else if n == 0 {
      assert rows[|rows|..] == [];
    } else {
      var front, last := rows[..|rows| - 1], rows[|rows| - 1];
      LimitReversed(front, n - 1);
      LimitCons(last, Reverse(front), n);
      ReverseStep(rows);
      LastOf(rows, if n < |rows| then |rows| - n else 0);
    }
  }

  lemma LimitOfNothing(n: nat)
    ensures Limit([], n) == []
  {
  }

  /** The next page query from the key of row j returns the rows that follow row j. */
  lemma AnswerNext(table: seq<Row>, ki: nat, column: string, j: nat, limit: nat)
    requires IsKeyedTable(table, ki) && j < |OrderAsc(table, ki)|
    requires IsKeyed(OrderAsc(table, ki)[j], ki)
    ensures var s := OrderAsc(table, ki);
            Answer(Page(column, s[j][ki], Next, limit), table, ki) == Limit(s[j + 1..], limit)
  {
    hide Limit, WhereKey, OrderAsc, Insert, RenderInt, IntOf, QuoteSqlLiteral;
    var s := OrderAsc(table, ki);
    var key := KeyOf(s[j], ki);
    KeyLiteral(key);
    IntRoundTrip(key);
    OrderSorts(table, ki);
    WhereOrder(table, ki, Next, key);
    WhereSplits(s, ki, j, key);
  }

  /** The previous page query from the key of row j returns the rows just before row j, in key order. */
  lemma AnswerPrevious(table: seq<Row>, ki: nat, column: string, j: nat, limit: nat)
    requires IsKeyedTable(table, ki) && j < |OrderAsc(table, ki)|
    requires IsKeyed(OrderAsc(table, ki)[j], ki)
    ensures var s := OrderAsc(table, ki);
            Answer(Page(column, s[j][ki], Previous, limit), table, ki) == s[(if limit < j then j - limit else 0)..j]
  {
    hide Limit, WhereKey, OrderAsc, Insert, Reverse, RenderInt, IntOf, QuoteSqlLiteral;
    var s := OrderAsc(table, ki);
    var key := KeyOf(s[j], ki);
    KeyLiteral(key);
    IntRoundTrip(key);
    OrderSorts(table, ki);
    WhereOrder(table, ki, Previous, key);
    WhereSplits(s, ki, j, key);
    LimitReversed(s[..j], limit);
    var from := if limit < j then j - limit else 0;
    assert s[..j][from..] == s[from..j];
    OrderReversed(s[from..j], ki);
  }

  lemma OrderedRowsAreKeyed(table: seq<Row>, ki: nat)
    requires IsKeyedTable(table, ki)
    ensures Ascending(OrderAsc(table, ki), ki) && |OrderAsc(table, ki)| == |table|
    ensures forall i :: 0 <= i < |table| ==> IsKeyed(OrderAsc(table, ki)[i], ki)
  {
    OrderSorts(table, ki);
    var s := OrderAsc(table, ki);
    forall i | 0 <= i < |s|
      ensures IsKeyed(s[i], ki)
    {
      assert s[i] in multiset(s);
      assert s[i] in table;
    }
  }
}
