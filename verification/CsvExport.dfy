/** The CSV printer and a reader that its output is read back by. */
module CsvExport {
  import opened Text

  predicate NeedsQuotes(value: string) {
    ',' in value || '"' in value || '\n' in value
  }

  function CsvEscape(value: string): string {
    if NeedsQuotes(value) then ['"'] + Doubled(value, '"') + ['"'] else value
  }

  /** Exactly the values with a separator, a quote or a line feed are quoted. */
  lemma EscapedIff(value: string)
    ensures CsvEscape(value) == value <==>
            forall i :: 0 <= i < |value| ==> value[i] != ',' && value[i] != '"' && value[i] != '\n'
    ensures CsvEscape(value) != value ==> "\"" <= CsvEscape(value)
  {
    if NeedsQuotes(value) {
      DoublingGrows(value, '"');
    }
  }

  lemma {:induction false} DoublingGrows(s: string, q: char)
    ensures |Doubled(s, q)| >= |s|
  {
    if s != "" {
      DoublingGrows(s[1..], q);
    }
  }

  function Escaped(values: seq<string>): (e: seq<string>)
    ensures |e| == |values|
  {
    seq(|values|, i requires 0 <= i < |values| => CsvEscape(values[i]))
  }

  /** A row cut to the width of the headers, or filled up with empty values. */
  function Fitted(row: seq<string>, width: nat): (r: seq<string>)
    ensures |r| == width
    ensures forall i :: 0 <= i < width ==> r[i] == if i < |row| then row[i] else ""
  {
    seq(width, i requires 0 <= i => if i < |row| then row[i] else "")
  }

  function CsvLine(values: seq<string>): string {
    Join(Escaped(values), ",") + "\n"
  }

  function CsvLines(rows: seq<seq<string>>, width: nat): string {
    if rows == [] then "" else CsvLines(rows[..|rows| - 1], width) + CsvLine(Fitted(rows[|rows| - 1], width))
  }

  function CsvText(headers: seq<string>, rows: seq<seq<string>>): string {
    CsvLine(headers) + CsvLines(rows, |headers|)
  }

  // ---------------------------------------------------------------- the reader

  datatype ReadMode = AtStart | Plain | Quoted | AfterQuote

  /** Records end at a line feed; the quoting rules are rules 5 to 7 of section 2 of RFC 4180. */
  function Read(text: string, mode: ReadMode, field: string, record: seq<string>): seq<seq<string>> {
    if text == "" then
      if mode == AtStart && record == [] then [] else [record + [field]]
    else
      var c, rest := text[0], text[1..];
      if mode == Quoted then
        if c == '"' then Read(rest, AfterQuote, field, record) else Read(rest, Quoted, field + [c], record)
      else if mode == AfterQuote && c == '"' then Read(rest, Quoted, field + [c], record)
      else if mode == AtStart && c == '"' then Read(rest, Quoted, field, record)
      else if c == ',' then Read(rest, AtStart, "", record + [field])
      else if c == '\n' then [record + [field]] + Read(rest, AtStart, "", [])
      else Read(rest, Plain, field + [c], record)
  }

  function ReadCsv(text: string): seq<seq<string>> {
    Read(text, AtStart, "", [])
  }

  /** What the reader makes of a separator that ends a field. */
  function Ended(sep: char, rest: string, record: seq<string>): seq<seq<string>> {
    if sep == ',' then Read(rest, AtStart, "", record) else [record] + Read(rest, AtStart, "", [])
  }

  lemma {:induction false} ReadsQuoted(value: string, tail: string, field: string, record: seq<string>)
    ensures Read(Doubled(value, '"') + ['"'] + tail, Quoted, field, record) ==
            Read(tail, AfterQuote, field + value, record)
  {
    var text := Doubled(value, '"') + ['"'] + tail;
    if value == "" {
      assert text[1..] == tail;
      assert field + value == field;
    } else {
      var rest := Doubled(value[1..], '"') + ['"'] + tail;
      ReadsQuoted(value[1..], tail, field + [value[0]], record);
      assert field + [value[0]] + value[1..] == field + value;
      if value[0] == '"' {
        assert text[0] == '"' && text[1..][0] == '"' && text[1..][1..] == rest;
      } else {
        assert text[1..] == rest;
      }
    }
  }

  lemma {:induction false} ReadsPlain(value: string, sep: char, rest: string, mode: ReadMode, field: string,
      record: seq<string>)
    requires !NeedsQuotes(value) && sep in ",\n" && (mode == AtStart || mode == Plain)
    ensures Read(value + [sep] + rest, mode, field, record) == Ended(sep, rest, record + [field + value])
  {
    var text := value + [sep] + rest;
    if value == "" {
      assert text[1..] == rest;
      assert field + value == field;
    } else {
      assert text[1..] == value[1..] + [sep] + rest;
      assert value[0] in value && forall c :: c in value[1..] ==> c in value;
      ReadsPlain(value[1..], sep, rest, Plain, field + [value[0]], record);
      assert field + [value[0]] + value[1..] == field + value;
    }
  }

  lemma QuoteOpens(tail: string, record: seq<string>)
    ensures Read(['"'] + tail, AtStart, "", record) == Read(tail, Quoted, "", record)
  {
    assert (['"'] + tail)[1..] == tail;
  }

  lemma QuoteCloses(sep: char, rest: string, field: string, record: seq<string>)
    requires sep in ",\n"
    ensures Read([sep] + rest, AfterQuote, field, record) == Ended(sep, rest, record + [field])
  {
    assert ([sep] + rest)[1..] == rest;
  }

  /** An escaped value followed by a separator is read back as the value. */
  lemma ReadsField(value: string, sep: char, rest: string, record: seq<string>)
    requires sep in ",\n"
    ensures Read(CsvEscape(value) + [sep] + rest, AtStart, "", record) == Ended(sep, rest, record + [value])
  {
    hide Read, Doubled, Ended;
    assert "" + value == value;
    if NeedsQuotes(value) {
      assert CsvEscape(value) + [sep] + rest == ['"'] + (Doubled(value, '"') + ['"'] + ([sep] + rest));
      QuoteOpens(Doubled(value, '"') + ['"'] + ([sep] + rest), record);
      ReadsQuoted(value, [sep] + rest, "", record);
      QuoteCloses(sep, rest, value, record);
    } else {
      ReadsPlain(value, sep, rest, AtStart, "", record);
    }
  }

  lemma {:induction false} ReadsRecord(values: seq<string>, rest: string, record: seq<string>)
    requires values != []
    ensures Read(Join(Escaped(values), ",") + "\n" + rest, AtStart, "", record) ==
            [record + values] + Read(rest, AtStart, "", [])
    decreases |values|
  {
    hide Read, CsvEscape;
    var escaped := Escaped(values);
    if |values| == 1 {
      assert Join(escaped, ",") == CsvEscape(values[0]);
      ReadsField(values[0], '\n', rest, record);
      assert record + [values[0]] == record + values;
    } else {
      assert escaped[1..] == Escaped(values[1..]);
      var after := Join(Escaped(values[1..]), ",") + "\n" + rest;
      assert Join(escaped, ",") + "\n" + rest == CsvEscape(values[0]) + [','] + after;
      ReadsField(values[0], ',', after, record);
      ReadsRecord(values[1..], rest, record + [values[0]]);
      assert record + [values[0]] + values[1..] == record + values;
    }
  }

  function FittedRows(rows: seq<seq<string>>, width: nat): (r: seq<seq<string>>)
    ensures |r| == |rows|
  {
    seq(|rows|, i requires 0 <= i < |rows| => Fitted(rows[i], width))
  }

  lemma FittedRowsGrow(front: seq<seq<string>>, last: seq<string>, width: nat)
    ensures FittedRows(front + [last], width) == FittedRows(front, width) + [Fitted(last, width)]
  {
    hide Fitted;
  }

  lemma LastLine(rows: seq<seq<string>>, width: nat, rest: string)
    requires rows != []
    ensures CsvLines(rows, width) + rest ==
            CsvLines(rows[..|rows| - 1], width) + (CsvLine(Fitted(rows[|rows| - 1], width)) + rest)
  {
    hide Fitted, CsvLine;
  }

  lemma NoLines(width: nat, rest: string)
    ensures CsvLines([], width) + rest == rest && FittedRows([], width) == []
  {
    assert "" + rest == rest;
  }

  lemma ReadsLine(values: seq<string>, rest: string)
    requires values != []
    ensures ReadCsv(CsvLine(values) + rest) == [values] + ReadCsv(rest)
  {
    hide Read, Escaped, Join;
    ReadsRecord(values, rest, []);
    assert [] + values == values;
  }

  lemma {:induction false} ReadsLines(rows: seq<seq<string>>, width: nat, rest: string)
    requires width >= 1
    ensures ReadCsv(CsvLines(rows, width) + rest) == FittedRows(rows, width) + ReadCsv(rest)
  {
    hide ReadCsv, Fitted, CsvLine, CsvLines, FittedRows;
    if rows == [] {
      NoLines(width, rest);
    } else {
      var front, last := rows[..|rows| - 1], rows[|rows| - 1];
      assert front + [last] == rows;
      LastLine(rows, width, rest);
      ReadsLines(front, width, CsvLine(Fitted(last, width)) + rest);
      ReadsLine(Fitted(last, width), rest);
      FittedRowsGrow(front, last, width);
      assert FittedRows(front, width) + ([Fitted(last, width)] + ReadCsv(rest)) ==
             FittedRows(rows, width) + ReadCsv(rest);
    }
  }

  lemma ReadsBack(headers: seq<string>, rows: seq<seq<string>>)
    requires headers != []
    ensures ReadCsv(CsvText(headers, rows)) == [headers] + FittedRows(rows, |headers|)
  {
    hide Read, Fitted;
    var body := CsvLines(rows, |headers|);
    ReadsRecord(headers, body, []);
    assert [] + headers == headers;
    assert body + "" == body;
    ReadsLines(rows, |headers|, "");
    NothingRead();
  }

  lemma NothingRead()
    ensures ReadCsv("") == []
  {
  }

  lemma EmptyLineRead(rest: string)
    ensures Read("\n" + rest, AtStart, "", []) == [[""]] + Read(rest, AtStart, "", [])
  {
    assert ("\n" + rest)[1..] == rest;
    assert [] + [""] == [""];
  }

  /** Reading the exported text gives back the headers and every row, cut or filled to their width,
      exactly when there is a header: an empty line reads as one empty field. */
  lemma CsvRoundTrip(headers: seq<string>, rows: seq<seq<string>>)
    ensures ReadCsv(CsvText(headers, rows)) == [headers] + FittedRows(rows, |headers|) <==> headers != []
  {
    hide Read, Fitted;
    if headers != [] {
      ReadsBack(headers, rows);
    } else {
      var body := CsvLines(rows, 0);
      assert Escaped([]) == [];
      assert CsvText([], rows) == "\n" + body;
      EmptyLineRead(body);
      assert ReadCsv(CsvText([], rows))[0] == [""];
      assert ([[]] + FittedRows(rows, 0))[0] == [];
    }
  }

  // ---------------------------------------------------------------- the printer

  method RowLine(row: seq<string>, width: nat) returns (line: string)
    ensures line == CsvLine(Fitted(row, width))
  {
    var values: seq<string> := [];
    for column := 0 to width
      invariant values == Escaped(Fitted(row, width))[..column]
    {
      var value := if column < |row| then row[column] else "";
      values := values + [CsvEscape(value)];
    }
    assert Escaped(Fitted(row, width))[..width] == Escaped(Fitted(row, width));
    line := Join(values, ",") + "\n";
  }

  method ExportRowsToCsv(headers: seq<string>, rows: seq<seq<string>>) returns (text: string, count: nat)
    ensures text == CsvText(headers, rows) && count == |rows|
    ensures headers != [] ==> ReadCsv(text) == [headers] + FittedRows(rows, |headers|)
  {
    text := Join(Escaped(headers), ",");
    text := text + "\n";
    for i := 0 to |rows|
      invariant text == CsvLine(headers) + CsvLines(rows[..i], |headers|)
    {
      assert rows[..i + 1][..i] == rows[..i];
      var line := RowLine(rows[i], |headers|);
      text := text + line;
    }
    assert rows[..|rows|] == rows;
    count := |rows|;
    CsvRoundTrip(headers, rows);
  }
}
