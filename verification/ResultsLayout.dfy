/** The columns that the results view shows and how wide they are. */
module ResultsLayout {
  import opened Text

  const SEPARATOR: nat := 3
  const NARROWEST: nat := 3
  const WIDEST: nat := 28
  const LEAST_AVAILABLE: nat := 8

  function Sum(widths: seq<nat>): nat {
    if widths == [] then 0 else Sum(widths[..|widths| - 1]) + widths[|widths| - 1]
  }

  /** The widths with a separator between neighbours. */
  function Total(widths: seq<nat>): nat {
    Sum(widths) + if widths == [] then 0 else SEPARATOR * (|widths| - 1)
  }

  function Max(a: nat, b: nat): nat {
    if a >= b then a else b
  }

  // ---------------------------------------------------------------- the greedy range

  /** Takes columns as long as they fit. */
  function Extended(widths: seq<nat>, start: nat, end: nat, available: nat): (e: nat)
    requires start < end <= |widths|
    ensures end <= e <= |widths|
    decreases |widths| - end
  {
    if end < |widths| && Total(widths[start..end + 1]) <= available then Extended(widths, start, end + 1, available)
    else end
  }

  /** The first column is taken whether it fits or not. */
  function FitEnd(widths: seq<nat>, start: nat, available: nat): (e: nat)
    ensures e <= |widths| && (start < |widths| ==> start < e)
  {
    if start >= |widths| then |widths| else Extended(widths, start, start + 1, available)
  }

  lemma TotalGrows(widths: seq<nat>, start: nat, end: nat)
    requires start < end < |widths|
    ensures Total(widths[start..end + 1]) == Total(widths[start..end]) + SEPARATOR + widths[end]
  {
    assert widths[start..end + 1][..end - start] == widths[start..end];
  }

  lemma {:induction false} TotalMonotone(widths: seq<nat>, start: nat, a: nat, b: nat)
    requires start < a <= b <= |widths|
    ensures Total(widths[start..a]) <= Total(widths[start..b])
  {
    hide Total;
    if a < b {
      TotalMonotone(widths, start, a, b - 1);
      TotalGrows(widths, start, b - 1);
    }
  }

  lemma {:induction false} ExtendedIsGreatest(widths: seq<nat>, start: nat, end: nat, available: nat, e: nat)
    requires start < end <= e <= |widths|
    ensures e <= Extended(widths, start, end, available) <==> e == end || Total(widths[start..e]) <= available
    decreases |widths| - end
  {
    hide Total;
    if e > end {
      TotalMonotone(widths, start, end + 1, e);
      if Total(widths[start..end + 1]) <= available {
        ExtendedIsGreatest(widths, start, end + 1, available, e);
      }
    }
  }

  /** The greedy range reaches exactly as far as the columns together fit. */
  lemma FitEndIsGreatest(widths: seq<nat>, start: nat, available: nat, e: nat)
    requires start < e <= |widths|
    ensures e <= FitEnd(widths, start, available) <==> e == start + 1 || Total(widths[start..e]) <= available
  {
    ExtendedIsGreatest(widths, start, start + 1, available, e);
  }

  method FitColumnRangeFrom(widths: seq<nat>, start: nat, available: nat) returns (end: nat)
    ensures end == FitEnd(widths, start, available)
  {
    hide Total;
    var total, count := 0, 0;
    var i := start;
    while i < |widths|
      invariant i == start + count
      invariant count > 0 ==> i <= |widths| && total == Total(widths[start..i])
      invariant count > 0 ==> Extended(widths, start, i, available) == FitEnd(widths, start, available)
    {
      var projected := if count == 0 then widths[i] else total + 3 + widths[i];
      if count > 0 {
        TotalGrows(widths, start, i);
      } else {
        TotalOfOne(widths[i]);
        assert widths[start..start + 1] == [widths[start]];
      }
      if projected > available && count > 0 {
        break;
      }
      total := projected;
      count := count + 1;
      i := i + 1;
    }
    end := Min(start + Max(count, 1), |widths|);
  }

  lemma TotalOfOne(width: nat)
    ensures Total([width]) == width
  {
    assert [width][..0] == [];
    assert Sum([width]) == Sum([]) + width;
  }

  // ---------------------------------------------------------------- the window around the selection

  /** The least start from the hint on whose greedy range holds the selected column; a hint past the
      selection is moved back to it. */
  method VisibleColumnWindow(widths: seq<nat>, startHint: nat, selected: nat, available: nat)
    returns (start: nat, end: nat)
    requires selected < |widths|
    ensures start <= selected < end <= |widths|
    ensures end == FitEnd(widths, start, available)
    ensures startHint <= start || start == selected
    ensures forall s :: startHint <= s < start ==> FitEnd(widths, s, available) <= selected
  {
    hide FitEnd;
    start := Min(startHint, |widths| - 1);
    while true
      invariant start < |widths|
      invariant start <= selected ==> forall s :: startHint <= s < start ==> FitEnd(widths, s, available) <= selected
      invariant startHint <= start || startHint > selected
      invariant startHint <= selected ==> start <= selected
      invariant startHint > selected ==> start >= selected
      decreases if selected < start then 1 else 0, selected - start
    {
      end := FitColumnRangeFrom(widths, start, available);
      if selected < start {
        start := selected;
        continue;
      }
      if selected >= end {
        start := Min(start + 1, selected);
        continue;
      }
      return start, end;
    }
  }

  // ---------------------------------------------------------------- shrinking

  /** The last of the widest columns. */
  function LastWidest(widths: seq<nat>): (m: nat)
    requires widths != []
    ensures m < |widths| && forall i :: 0 <= i < |widths| ==> widths[i] <= widths[m]
    ensures forall i :: m < i < |widths| ==> widths[i] < widths[m]
  {
    var n := |widths| - 1;
    if n == 0 then 0
    else
      var m := LastWidest(widths[..n]);
      if widths[n] >= widths[m] then n else m
  }

  function Shrunk(widths: seq<nat>, available: nat): (s: seq<nat>)
    ensures |s| == |widths|
    decreases Sum(widths)
  {
    if Total(widths) <= available || widths == [] || widths[LastWidest(widths)] <= NARROWEST then widths
    else
      var m := LastWidest(widths);
      SumUpdated(widths, m, widths[m] - 1);
      Shrunk(widths[m := widths[m] - 1], available)
  }

  lemma {:induction false} SumUpdated(widths: seq<nat>, m: nat, w: nat)
    requires m < |widths|
    ensures Sum(widths[m := w]) + widths[m] == Sum(widths) + w
  {
    var n := |widths| - 1;
    if m == n {
      assert widths[m := w][..n] == widths[..n];
    } else {
      assert widths[m := w][..n] == widths[..n][m := w];
      SumUpdated(widths[..n], m, w);
    }
  }

  method FindLastWidest(widths: array<nat>) returns (m: nat)
    requires widths.Length > 0
    ensures m == LastWidest(widths[..])
  {
    m := 0;
    var i := 1;
    while i < widths.Length
      invariant 1 <= i <= widths.Length
      invariant m < i && m == LastWidest(widths[..i])
    {
      assert widths[..i + 1][..i] == widths[..i];
      if widths[i] >= widths[m] {
        m := i;
      }
      i := i + 1;
    }
    assert widths[..widths.Length] == widths[..];
  }

  method ShrinkWidthsToFit(widths: array<nat>, available: nat)
    modifies widths
    ensures widths[..] == Shrunk(old(widths[..]), available)
  {
    hide Total, LastWidest;
    var sum := SumOf(widths);
    var totalWidth := sum + (if widths.Length == 0 then 0 else widths.Length - 1) * 3;
    TotalIsSum(widths[..]);
    while totalWidth > available
      invariant totalWidth == Total(widths[..])
      invariant Shrunk(widths[..], available) == Shrunk(old(widths[..]), available)
      decreases Sum(widths[..])
    {
      var reduced := false;
      if widths.Length > 0 {
        var index := FindLastWidest(widths);
        if widths[index] > 3 {
          ghost var before := widths[..];
          SumUpdated(before, index, before[index] - 1);
          TotalIsSum(before);
          TotalIsSum(before[index := before[index] - 1]);
          widths[index] := widths[index] - 1;
          assert widths[..] == before[index := before[index] - 1];
          totalWidth := if totalWidth == 0 then 0 else totalWidth - 1;
          reduced := true;
        }
      }
      if !reduced {
        break;
      }
    }
  }

  method SumOf(widths: array<nat>) returns (sum: nat)
    ensures sum == Sum(widths[..])
  {
    sum := 0;
    for i := 0 to widths.Length
      invariant sum == Sum(widths[..i])
    {
      assert widths[..i + 1][..i] == widths[..i];
      sum := sum + widths[i];
    }
    assert widths[..widths.Length] == widths[..];
  }

  lemma TotalIsSum(widths: seq<nat>)
    ensures Total(widths) == Sum(widths) + (if |widths| == 0 then 0 else |widths| - 1) * 3
  {
  }

  /** No column narrower than the narrowest is touched, and none below it is made. */
  function Floor(widths: seq<nat>): (f: seq<nat>)
    ensures |f| == |widths|
    ensures forall i :: 0 <= i < |f| ==> f[i] == Min(widths[i], NARROWEST)
  {
    seq(|widths|, i requires 0 <= i < |widths| => Min(widths[i], NARROWEST))
  }

  /** Columns that have been shrunk are within one of every other column. */
  predicate Level(before: seq<nat>, after: seq<nat>)
    requires |before| == |after|
  {
    forall i, j :: 0 <= i < |after| && 0 <= j < |after| && after[i] < before[i] ==> after[j] <= after[i] + 1
  }

  predicate Between(before: seq<nat>, after: seq<nat>)
    requires |before| == |after|
  {
    forall i :: 0 <= i < |after| ==> Min(before[i], NARROWEST) <= after[i] <= before[i]
  }

  lemma NarrowingStays(before: seq<nat>, widths: seq<nat>, m: nat)
    requires |before| == |widths| && Between(before, widths) && Level(before, widths)
    requires m < |widths| && widths[m] > NARROWEST && forall i :: 0 <= i < |widths| ==> widths[i] <= widths[m]
    ensures Between(before, widths[m := widths[m] - 1])
    ensures Level(before, widths[m := widths[m] - 1])
  {
    var after := widths[m := widths[m] - 1];
    forall i, j | 0 <= i < |after| && 0 <= j < |after| && after[i] < before[i]
      ensures after[j] <= after[i] + 1
    {
      assert after[j] <= widths[j] && widths[j] <= widths[m];
      if i != m {
        assert widths[j] <= widths[i] + 1;
      }
    }
  }

  lemma {:induction false} ShrunkStays(before: seq<nat>, widths: seq<nat>, available: nat)
    requires |before| == |widths| && Between(before, widths) && Level(before, widths)
    ensures Between(before, Shrunk(widths, available)) && Level(before, Shrunk(widths, available))
    decreases Sum(widths)
  {
    hide Total, Between, Level, LastWidest;
    if !(Total(widths) <= available || widths == [] || widths[LastWidest(widths)] <= NARROWEST) {
      var m := LastWidest(widths);
      SumUpdated(widths, m, widths[m] - 1);
      NarrowingStays(before, widths, m);
      ShrunkStays(before, widths[m := widths[m] - 1], available);
    }
  }

  lemma {:induction false} ShrunkTotal(widths: seq<nat>, available: nat)
    ensures Total(widths) <= available ==> Shrunk(widths, available) == widths
    ensures Total(widths) > available ==>
              || Total(Shrunk(widths, available)) == available
              || (Total(Shrunk(widths, available)) > available
                  && forall i :: 0 <= i < |widths| ==> Shrunk(widths, available)[i] <= NARROWEST)
    decreases Sum(widths)
  {
    hide Total;
    if !(Total(widths) <= available || widths == [] || widths[LastWidest(widths)] <= NARROWEST) {
      var m := LastWidest(widths);
      SumUpdated(widths, m, widths[m] - 1);
      TotalIsSum(widths);
      TotalIsSum(widths[m := widths[m] - 1]);
      ShrunkTotal(widths[m := widths[m] - 1], available);
    }
  }

  /** Shrinking leaves widths that fit alone, and otherwise either fits exactly or ends with each
      column as narrow as it can be. On the way no column grows or drops under the narrowest width,
      and columns that were shrunk end within one of the widest. */
  lemma ShrinkingIsExactAndLevel(widths: seq<nat>, available: nat)
    ensures var s := Shrunk(widths, available);
            && (Total(widths) <= available ==> s == widths)
            && (Total(widths) > available ==> Total(s) == available || (s == Floor(widths) && Total(s) > available))
            && Between(widths, s) && Level(widths, s)
  {
    hide Total, Shrunk;
    ShrunkStays(widths, widths, available);
    ShrunkTotal(widths, available);
    var s := Shrunk(widths, available);
    if Total(widths) > available && Total(s) != available {
      assert forall i :: 0 <= i < |s| ==> s[i] == Floor(widths)[i];
    }
  }

  // ---------------------------------------------------------------- the layout

  datatype Layout = Layout(
    columnCount: nat,
    columnStart: nat,
    columnEnd: nat,
    selectedColumn: nat,
    selectedRelativeColumn: nat,
    widths: seq<nat>)

  function LongestRow(rows: seq<seq<string>>): (n: nat)
    ensures forall i :: 0 <= i < |rows| ==> |rows[i]| <= n
  {
    if rows == [] then 0 else Max(LongestRow(rows[..|rows| - 1]), |rows[|rows| - 1]|)
  }

  function ColumnCount(headers: seq<string>, rows: seq<seq<string>>): nat {
    Max(|headers|, LongestRow(rows))
  }

  function ColumnLabel(headers: seq<string>, column: nat): string {
    if column < |headers| then headers[column] else "col" + Decimal(column + 1)
  }

  function LongestValue(rows: seq<seq<string>>, column: nat): nat {
    if rows == [] then 0
    else
      var last := rows[|rows| - 1];
      Max(LongestValue(rows[..|rows| - 1], column), if column < |last| then |last[column]| else 0)
  }

  function ColumnWidth(headers: seq<string>, rows: seq<seq<string>>, column: nat): (w: nat)
    ensures NARROWEST <= w <= WIDEST
  {
    Min(Max(Max(|ColumnLabel(headers, column)|, LongestValue(rows, column)), NARROWEST), WIDEST)
  }

  function AllWidths(headers: seq<string>, rows: seq<seq<string>>): (widths: seq<nat>)
    ensures |widths| == ColumnCount(headers, rows)
    ensures forall i :: 0 <= i < |widths| ==> NARROWEST <= widths[i] <= WIDEST
  {
    seq(ColumnCount(headers, rows), i requires i >= 0 => ColumnWidth(headers, rows, i))
  }

  /** There are as many columns as the headers or the longest row have, and no more. */
  lemma {:induction false} ColumnCountIsLeast(headers: seq<string>, rows: seq<seq<string>>, n: nat)
    ensures ColumnCount(headers, rows) <= n <==> |headers| <= n && forall i :: 0 <= i < |rows| ==> |rows[i]| <= n
  {
    if rows != [] {
      ColumnCountIsLeast(headers, rows[..|rows| - 1], n);
      assert forall i :: 0 <= i < |rows| - 1 ==> rows[i] == rows[..|rows| - 1][i];
    }
  }

  predicate ValuesWithin(rows: seq<seq<string>>, column: nat, n: nat) {
    forall i :: 0 <= i < |rows| && column < |rows[i]| ==> |rows[i][column]| <= n
  }

  lemma {:induction false} LongestIsLeast(rows: seq<seq<string>>, column: nat, n: nat)
    ensures LongestValue(rows, column) <= n <==> ValuesWithin(rows, column, n)
  {
    if rows != [] {
      LongestIsLeast(rows[..|rows| - 1], column, n);
      assert forall i :: 0 <= i < |rows| - 1 ==> rows[i] == rows[..|rows| - 1][i];
    }
  }

  /** Between its bounds of 3 and 28 a column is just as wide as its label and its values need. */
  lemma WidthIsLeast(headers: seq<string>, rows: seq<seq<string>>, column: nat, n: nat)
    requires column < |AllWidths(headers, rows)|
    ensures 3 <= AllWidths(headers, rows)[column] <= 28
    ensures 3 <= n < 28 ==>
              (AllWidths(headers, rows)[column] <= n <==>
                 |ColumnLabel(headers, column)| <= n && ValuesWithin(rows, column, n))
    ensures column < |headers| ==> ColumnLabel(headers, column) == headers[column]
    ensures column >= |headers| ==>
              var text := ColumnLabel(headers, column);
              "col" <= text && AllDigits(text[3..]) && DecimalValue(text[3..]) == column + 1
  {
    hide LongestValue, ColumnCount, Decimal, ValuesWithin;
    LongestIsLeast(rows, column, n);
    DecimalRoundTrip(column + 1);
    assert ("col" + Decimal(column + 1))[3..] == Decimal(column + 1);
  }

  method ComputeResultsLayout(headers: seq<string>, rows: seq<seq<string>>, selectedColumn: nat, availableWidth: nat)
    returns (layout: Option<Layout>)
    ensures layout.None? <==> headers == [] && forall i :: 0 <= i < |rows| ==> rows[i] == []
    ensures layout.Some? ==>
              var l, available := layout.value, Max(availableWidth, LEAST_AVAILABLE);
              var all := AllWidths(headers, rows);
              && l.columnCount == |all|
              && l.selectedColumn == Min(selectedColumn, l.columnCount - 1)
              && l.columnStart <= l.selectedColumn < l.columnEnd <= l.columnCount
              && l.selectedRelativeColumn == l.selectedColumn - l.columnStart
              && l.columnEnd == FitEnd(all, l.columnStart, available)
              && l.columnStart + 2 >= l.selectedColumn
              && (forall s :: l.selectedColumn <= s + 2 && 0 <= s < l.columnStart ==>
                    FitEnd(all, s, available) <= l.selectedColumn)
              && |l.widths| == l.columnEnd - l.columnStart
              && (forall i :: 0 <= i < |l.widths| ==> NARROWEST <= l.widths[i] <= WIDEST)
              && Total(l.widths) <= available
              && (l.widths == all[l.columnStart..l.columnEnd] || l.widths == [available])
  {
    hide FitEnd, Total, Shrunk, ColumnWidth;
    NoColumns(headers, rows);
    var columnCount := ColumnCount(headers, rows);
    if columnCount == 0 {
      return None;
    }
    var allWidths := AllWidths(headers, rows);
    var selected := Min(selectedColumn, columnCount - 1);
    var startHint := if selected >= 2 then selected - 2 else 0;
    var available := Max(availableWidth, LEAST_AVAILABLE);
    var start, end := VisibleColumnWindow(allWidths, startHint, selected, available);

    var shown := allWidths[start..end];
    var widths := new nat[|shown|](i requires 0 <= i < |shown| => shown[i]);
    assert widths[..] == shown;
    assert forall i :: 0 <= i < |shown| ==> shown[i] == allWidths[start + i];
    ShrinkWidthsToFit(widths, available);
    FitEndIsGreatest(allWidths, start, available, end);
    ShrunkRangeFits(shown, available);
    layout := Some(Layout(columnCount, start, end, selected, selected - start, widths[..]));
  }

  lemma {:induction false} NoColumns(headers: seq<string>, rows: seq<seq<string>>)
    ensures ColumnCount(headers, rows) == 0 <==> headers == [] && forall i :: 0 <= i < |rows| ==> rows[i] == []
  {
    if rows != [] {
      NoColumns(headers, rows[..|rows| - 1]);
    }
  }

  lemma ShrunkRangeFits(shown: seq<nat>, available: nat)
    requires available >= LEAST_AVAILABLE
    requires |shown| == 1 || Total(shown) <= available
    requires forall i :: 0 <= i < |shown| ==> NARROWEST <= shown[i] <= WIDEST
    ensures var s := Shrunk(shown, available);
            && Total(s) <= available
            && (s == shown || s == [available])
            && forall i :: 0 <= i < |s| ==> NARROWEST <= s[i] <= WIDEST
  {
    hide Total, Shrunk;
    ShrinkingIsExactAndLevel(shown, available);
    if Total(shown) > available {
      var s := Shrunk(shown, available);
      TotalOfOne(s[0]);
      assert s == [s[0]];
    }
  }

  // ---------------------------------------------------------------- the cells

  function Repeated(c: char, n: nat): (s: string)
    ensures |s| == n
  {
    seq(n, _ => c)
  }

  function TruncateCell(value: string, width: nat): (cell: string)
    ensures |cell| <= width
    ensures |value| <= width ==> cell == value
  {
    if width == 0 then ""
    else if |value| <= width then value
    else if width <= 3 then Repeated('.', width)
    else value[..width - 3] + "..."
  }

  function PadCell(value: string, width: nat): (cell: string)
    ensures |cell| == width
  {
    var cell := TruncateCell(value, width);
    cell + Repeated(' ', width - |cell|)
  }

  function EmphasizeCell(value: string, width: nat): (cell: string)
    ensures |cell| == width
  {
    if width == 0 then "" else if width == 1 then ">" else if width == 2 then "[]"
    else
      var cell := "[" + TruncateCell(value, width - 2) + "]";
      cell + Repeated(' ', width - |cell|)
  }

  function AlignedCells(cells: seq<string>, widths: seq<nat>, selected: nat): (aligned: seq<string>)
    ensures |aligned| == |widths| && forall i :: 0 <= i < |widths| ==> |aligned[i]| == widths[i]
  {
    seq(|widths|, i requires 0 <= i < |widths| =>
      var value := if i < |cells| then cells[i] else "";
      if i == selected then EmphasizeCell(value, widths[i]) else PadCell(value, widths[i]))
  }

  function FormatAlignedCells(cells: seq<string>, widths: seq<nat>, selected: nat): string {
    Join(AlignedCells(cells, widths, selected), " | ")
  }

  lemma {:induction false} SumSplits(a: seq<nat>, b: seq<nat>)
    ensures Sum(a + b) == Sum(a) + Sum(b)
  {
    if b == [] {
      assert a + b == a;
    } else {
      assert (a + b)[..|a + b| - 1] == a + b[..|b| - 1];
      SumSplits(a, b[..|b| - 1]);
    }
  }

  lemma SumFront(widths: seq<nat>, k: nat)
    requires 0 < k <= |widths|
    ensures Sum(widths[..k]) == widths[0] + Sum(widths[1..][..k - 1])
  {
    SumSplits(widths[..1], widths[1..][..k - 1]);
    assert widths[..k] == widths[..1] + widths[1..][..k - 1];
    assert widths[..1] == [widths[0]];
    TotalOfOne(widths[0]);
  }

  lemma TotalFront(widths: seq<nat>)
    requires |widths| > 1
    ensures Total(widths) == widths[0] + SEPARATOR + Total(widths[1..])
  {
    hide Sum;
    SumFront(widths, |widths|);
    assert widths[..|widths|] == widths && widths[1..][..|widths| - 1] == widths[1..];
  }

  lemma {:induction false} JoinedPart(parts: seq<string>, widths: seq<nat>, k: nat)
    requires |parts| == |widths| && k < |parts| && forall i :: 0 <= i < |parts| ==> |parts[i]| == widths[i]
    ensures var line, start := Join(parts, " | "), Sum(widths[..k]) + SEPARATOR * k;
            |line| == Total(widths) && start + widths[k] <= |line| && line[start..start + widths[k]] == parts[k]
  {
    hide Sum, Total;
    NoWidths(widths);
    if |parts| == 1 {
      TotalOfOne(widths[0]);
      assert widths == [widths[0]];
    } else {
      var rest := Join(parts[1..], " | ");
      assert Join(parts, " | ") == parts[0] + " | " + rest;
      TotalFront(widths);
      JoinedPart(parts[1..], widths[1..], if k > 0 then k - 1 else 0);
      if k > 0 {
        SumFront(widths, k);
      }
    }
  }

  lemma NoWidths(widths: seq<nat>)
    ensures Sum(widths[..0]) == 0
  {
  }

  /** Header and rows align: each line is as long as the layout's widths say, and each cell stands at
      the same place of every line, whatever the values and wherever the selection is. */
  lemma RowsAlign(cells: seq<string>, widths: seq<nat>, selected: nat, k: nat)
    requires k < |widths|
    ensures var line, start := FormatAlignedCells(cells, widths, selected), Sum(widths[..k]) + SEPARATOR * k;
            && |line| == Total(widths) && start + widths[k] <= |line|
            && line[start..start + widths[k]] == AlignedCells(cells, widths, selected)[k]
  {
    JoinedPart(AlignedCells(cells, widths, selected), widths, k);
  }

  predicate Blank(s: string) {
    forall i :: 0 <= i < |s| ==> s[i] == ' '
  }

  /** What a cell of at least four characters shows: the whole value with blanks behind it, or as much of it
      as leaves room for three dots. */
  lemma PaddedShows(value: string, width: nat)
    requires width >= 4
    ensures var cell := PadCell(value, width);
            if |value| <= width then value <= cell && Blank(cell[|value|..])
            else cell == value[..width - 3] + "..."
  {
  }

  /** The selected cell shows its value in brackets, cut the same way where there is room for less. */
  lemma EmphasizedShows(value: string, width: nat)
    requires width >= 3
    ensures var cell := EmphasizeCell(value, width);
            if |value| + 2 <= width then "[" + value + "]" <= cell && Blank(cell[|value| + 2..])
            else if width >= 6 then cell == "[" + value[..width - 5] + "...]"
            else cell == "[" + "..."[..width - 2] + "]"
  {
    var cell := "[" + TruncateCell(value, width - 2) + "]";
    assert cell <= EmphasizeCell(value, width);
    if |value| + 2 > width {
      assert width >= 6 ==> cell == "[" + value[..width - 5] + "...]";
    }
  }

  /** In the narrowest cells dots or brackets stand for what has no room. */
  lemma NarrowCells(value: string, width: nat)
    requires width <= 3
    ensures PadCell(value, width) == if |value| <= width then value + "   "[..width - |value|] else "..."[..width]
    ensures EmphasizeCell(value, 2) == "[]" && EmphasizeCell(value, 1) == ">" && EmphasizeCell(value, 0) == ""
  {
  }

  /** The cells of a line are those of its row, the selected one in brackets. */
  lemma CellsAreOfRow(cells: seq<string>, widths: seq<nat>, selected: nat, k: nat)
    requires k < |widths|
    ensures var value := if k < |cells| then cells[k] else "";
            AlignedCells(cells, widths, selected)[k] ==
              if k == selected then EmphasizeCell(value, widths[k]) else PadCell(value, widths[k])
  {
  }
}
