/** Column names for streamed JSON rows: never blank, never twice the same. */
module ColumnNames {
  import opened Text

  /** The name a column asks for. */
  function Base(source: seq<string>, index: nat): string {
    if index < |source| && Trim(source[index]) != "" then Trim(source[index]) else "col_" + Decimal(index + 1)
  }

  /** The names tried in turn: the base itself, then the base numbered from two on. */
  function Candidate(base: string, attempt: nat): string {
    if attempt == 0 then base else base + "_" + Decimal(attempt + 1)
  }

  function TargetLength(source: seq<string>, fallback: nat): nat {
    if |source| >= fallback then |source| else fallback
  }

  /** The first candidate that is not taken. */
  ghost predicate FirstFree(name: string, base: string, taken: seq<string>) {
    exists n: nat :: FreeAt(name, base, taken, n)
  }

  predicate FreeAt(name: string, base: string, taken: seq<string>, n: nat) {
    && name == Candidate(base, n)
    && name !in taken
    && forall k :: 0 <= k < n ==> Candidate(base, k) in taken
  }

  ghost predicate Normalized(source: seq<string>, fallback: nat, names: seq<string>) {
    && |names| == TargetLength(source, fallback)
    && forall i :: 0 <= i < |names| ==> FirstFree(names[i], Base(source, i), names[..i])
  }

  lemma CandidateInjective(base: string, m: nat, n: nat)
    requires Candidate(base, m) == Candidate(base, n)
    ensures m == n
  {
    hide Decimal;
    if m > 0 && n > 0 {
      var s, t := Candidate(base, m), Candidate(base, n);
      assert s[|base| + 1..] == Decimal(m + 1) && t[|base| + 1..] == Decimal(n + 1);
      DecimalInjective(m + 1, n + 1);
    }
  }

  // ---------------------------------------------------------------- termination

  /** The first n candidates. */
  ghost function Tried(base: string, n: nat): set<string> {
    if n == 0 then {} else Tried(base, n - 1) + {Candidate(base, n - 1)}
  }

  lemma {:induction false} TriedAre(base: string, n: nat)
    ensures forall k :: 0 <= k < n ==> Candidate(base, k) in Tried(base, n)
    ensures forall c :: c in Tried(base, n) ==> exists k :: 0 <= k < n && c == Candidate(base, k)
    ensures |Tried(base, n)| == n
  {
    hide Candidate;
    if n > 0 {
      TriedAre(base, n - 1);
      if Candidate(base, n - 1) in Tried(base, n - 1) {
        var k :| 0 <= k < n - 1 && Candidate(base, n - 1) == Candidate(base, k);
        CandidateInjective(base, n - 1, k);
        assert false;
      }
    }
  }

  lemma {:induction false} SubsetIsSmaller(a: set<string>, b: set<string>)
    requires a <= b
    ensures |a| <= |b|
  {
    if a != {} {
      var x :| x in a;
      SubsetIsSmaller(a - {x}, b - {x});
    }
  }

  /** Not more candidates than used names can be taken. */
  lemma TriedFits(base: string, n: nat, used: set<string>)
    requires forall k :: 0 <= k < n ==> Candidate(base, k) in used
    ensures n <= |used|
  {
    hide Candidate, Tried;
    TriedAre(base, n);
    assert Tried(base, n) <= used;
    SubsetIsSmaller(Tried(base, n), used);
  }

  lemma CountedNames(used: set<string>, names: seq<string>)
    requires forall s :: s in used <==> s in names
    ensures |used| <= |names|
    decreases |names|
  {
    if names == [] {
      assert used == {};
    } else {
      var last, front := names[|names| - 1], names[..|names| - 1];
      var rest := set s | s in used && s in front;
      CountedNames(rest, front);
      assert used <= rest + {last};
      SubsetIsSmaller(used, rest + {last});
    }
  }

  // ---------------------------------------------------------------- the loop

  function SaturatingSuccessor(n: u64): u64 {
    if n < U64_MAX then n + 1 else n
  }

  /** The suffix counter is 64 bits wide and saturates; with fewer used names than that a free
      candidate is found before it can matter. */
  method FreeName(base: string, used: set<string>, ghost names: seq<string>) returns (candidate: string)
    requires |names| + 1 < U64_MAX && forall s :: s in used <==> s in names
    ensures FirstFree(candidate, base, names) && candidate !in used
  {
    hide Candidate, Decimal;
    candidate := base;
    var suffix: u64 := 2;
    FirstCandidate(base);
    CountedNames(used, names);
    while candidate in used
      invariant 2 <= suffix && suffix - 2 <= |used|
      invariant candidate == Candidate(base, suffix - 2)
      invariant forall k :: 0 <= k < suffix - 2 ==> Candidate(base, k) in used
      decreases |used| + 2 - suffix
    {
      TriedFits(base, suffix - 1, used);
      NextCandidate(base, suffix);
      candidate := base + "_" + Decimal(suffix);
      suffix := SaturatingSuccessor(suffix);
    }
    assert FreeAt(candidate, base, names, suffix - 2);
  }

  method NormalizeColumnNames(source: seq<string>, fallback: nat) returns (names: seq<string>)
    requires TargetLength(source, fallback) < U64_MAX
    ensures Normalized(source, fallback, names)
  {
    hide Base, FirstFree;
    var targetLength := if |source| >= fallback then |source| else fallback;
    names := [];
    var used: set<string> := {};
    for index := 0 to targetLength
      invariant |names| == index
      invariant forall s :: s in used <==> s in names
      invariant forall i :: 0 <= i < index ==> FirstFree(names[i], Base(source, i), names[..i])
    {
      var candidate := FreeName(Base(source, index), used, names);
      used := used + {candidate};
      ghost var before := names;
      names := names + [candidate];
      assert forall i :: 0 <= i <= |before| ==> names[..i] == before[..i];
      assert before[..|before|] == before;
    }
  }

  lemma FirstCandidate(base: string)
    ensures Candidate(base, 0) == base
  {
  }

  lemma NextCandidate(base: string, suffix: nat)
    requires suffix >= 2
    ensures base + "_" + Decimal(suffix) == Candidate(base, suffix - 1)
  {
  }

  // ---------------------------------------------------------------- what the names are

  /** A column without a name gets its number, a repeated one the number of the repetition, both in decimal. */
  lemma NumbersInNames(source: seq<string>, i: nat, base: string, n: nat)
    ensures i >= |source| || Trim(source[i]) == "" ==>
              var name := Base(source, i);
              "col_" <= name && AllDigits(name[4..]) && DecimalValue(name[4..]) == i + 1
    ensures n > 0 ==>
              var name := Candidate(base, n);
              base + "_" <= name && AllDigits(name[|base| + 1..]) && DecimalValue(name[|base| + 1..]) == n + 1
  {
    hide Trim, Decimal;
    DecimalRoundTrip(i + 1);
    DecimalRoundTrip(n + 1);
    assert ("col_" + Decimal(i + 1))[4..] == Decimal(i + 1);
    assert (base + "_" + Decimal(n + 1))[|base| + 1..] == Decimal(n + 1);
  }

  lemma CandidateIsTrimmed(base: string, n: nat)
    requires base != "" && Trimmed(base)
    ensures Candidate(base, n) != "" && Trimmed(Candidate(base, n))
  {
    if n > 0 {
      var d := Decimal(n + 1);
      assert '0' <= d[|d| - 1] <= '9';
    }
  }

  lemma BaseIsTrimmed(source: seq<string>, i: nat)
    ensures Base(source, i) != "" && Trimmed(Base(source, i))
  {
    hide Trim;
    if i < |source| {
      TrimIsTrimmed(source[i]);
    }
    var d := Decimal(i + 1);
    assert '0' <= d[|d| - 1] <= '9';
  }

  /** Normalised names are pairwise distinct, not blank and trimmed. */
  lemma NamesAreDistinct(source: seq<string>, fallback: nat, names: seq<string>)
    requires Normalized(source, fallback, names)
    ensures forall i :: 0 <= i < |names| ==> names[i] != "" && Trimmed(names[i])
    ensures forall i, j :: 0 <= i < j < |names| ==> names[i] != names[j]
  {
    hide Base, Candidate, Trimmed;
    forall i | 0 <= i < |names|
      ensures names[i] != "" && Trimmed(names[i])
    {
      var n: nat :| FreeAt(names[i], Base(source, i), names[..i], n);
      BaseIsTrimmed(source, i);
      CandidateIsTrimmed(Base(source, i), n);
    }
    forall i, j | 0 <= i < j < |names|
      ensures names[i] != names[j]
    {
      assert names[i] in names[..j];
    }
  }

  /** The rule determines the names. */
  lemma {:induction false} NamesAreDetermined(source: seq<string>, fallback: nat, a: seq<string>, b: seq<string>,
      i: nat)
    requires Normalized(source, fallback, a) && Normalized(source, fallback, b) && i <= |a|
    ensures a[..i] == b[..i]
  {
    hide Base, Candidate;
    if i > 0 {
      NamesAreDetermined(source, fallback, a, b, i - 1);
      var m: nat :| FreeAt(a[i - 1], Base(source, i - 1), a[..i - 1], m);
      var n: nat :| FreeAt(b[i - 1], Base(source, i - 1), b[..i - 1], n);
      assert m == n;
      assert a[..i] == a[..i - 1] + [a[i - 1]] && b[..i] == b[..i - 1] + [b[i - 1]];
    }
  }

  /** A name that is trimmed and not blank asks for itself. */
  lemma BaseOfNormalized(names: seq<string>, i: nat)
    requires i < |names| && names[i] != "" && Trimmed(names[i])
    ensures Base(names, i) == names[i]
  {
    hide Trimmed, Trim;
    TrimOfTrimmed(names[i]);
  }

  /** A base that is free is the first free candidate. */
  lemma FreeBaseIsTaken(name: string, base: string, taken: seq<string>)
    requires FirstFree(name, base, taken) && base !in taken
    ensures name == base
  {
    hide Candidate;
    FirstCandidate(base);
    var n: nat :| FreeAt(name, base, taken, n);
    if n > 0 {
      assert false;
    }
  }

  lemma {:induction false} RenormalizedPrefix(names: seq<string>, fallback: nat, more: seq<string>, i: nat)
    requires Normalized(names, fallback, more) && i <= |names|
    requires forall k :: 0 <= k < |names| ==> names[k] != "" && Trimmed(names[k])
    requires forall j, k :: 0 <= j < k < |names| ==> names[j] != names[k]
    ensures more[..i] == names[..i]
  {
    hide Trimmed, FirstFree, Base;
    if i > 0 {
      RenormalizedPrefix(names, fallback, more, i - 1);
      BaseOfNormalized(names, i - 1);
      assert names[i - 1] !in names[..i - 1];
      FreeBaseIsTaken(more[i - 1], names[i - 1], more[..i - 1]);
      assert more[..i] == more[..i - 1] + [more[i - 1]] && names[..i] == names[..i - 1] + [names[i - 1]];
    }
  }

  /** Normalising normalised names for a wider row keeps them and only appends. */
  lemma WideningKeepsNames(source: seq<string>, fallback: nat, names: seq<string>, wider: nat, more: seq<string>)
    requires Normalized(source, fallback, names) && Normalized(names, wider, more)
    ensures names <= more
  {
    hide Trimmed, FirstFree;
    NamesAreDistinct(source, fallback, names);
    RenormalizedPrefix(names, wider, more, |names|);
    assert names[..|names|] == names;
  }

  // ---------------------------------------------------------------- rows as objects

  ghost predicate Keyed(names: seq<string>) {
    forall i, j :: 0 <= i < j < |names| ==> names[i] != names[j]
  }

  /** Every column has a member of its own; a missing value is an empty string. */
  ghost predicate ObjectOf(members: map<string, string>, columns: seq<string>, row: seq<string>) {
    && (forall key :: key in members <==> key in columns)
    && (forall i :: 0 <= i < |columns| ==> members[columns[i]] == if i < |row| then row[i] else "")
  }

  function ValueAt(row: seq<string>, i: nat): string {
    if i < |row| then row[i] else ""
  }

  /** The keys are the first n headers, and each has the value of the last column of its name. */
  ghost predicate LastColumnsWin(members: map<string, string>, headers: seq<string>, row: seq<string>, n: nat)
    requires n <= |headers|
  {
    && (forall key :: key in members ==> exists i :: 0 <= i < n && headers[i] == key)
    && (forall i :: 0 <= i < n ==> headers[i] in members)
    && (forall i :: 0 <= i < n ==>
          || members[headers[i]] == ValueAt(row, i)
          || exists j :: i < j < n && headers[j] == headers[i])
  }

  lemma OneMoreColumn(members: map<string, string>, headers: seq<string>, row: seq<string>, n: nat)
    requires n < |headers| && LastColumnsWin(members, headers, row, n)
    ensures LastColumnsWin(members[headers[n] := ValueAt(row, n)], headers, row, n + 1)
  {
    hide ValueAt;
    var more := members[headers[n] := ValueAt(row, n)];
    forall i | 0 <= i < n + 1
      ensures more[headers[i]] == ValueAt(row, i) || exists j :: i < j < n + 1 && headers[j] == headers[i]
    {
      if i < n && headers[i] != headers[n] && members[headers[i]] != ValueAt(row, i) {
        var j :| i < j < n && headers[j] == headers[i];
        assert i < j < n + 1 && headers[j] == headers[i];
      }
    }
  }

  lemma DistinctLoseNothing(members: map<string, string>, headers: seq<string>, row: seq<string>)
    requires LastColumnsWin(members, headers, row, |headers|) && Keyed(headers)
    ensures ObjectOf(members, headers, row)
  {
  }

  /** With a header twice the last column of that name wins; distinct headers lose nothing. */
  method RowAsJsonObject(headers: seq<string>, row: seq<string>) returns (members: map<string, string>)
    ensures LastColumnsWin(members, headers, row, |headers|)
    ensures Keyed(headers) ==> ObjectOf(members, headers, row)
  {
    hide LastColumnsWin, ObjectOf, Keyed;
    members := map[];
    NoColumnsYet(headers, row);
    for n := 0 to |headers|
      invariant LastColumnsWin(members, headers, row, n)
    {
      OneMoreColumn(members, headers, row, n);
      members := members[headers[n] := ValueAt(row, n)];
    }
    if Keyed(headers) {
      DistinctLoseNothing(members, headers, row);
    }
  }

  lemma NoColumnsYet(headers: seq<string>, row: seq<string>)
    ensures LastColumnsWin(map[], headers, row, 0)
  {
  }

  ghost predicate Fixed(columns: seq<string>) {
    Keyed(columns) && forall i :: 0 <= i < |columns| ==> columns[i] != "" && Trimmed(columns[i])
  }

  /** The row was printed with a front part of the columns that is wide enough for it. */
  ghost predicate RowKept(line: map<string, string>, columns: seq<string>, row: seq<string>) {
    exists width: nat :: |row| <= width <= |columns| && ObjectOf(line, columns[..width], row)
  }

  lemma RowStaysKept(line: map<string, string>, columns: seq<string>, row: seq<string>, more: seq<string>)
    requires RowKept(line, columns, row) && columns <= more
    ensures RowKept(line, more, row)
  {
    hide ObjectOf;
    var width: nat :| |row| <= width <= |columns| && ObjectOf(line, columns[..width], row);
    assert columns[..width] == more[..width];
  }

  lemma RowIsKept(line: map<string, string>, columns: seq<string>, row: seq<string>)
    requires ObjectOf(line, columns, row) && |row| <= |columns|
    ensures RowKept(line, columns, row)
  {
    hide ObjectOf;
    assert columns[..|columns|] == columns;
  }

  /** What is known of the columns when the stream is asked for the k-th time names none. */
  predicate NamesNone(announced: seq<seq<string>>, rows: seq<seq<string>>, k: nat)
    requires |announced| == |rows| + 1 && k <= |rows|
  {
    announced[k] == [] && (k == 0 || rows[k - 1] == [])
  }

  /** The columns start with the names normalised at the first time that names any. */
  ghost predicate NamedAt(columns: seq<string>, announced: seq<seq<string>>, rows: seq<seq<string>>, k: nat)
    requires |announced| == |rows| + 1
  {
    && k <= |rows| && !NamesNone(announced, rows, k)
    && (forall j :: 0 <= j < k ==> NamesNone(announced, rows, j))
    && StartsNormalized(columns, announced[k], if k == 0 then 0 else |rows[k - 1]|)
  }

  ghost predicate StartsNormalized(columns: seq<string>, source: seq<string>, fallback: nat) {
    exists names :: Normalized(source, fallback, names) && names <= columns
  }

  lemma NamedStays(columns: seq<string>, more: seq<string>, announced: seq<seq<string>>, rows: seq<seq<string>>,
                   k: nat)
    requires |announced| == |rows| + 1 && NamedAt(columns, announced, rows, k) && columns <= more
    ensures NamedAt(more, announced, rows, k)
  {
    hide Normalized;
    var source, fallback := announced[k], if k == 0 then 0 else |rows[k - 1]|;
    var names :| Normalized(source, fallback, names) && names <= columns;
    assert names <= more;
  }

  lemma FirstNamed(columns: seq<string>, announced: seq<seq<string>>, rows: seq<seq<string>>, k: nat)
    requires |announced| == |rows| + 1 && k <= |rows|
    requires forall j :: 0 <= j < k ==> NamesNone(announced, rows, j)
    requires Normalized(announced[k], if k == 0 then 0 else |rows[k - 1]|, columns)
    ensures columns == [] <==> NamesNone(announced, rows, k)
    ensures columns != [] ==> NamedAt(columns, announced, rows, k)
  {
    hide FirstFree;
    assert columns <= columns;
  }

  /** One object a row. `announced[i]` is what the stream calls its columns once i rows have been pulled;
      it is asked at the start and again as long as no columns are known. The columns grow when a row is
      wider than all before, and the names that the last row is printed with fit every row: no value is
      lost and no key ever changes. They start with the names first announced, or numbered if the first row
      came without, and there are none only if neither an announcement nor a row had any column. */
  method StreamQueryAsJsonLines(announced: seq<seq<string>>, rows: seq<seq<string>>)
    returns (lines: seq<map<string, string>>, columns: seq<string>)
    requires |announced| == |rows| + 1
    requires forall i :: 0 <= i < |announced| ==> |announced[i]| < U64_MAX
    requires forall i :: 0 <= i < |rows| ==> |rows[i]| < U64_MAX
    ensures |lines| == |rows| && Fixed(columns)
    ensures forall i :: 0 <= i < |lines| ==> RowKept(lines[i], columns, rows[i])
    ensures columns == [] ==> forall k :: 0 <= k <= |rows| ==> NamesNone(announced, rows, k)
    ensures columns != [] ==> exists k :: 0 <= k <= |rows| && NamedAt(columns, announced, rows, k)
  {
    hide Trimmed, ObjectOf, Normalized, RowKept, NamesNone, NamedAt;
    lines := [];
    columns := NormalizeColumnNames(announced[0], 0);
    NormalizedAreFixed(announced[0], 0, columns);
    FirstNamed(columns, announced, rows, 0);
    ghost var named := 0;
    for i := 0 to |rows|
      invariant |lines| == i
      invariant Fixed(columns) && |columns| < U64_MAX
      invariant forall k :: 0 <= k < i ==> RowKept(lines[k], columns, rows[k])
      invariant columns == [] ==> forall k :: 0 <= k <= i ==> NamesNone(announced, rows, k)
      invariant columns != [] ==> 0 <= named <= |rows| && NamedAt(columns, announced, rows, named)
    {
      ghost var before := columns;
      if columns == [] {
        columns := NormalizeColumnNames(announced[i + 1], |rows[i]|);
        NormalizedAreFixed(announced[i + 1], |rows[i]|, columns);
        FirstNamed(columns, announced, rows, i + 1);
        named := i + 1;
      } else if |columns| < |rows[i]| {
        columns := NormalizeColumnNames(columns, |rows[i]|);
        NormalizedAreFixed(before, |rows[i]|, columns);
        FixedStays(before, |rows[i]|, columns);
        NamedStays(before, columns, announced, rows, named);
      }
      forall k | 0 <= k < i
        ensures RowKept(lines[k], columns, rows[k])
      {
        RowStaysKept(lines[k], before, rows[k], columns);
      }
      var members := RowAsJsonObject(columns, rows[i]);
      RowIsKept(members, columns, rows[i]);
      lines := lines + [members];
    }
  }

  lemma NormalizedAreFixed(source: seq<string>, fallback: nat, names: seq<string>)
    requires Normalized(source, fallback, names)
    ensures Fixed(names) && |names| == TargetLength(source, fallback)
  {
    hide FirstFree, Trimmed;
    NamesAreDistinct(source, fallback, names);
  }

  lemma FixedStays(names: seq<string>, wider: nat, more: seq<string>)
    requires Fixed(names) && Normalized(names, wider, more)
    ensures names <= more
  {
    hide FirstFree, Trimmed;
    RenormalizedPrefix(names, wider, more, |names|);
    assert names[..|names|] == names;
  }
}
