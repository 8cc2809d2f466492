/** The SQL statement splitter: one pass with five flags, and the lexer it implements. */
module SqlLexer {
  import opened Text

  datatype Mode = Top | Single | Double | Backtick | LineComment | BlockComment

  /** What the scanner does at one position: drop characters, end a statement, or keep a character. */
  datatype Token = Skip(width: nat, next: Mode) | Cut | Emit(next: Mode)

  predicate InComment(m: Mode) {
    m.LineComment? || m.BlockComment?
  }

  /** The mode after the character c, when comments are not looked at. */
  function Toggle(c: char, m: Mode): Mode {
    match m
    case Single => if c == '\'' then Top else Single
    case Double => if c == '"' then Top else Double
    case Backtick => if c == '`' then Top else Backtick
    case _ => if c == '\'' then Single else if c == '"' then Double else if c == '`' then Backtick else Top
  }

  function Advance(s: string, m: Mode): (t: Token)
    requires s != ""
    ensures t.Skip? ==> 1 <= t.width <= |s|
  {
    var second := if |s| > 1 then s[1] else s[0];
    if m == LineComment then
      Skip(1, if s[0] == '\n' then Top else LineComment)
    else if m == BlockComment then
      if |s| > 1 && s[0] == '*' && s[1] == '/' then Skip(2, Top) else Skip(1, BlockComment)
    else if m == Top && |s| > 1 && s[0] == '-' && s[1] == '-' then Skip(2, LineComment)
    else if m == Top && s[0] == '#' then Skip(1, LineComment)
    else if m == Top && |s| > 1 && s[0] == '/' && s[1] == '*' then Skip(2, BlockComment)
    else if m == Top && s[0] == ';' then Cut
    else Emit(Toggle(s[0], m))
  }

  /** The untrimmed pieces between top-level semicolons, and the mode at the end of the text. */
  datatype Lexed = Lexed(pieces: seq<string>, end: Mode)

  function Prepend(a: string, r: Lexed): (q: Lexed)
    requires |r.pieces| > 0
    ensures |q.pieces| == |r.pieces|
  {
    r.(pieces := [a + r.pieces[0]] + r.pieces[1..])
  }

  function Lex(s: string, m: Mode): (r: Lexed)
    ensures |r.pieces| > 0
    decreases |s|
  {
    if s == "" then Lexed([""], m)
    else
      match Advance(s, m)
      case Skip(width, next) => Lex(s[width..], next)
      case Cut => var r := Lex(s[1..], Top); Lexed([""] + r.pieces, r.end)
      case Emit(next) => Prepend([s[0]], Lex(s[1..], next))
  }

  lemma PrependTwice(a: string, b: string, r: Lexed)
    requires |r.pieces| > 0
    ensures Prepend(a, Prepend(b, r)) == Prepend(a + b, r)
  {
    assert a + (b + r.pieces[0]) == a + b + r.pieces[0];
  }

  lemma PrependNothing(r: Lexed)
    requires |r.pieces| > 0
    ensures Prepend("", r) == r
  {
    assert "" + r.pieces[0] == r.pieces[0];
  }

  /** The trimmed nonempty pieces. */
  function Keep(pieces: seq<string>): seq<string> {
    if pieces == [] then []
    else (if Trim(pieces[0]) == "" then [] else [Trim(pieces[0])]) + Keep(pieces[1..])
  }

  function Statements(sql: string): seq<string> {
    Keep(Lex(sql, Top).pieces)
  }

  function Normalize(sql: string): string {
    Join(Statements(sql), "; ")
  }

  // ---------------------------------------------------------------- the five-flag scanner

  lemma {:induction false} KeepConcat(a: seq<string>, b: seq<string>)
    ensures Keep(a + b) == Keep(a) + Keep(b)
  {
    hide Trim;
    if a == [] {
      assert a + b == b;
    } else {
      assert (a + b)[1..] == a[1..] + b;
      KeepConcat(a[1..], b);
    }
  }

  /** The lexing of a text whose finished pieces are `done` and whose open piece starts with `current`. */
  ghost function Resume(done: seq<string>, current: string, rest: Lexed): Lexed
    requires |rest.pieces| > 0
  {
    Lexed(done + Prepend(current, rest).pieces, rest.end)
  }

  /** The scanner state after the first i characters. */
  ghost predicate Scanned(sql: string, i: nat, mode: Mode, done: seq<string>, current: string) {
    i <= |sql| && Lex(sql, Top) == Resume(done, current, Lex(sql[i..], mode))
  }

  lemma ScanStart(sql: string)
    ensures Scanned(sql, 0, Top, [], "")
  {
    var r := Lex(sql, Top);
    assert sql[0..] == sql && "" + r.pieces[0] == r.pieces[0];
    assert [] + Prepend("", r).pieces == r.pieces;
  }

  lemma ScanSkip(sql: string, i: nat, mode: Mode, done: seq<string>, current: string)
    requires Scanned(sql, i, mode, done, current) && i < |sql| && Advance(sql[i..], mode).Skip?
    ensures Scanned(sql, i + Advance(sql[i..], mode).width, Advance(sql[i..], mode).next, done, current)
  {
    var t := Advance(sql[i..], mode);
    assert sql[i..][t.width..] == sql[i + t.width..];
  }

  lemma ScanCut(sql: string, i: nat, done: seq<string>, current: string)
    requires Scanned(sql, i, Top, done, current) && i < |sql| && Advance(sql[i..], Top).Cut?
    ensures Scanned(sql, i + 1, Top, done + [current], "")
    ensures Keep(done + [current]) == Keep(done) + Keep([current])
  {
    var s := sql[i..];
    assert s[1..] == sql[i + 1..];
    var r := Lex(s[1..], Top);
    assert current + "" == current && "" + r.pieces[0] == r.pieces[0];
    assert Prepend("", r).pieces == r.pieces;
    assert Prepend(current, Lex(s, Top)).pieces == [current] + r.pieces;
    assert done + ([current] + r.pieces) == done + [current] + r.pieces;
    KeepConcat(done, [current]);
  }

  lemma ScanEmit(sql: string, i: nat, mode: Mode, done: seq<string>, current: string)
    requires Scanned(sql, i, mode, done, current) && i < |sql| && Advance(sql[i..], mode).Emit?
    ensures Scanned(sql, i + 1, Toggle(sql[i], mode), done, current + [sql[i]])
  {
    var s := sql[i..];
    assert s[1..] == sql[i + 1..];
    var r := Lex(s[1..], Toggle(s[0], mode));
    assert current + ([s[0]] + r.pieces[0]) == current + [s[0]] + r.pieces[0];
    assert Prepend(current, Lex(s, mode)).pieces == Prepend(current + [s[0]], r).pieces;
  }

  lemma ScanEnd(sql: string, mode: Mode, done: seq<string>, current: string)
    requires Scanned(sql, |sql|, mode, done, current)
    ensures Statements(sql) == Keep(done) + Keep([current])
  {
    assert sql[|sql|..] == "";
    assert Prepend(current, Lexed([""], mode)).pieces == [current + ""];
    assert current + "" == current;
    assert Lex(sql, Top).pieces == done + [current];
    KeepConcat(done, [current]);
  }

  /** The source's pass; its five flags are never more than the one that `mode` names. */
  method SplitStatements(sql: string) returns (statements: seq<string>)
    ensures statements == Statements(sql)
  {
    hide Scanned, Trim;
    statements := [];
    var current := "";
    var i := 0;
    var inSingle, inDouble, inBacktick, inLine, inBlock := false, false, false, false, false;
    ghost var done: seq<string> := [];
    ghost var mode := Top;
    ScanStart(sql);

    while i < |sql|
      invariant i <= |sql|
      invariant inSingle == (mode == Single) && inDouble == (mode == Double) && inBacktick == (mode == Backtick)
      invariant inLine == (mode == LineComment) && inBlock == (mode == BlockComment)
      invariant Scanned(sql, i, mode, done, current)
      invariant statements == Keep(done)
    {
      ghost var token := Advance(sql[i..], mode);
      if token.Skip? {
        ScanSkip(sql, i, mode, done, current);
        mode := token.next;
      } else if token.Emit? {
        ScanEmit(sql, i, mode, done, current);
        mode := token.next;
      } else {
        ScanCut(sql, i, done, current);
        done := done + [current];
      }
      var ch := sql[i];
      i := i + 1;

      if inLine {
        if ch == '\n' {
          inLine := false;
        }
        continue;
      }

      if inBlock {
        if ch == '*' && i < |sql| && sql[i] == '/' {
          i := i + 1;
          inBlock := false;
        }
        continue;
      }

      if !inSingle && !inDouble && !inBacktick {
        if ch == '-' && i < |sql| && sql[i] == '-' {
          i := i + 1;
          inLine := true;
          continue;
        }

        if ch == '#' {
          inLine := true;
          continue;
        }

        if ch == '/' && i < |sql| && sql[i] == '*' {
          i := i + 1;
          inBlock := true;
          continue;
        }
      }

      if ch == '\'' && !inDouble && !inBacktick {
        inSingle := !inSingle;
        current := current + [ch];
      } else if ch == '"' && !inSingle && !inBacktick {
        inDouble := !inDouble;
        current := current + [ch];
      } else if ch == '`' && !inSingle && !inDouble {
        inBacktick := !inBacktick;
        current := current + [ch];
      } else if ch == ';' && !inSingle && !inDouble && !inBacktick {
        var statement := Trim(current);
        if statement != "" {
          statements := statements + [statement];
        }
        current := "";
      } else {
        current := current + [ch];
      }
    }

    ScanEnd(sql, mode, done, current);
    var trailing := Trim(current);
    if trailing != "" {
      statements := statements + [trailing];
    }
  }

  // ---------------------------------------------------------------- pieces and comments

  /** The input without its comments. */
  function Uncomment(s: string, m: Mode): string
    decreases |s|
  {
    if s == "" then ""
    else
      match Advance(s, m)
      case Skip(width, next) => Uncomment(s[width..], next)
      case Cut => [s[0]] + Uncomment(s[1..], Top)
      case Emit(next) => [s[0]] + Uncomment(s[1..], next)
  }

  lemma JoinPrepend(c: char, pieces: seq<string>)
    requires pieces != []
    ensures Join([[c] + pieces[0]] + pieces[1..], ";") == [c] + Join(pieces, ";")
  {
    assert ([[c] + pieces[0]] + pieces[1..])[1..] == pieces[1..];
    if |pieces| > 1 {
      assert [c] + pieces[0] + ";" + Join(pieces[1..], ";") == [c] + (pieces[0] + ";" + Join(pieces[1..], ";"));
    }
  }

  lemma JoinCut(pieces: seq<string>)
    requires pieces != []
    ensures Join([""] + pieces, ";") == ";" + Join(pieces, ";")
  {
    assert ([""] + pieces)[1..] == pieces;
    assert "" + ";" + Join(pieces, ";") == ";" + Join(pieces, ";");
  }

  /** The untrimmed pieces rejoined with semicolons are the input without its comments. */
  lemma {:induction false} PiecesRejoin(s: string, m: Mode)
    ensures Join(Lex(s, m).pieces, ";") == Uncomment(s, m)
    decreases |s|
  {
    hide Join;
    if s == "" {
      JoinOne("");
    } else {
      match Advance(s, m)
      case Skip(width, next) =>
        PiecesRejoin(s[width..], next);
      case Cut =>
        PiecesRejoin(s[1..], Top);
        JoinCut(Lex(s[1..], Top).pieces);
      case Emit(next) =>
        PiecesRejoin(s[1..], next);
        JoinPrepend(s[0], Lex(s[1..], next).pieces);
    }
  }

  lemma JoinOne(s: string)
    ensures Join([s], ";") == s
  {
  }

  /** The mode after s when only quotes count. */
  function QuoteEnd(s: string, m: Mode): Mode {
    if s == "" then m else QuoteEnd(s[1..], Toggle(s[0], m))
  }

  /** No semicolon of s is outside quotes. */
  predicate Unsplit(s: string, m: Mode) {
    s != "" ==> !(m == Top && s[0] == ';') && Unsplit(s[1..], Toggle(s[0], m))
  }

  /** The text never opens a comment. */
  predicate CommentFree(s: string, m: Mode) {
    s != "" ==>
      && !Advance(s, m).Skip?
      && CommentFree(s[1..], Toggle(s[0], m))
  }

  /** A statement text as the scanner returns it. */
  predicate IsStatement(s: string) {
    s != "" && Trimmed(s) && Unsplit(s, Top)
  }

  /** Every piece holds no top-level semicolon, and each but the last leaves all quotes closed. */
  predicate WellSplit(pieces: seq<string>, m: Mode) {
    pieces != [] ==>
      && Unsplit(pieces[0], m)
      && (|pieces| > 1 ==> QuoteEnd(pieces[0], m) == Top)
      && WellSplit(pieces[1..], Top)
  }

  lemma WellSplitPrepend(c: char, pieces: seq<string>, m: Mode)
    requires pieces != [] && WellSplit(pieces, Toggle(c, m)) && !(m == Top && c == ';')
    ensures WellSplit([[c] + pieces[0]] + pieces[1..], m)
  {
    assert ([c] + pieces[0])[1..] == pieces[0];
    assert ([[c] + pieces[0]] + pieces[1..])[1..] == pieces[1..];
  }

  lemma AdvanceFacts(s: string, m: Mode)
    requires s != ""
    ensures match Advance(s, m)
            case Skip(_, next) => (if InComment(next) then Top else next) == if InComment(m) then Top else m
            case Cut => m == Top && s[0] == ';'
            case Emit(next) => !InComment(m) && next == Toggle(s[0], m) && !(m == Top && s[0] == ';')
  {
  }

  lemma {:induction false} PiecesAreWellSplit(s: string, m: Mode)
    ensures WellSplit(Lex(s, m).pieces, if InComment(m) then Top else m)
    decreases |s|
  {
    hide Advance;
    if s != "" {
      AdvanceFacts(s, m);
      match Advance(s, m)
      case Skip(width, next) =>
        PiecesAreWellSplit(s[width..], next);
      case Cut =>
        PiecesAreWellSplit(s[1..], Top);
        assert Lex(s, m).pieces[1..] == Lex(s[1..], Top).pieces;
      case Emit(next) =>
        PiecesAreWellSplit(s[1..], next);
        var r := Lex(s[1..], next);
        WellSplitPrepend(s[0], r.pieces, m);
    }
  }

  // ---------------------------------------------------------------- splitting the normal form

  lemma {:induction false} QuotesConcat(a: string, b: string, m: Mode)
    ensures QuoteEnd(a + b, m) == QuoteEnd(b, QuoteEnd(a, m))
    ensures Unsplit(a + b, m) <==> Unsplit(a, m) && Unsplit(b, QuoteEnd(a, m))
  {
    if a == "" {
      assert a + b == b;
    } else {
      assert (a + b)[1..] == a[1..] + b;
      QuotesConcat(a[1..], b, Toggle(a[0], m));
    }
  }

  lemma {:induction false} WhitespaceQuotes(w: string, m: Mode)
    requires AllWhitespace(w) && !InComment(m)
    ensures QuoteEnd(w, m) == m
  {
    if w != "" {
      WhitespaceQuotes(w[1..], m);
    }
  }

  lemma {:induction false} QuoteEndInComment(s: string, m: Mode)
    requires !InComment(m)
    ensures !InComment(QuoteEnd(s, m))
  {
    if s != "" {
      QuoteEndInComment(s[1..], Toggle(s[0], m));
    }
  }

  lemma TrimQuotes(p: string)
    requires Unsplit(p, Top)
    ensures Unsplit(Trim(p), Top) && QuoteEnd(Trim(p), Top) == QuoteEnd(p, Top)
  {
    hide Unsplit, QuoteEnd, Trim;
    var left, right := TrimParts(p);
    QuotesConcat(left + Trim(p), right, Top);
    QuotesConcat(left, Trim(p), Top);
    WhitespaceQuotes(left, Top);
    QuoteEndInComment(Trim(p), Top);
    WhitespaceQuotes(right, QuoteEnd(Trim(p), Top));
  }

  /** A list of statements as the scanner returns it: only the last may leave a quote open. */
  predicate IsStatementList(statements: seq<string>) {
    statements != [] ==>
      && IsStatement(statements[0])
      && (|statements| > 1 ==> QuoteEnd(statements[0], Top) == Top)
      && IsStatementList(statements[1..])
  }

  lemma StatementListCons(t: string, rest: seq<string>)
    requires IsStatement(t) && IsStatementList(rest) && (rest != [] ==> QuoteEnd(t, Top) == Top)
    ensures IsStatementList([t] + rest)
  {
    assert ([t] + rest)[1..] == rest;
  }

  lemma {:induction false} KeptAreStatements(pieces: seq<string>)
    requires WellSplit(pieces, Top)
    ensures IsStatementList(Keep(pieces))
  {
    if pieces != [] {
      hide Trim, Unsplit, QuoteEnd;
      KeptAreStatements(pieces[1..]);
      TrimQuotes(pieces[0]);
      TrimIsTrimmed(pieces[0]);
      var rest := Keep(pieces[1..]);
      if Trim(pieces[0]) != "" {
        StatementListCons(Trim(pieces[0]), rest);
        assert Keep(pieces) == [Trim(pieces[0])] + rest;
      } else {
        assert Keep(pieces) == rest;
      }
    }
  }

  lemma StatementsAreStatements(sql: string)
    ensures IsStatementList(Statements(sql))
  {
    PiecesAreWellSplit(sql, Top);
    KeptAreStatements(Lex(sql, Top).pieces);
  }

  lemma LexKeeps(s: string, m: Mode)
    requires s != "" && !InComment(m) && CommentFree(s, m) && !(m == Top && s[0] == ';')
    ensures Lex(s, m) == Prepend([s[0]], Lex(s[1..], Toggle(s[0], m)))
    ensures CommentFree(s[1..], Toggle(s[0], m))
  {
    hide Toggle, Prepend;
  }

  /** Over comment-free text, a part without a top-level semicolon stays in one piece. */
  lemma {:induction false} LexUnsplit(a: string, b: string, m: Mode)
    requires !InComment(m) && Unsplit(a, m) && CommentFree(a + b, m)
    ensures Lex(a + b, m) == Prepend(a, Lex(b, QuoteEnd(a, m)))
    ensures CommentFree(b, QuoteEnd(a, m))
  {
    hide Prepend, Lex, CommentFree;
    if a == "" {
      assert a + b == b;
      PrependNothing(Lex(b, m));
    } else {
      assert (a + b)[1..] == a[1..] + b && (a + b)[0] == a[0];
      LexKeeps(a + b, m);
      LexUnsplit(a[1..], b, Toggle(a[0], m));
      PrependTwice([a[0]], a[1..], Lex(b, QuoteEnd(a, m)));
      assert [a[0]] + a[1..] == a;
    }
  }

  lemma LexCut(rest: string)
    ensures Lex(";" + rest, Top) == Lexed([""] + Lex(rest, Top).pieces, Lex(rest, Top).end)
  {
    hide Prepend;
    var s := ";" + rest;
    assert s[0] == ';' && s[1..] == rest;
    assert Advance(s, Top) == Cut;
    hide Advance;
  }

  lemma CommentFreeAfterCut(rest: string)
    requires CommentFree(";" + rest, Top)
    ensures CommentFree(rest, Top)
  {
    hide Advance;
    assert (";" + rest)[1..] == rest;
  }

  lemma LexTwo(a: string, rest: string)
    requires Unsplit(a, Top) && QuoteEnd(a, Top) == Top && CommentFree(a + (";" + rest), Top)
    ensures Lex(a + (";" + rest), Top).pieces == [a] + Lex(rest, Top).pieces
    ensures CommentFree(rest, Top)
  {
    hide Lex, CommentFree, Unsplit, QuoteEnd;
    LexUnsplit(a, ";" + rest, Top);
    LexCut(rest);
    CommentFreeAfterCut(rest);
    assert a + "" == a;
  }

  lemma LexOne(a: string)
    requires Unsplit(a, Top) && CommentFree(a, Top)
    ensures Lex(a, Top).pieces == [a]
  {
    assert a + "" == a;
    LexUnsplit(a, "", Top);
  }

  lemma KeepCons(p: string, pieces: seq<string>)
    ensures Keep([p] + pieces) == (if Trim(p) == "" then [] else [Trim(p)]) + Keep(pieces)
  {
    assert ([p] + pieces)[1..] == pieces;
  }

  lemma {:induction false} LexJoined(pad: string, statements: seq<string>)
    requires AllWhitespace(pad) && statements != [] && IsStatementList(statements)
    requires CommentFree(pad + Join(statements, "; "), Top)
    ensures Keep(Lex(pad + Join(statements, "; "), Top).pieces) == statements
    decreases |statements|
  {
    hide Trim, Lex, CommentFree, Unsplit, QuoteEnd;
    var a := pad + statements[0];
    QuotesConcat(pad, statements[0], Top);
    WhitespaceQuotes(pad, Top);
    WhitespaceUnsplit(pad);
    TrimPadded(pad, statements[0]);
    if |statements| == 1 {
      LexOne(a);
      KeepCons(a, []);
      assert [a] + [] == [a];
    } else {
      var rest := " " + Join(statements[1..], "; ");
      assert pad + Join(statements, "; ") == a + (";" + rest);
      LexTwo(a, rest);
      LexJoined(" ", statements[1..]);
      KeepCons(a, Lex(rest, Top).pieces);
      assert [statements[0]] + statements[1..] == statements;
    }
  }

  lemma {:induction false} WhitespaceUnsplit(w: string)
    requires AllWhitespace(w)
    ensures Unsplit(w, Top)
  {
    if w != "" {
      WhitespaceUnsplit(w[1..]);
    }
  }

  lemma NothingToSplit()
    ensures Statements("") == []
  {
    assert Keep([""]) == [] + Keep([""][1..]);
  }

  /** When the normal form opens no comment, splitting it gives the statements back. */
  lemma NormalFormSplitsBack(sql: string)
    requires CommentFree(Normalize(sql), Top)
    ensures Statements(Normalize(sql)) == Statements(sql)
  {
    hide Lex, CommentFree, IsStatementList, Keep;
    StatementsAreStatements(sql);
    if Statements(sql) == [] {
      NothingToSplit();
    } else {
      assert "" + Normalize(sql) == Normalize(sql);
      LexJoined("", Statements(sql));
    }
  }

  // ---------------------------------------------------------------- comment-free input

  lemma {:induction false} CommentFreeParts(a: string, b: string, m: Mode)
    requires CommentFree(a + b, m)
    ensures CommentFree(a, m) && CommentFree(b, QuoteEnd(a, m))
  {
    if a == "" {
      assert a + b == b;
    } else {
      assert (a + b)[1..] == a[1..] + b && (a + b)[0] == a[0];
      assert |a| > 1 ==> (a + b)[1] == a[1];
      CommentFreeParts(a[1..], b, Toggle(a[0], m));
    }
  }

  lemma {:induction false} CommentFreeThenSemicolon(a: string, b: string, m: Mode)
    requires CommentFree(a, m) && b != "" && b[0] == ';' && CommentFree(b, QuoteEnd(a, m))
    ensures CommentFree(a + b, m)
  {
    if a == "" {
      assert a + b == b;
    } else {
      assert (a + b)[1..] == a[1..] + b && (a + b)[0] == a[0];
      assert |a| > 1 ==> (a + b)[1] == a[1];
      CommentFreeThenSemicolon(a[1..], b, Toggle(a[0], m));
    }
  }

  lemma TrimCommentFree(p: string)
    requires CommentFree(p, Top)
    ensures CommentFree(Trim(p), Top)
  {
    hide CommentFree, QuoteEnd, Trim;
    var left, right := TrimParts(p);
    CommentFreeParts(left + Trim(p), right, Top);
    CommentFreeParts(left, Trim(p), Top);
    WhitespaceQuotes(left, Top);
  }

  lemma JoinCommentFree(t: string, kept: seq<string>)
    requires CommentFree(t, Top) && QuoteEnd(t, Top) == Top
    requires kept != [] && CommentFree(Join(kept, "; "), Top)
    ensures CommentFree(Join([t] + kept, "; "), Top)
  {
    var tail := "; " + Join(kept, "; ");
    assert tail[1..] == " " + Join(kept, "; ") && tail[1..][1..] == Join(kept, "; ");
    assert CommentFree(tail[1..], Top);
    CommentFreeThenSemicolon(t, tail, Top);
    assert ([t] + kept)[1..] == kept;
    assert t + tail == t + "; " + Join(kept, "; ");
  }

  lemma {:induction false} KeepCommentFree(pieces: seq<string>)
    requires WellSplit(pieces, Top) && CommentFree(Join(pieces, ";"), Top)
    ensures CommentFree(Join(Keep(pieces), "; "), Top)
  {
    hide Trim, Unsplit, QuoteEnd;
    if pieces == [] {
    } else if |pieces| == 1 {
      TrimCommentFree(pieces[0]);
      assert Keep(pieces[1..]) == [];
      assert Keep(pieces) == if Trim(pieces[0]) == "" then [] else [Trim(pieces[0])];
    } else {
      var p, rest := pieces[0], Join(pieces[1..], ";");
      assert Join(pieces, ";") == p + (";" + rest);
      CommentFreeParts(p, ";" + rest, Top);
      assert (";" + rest)[1..] == rest;
      KeepCommentFree(pieces[1..]);
      TrimCommentFree(p);
      TrimQuotes(p);
      var kept := Keep(pieces[1..]);
      if Trim(p) == "" {
        assert Keep(pieces) == kept;
      } else if kept == [] {
        assert Keep(pieces) == [Trim(p)];
      } else {
        JoinCommentFree(Trim(p), kept);
      }
    }
  }

  lemma {:induction false} UncommentCommentFree(s: string, m: Mode)
    requires CommentFree(s, m)
    ensures Uncomment(s, m) == s
    decreases |s|
  {
    if s != "" {
      UncommentCommentFree(s[1..], Toggle(s[0], m));
      assert [s[0]] + s[1..] == s;
    }
  }

  /** On comment-free input the pieces are the input itself, and splitting the normal form
      returns the same statements. */
  lemma CommentFreeInput(sql: string)
    requires CommentFree(sql, Top)
    ensures Join(Lex(sql, Top).pieces, ";") == sql
    ensures CommentFree(Normalize(sql), Top)
    ensures Statements(Normalize(sql)) == Statements(sql)
  {
    PiecesRejoin(sql, Top);
    UncommentCommentFree(sql, Top);
    PiecesAreWellSplit(sql, Top);
    KeepCommentFree(Lex(sql, Top).pieces);
    NormalFormSplitsBack(sql);
  }

  // ---------------------------------------------------------------- when normalising is idempotent

  lemma SolidSplit(s: string, width: nat)
    requires 0 < width <= |s|
    ensures Solid(s[width..]) <= Solid(s)
    ensures !IsWhitespace(s[0]) ==> Solid(s[width..]) < Solid(s)
  {
    assert s == s[..width] + s[width..];
    SolidConcat(s[..width], s[width..]);
    assert s[..width][0] == s[0];
  }

  lemma SolidCons(c: char, s: string)
    ensures Solid([c] + s) == (if IsWhitespace(c) then 0 else 1) + Solid(s)
  {
    assert ([c] + s)[1..] == s;
  }

  /** Dropping comments never adds a solid character, and dropping one drops at least one. */
  lemma SkipIsSolid(s: string, m: Mode)
    requires s != "" && Advance(s, m).Skip? && !InComment(m)
    ensures !IsWhitespace(s[0])
  {
  }

  lemma {:induction false} SolidUncomment(s: string, m: Mode)
    ensures Solid(Uncomment(s, m)) <= Solid(s)
    ensures !InComment(m) && !CommentFree(s, m) ==> Solid(Uncomment(s, m)) < Solid(s)
    decreases |s|
  {
    hide Advance, Solid, IsWhitespace;
    if s != "" {
      AdvanceFacts(s, m);
      match Advance(s, m)
      case Skip(width, next) =>
        SolidUncomment(s[width..], next);
        SolidSplit(s, width);
        if !InComment(m) {
          SkipIsSolid(s, m);
        }
      case Cut =>
        SolidUncomment(s[1..], Top);
        assert [s[0]] + s[1..] == s;
        SolidCons(s[0], s[1..]);
        SolidCons(s[0], Uncomment(s[1..], Top));
      case Emit(next) =>
        SolidUncomment(s[1..], next);
        assert [s[0]] + s[1..] == s;
        SolidCons(s[0], s[1..]);
        SolidCons(s[0], Uncomment(s[1..], next));
    }
  }

  lemma {:induction false} SolidKeep(pieces: seq<string>)
    ensures Solid(Join(Keep(pieces), "; ")) <= Solid(Join(pieces, ";"))
  {
    hide Trim;
    if pieces == [] {
    } else {
      SolidTrim(pieces[0]);
      SolidKeep(pieces[1..]);
      var kept, t := Keep(pieces[1..]), Trim(pieces[0]);
      if |pieces| == 1 {
        assert Keep(pieces) == if t == "" then [] else [t];
      } else {
        assert Join(pieces, ";") == pieces[0] + (";" + Join(pieces[1..], ";"));
        SolidConcat(pieces[0], ";" + Join(pieces[1..], ";"));
        SolidConcat(";", Join(pieces[1..], ";"));
        assert Solid(";") == 1 by { assert ";"[1..] == ""; }
        if t == "" {
          assert Keep(pieces) == kept;
        } else if kept == [] {
          assert Keep(pieces) == [t];
        } else {
          assert ([t] + kept)[1..] == kept;
          assert Join(Keep(pieces), "; ") == t + ("; " + Join(kept, "; "));
          SolidConcat(t, "; " + Join(kept, "; "));
          SolidConcat("; ", Join(kept, "; "));
          assert Solid("; ") == 1 by { assert "; "[1..] == " " && " "[1..] == ""; }
        }
      }
    }
  }

  /** Normalising is idempotent exactly when the normal form opens no comment. */
  lemma NormalizeIdempotent(sql: string)
    ensures Normalize(Normalize(sql)) == Normalize(sql) <==> CommentFree(Normalize(sql), Top)
  {
    var n := Normalize(sql);
    if CommentFree(n, Top) {
      NormalFormSplitsBack(sql);
    } else {
      SolidUncomment(n, Top);
      PiecesRejoin(n, Top);
      SolidKeep(Lex(n, Top).pieces);
    }
  }

  lemma LexPlain(s: string, rest: string)
    requires s != "" && s[1..] == rest && Advance(s, Top) == Emit(Top) && Lex(rest, Top) == Lexed([rest], Top)
    ensures Lex(s, Top) == Lexed([s], Top)
  {
    assert Prepend([s[0]], Lexed([rest], Top)) == Lexed([[s[0]] + rest], Top);
    assert [s[0]] + rest == s;
  }

  lemma LexDashes()
    ensures Lex("-x", Top) == Lexed(["-x"], Top)
    ensures Lex("--x", Top) == Lexed([""], LineComment)
  {
    LexPlain("x", "");
    LexPlain("-x", "x");
    assert "--x"[2..] == "x" && "x"[1..] == "";
    assert Lex("x", LineComment) == Lex("", LineComment);
  }

  lemma LexAroundComment()
    ensures Lex("-/**/-x", Top) == Lexed(["--x"], Top)
  {
    hide Keep, Trim;
    LexDashes();
    var s, t, u := "-/**/-x", "/**/-x", "*/-x";
    assert s[1..] == t && t[2..] == u && u[2..] == "-x";
    assert Advance(u, BlockComment) == Skip(2, Top);
    assert Advance(t, Top) == Skip(2, BlockComment);
    assert Advance(s, Top) == Emit(Top);
    assert Lex(t, Top) == Lex(u, BlockComment) == Lex("-x", Top);
    assert "-" + "-x" == "--x";
    assert Lex(s, Top) == Prepend("-", Lexed(["-x"], Top)) == Lexed(["--x"], Top);
  }

  lemma KeepNothing()
    ensures Keep([]) == []
  {
  }

  /** Erasing a comment can join its neighbours into a comment opener. */
  lemma NormalizeNotIdempotent()
    ensures Normalize("-/**/-x") == "--x"
    ensures Normalize("--x") == ""
  {
    hide Lex, Keep, Trim, TrimStart, TrimEnd;
    LexDashes();
    LexAroundComment();
    TrimOfTrimmed("--x");
    TrimOfTrimmed("");
    KeepNothing();
    KeepCons("--x", []);
    KeepCons("", []);
    assert ["--x"] + [] == ["--x"] && [""] + [] == [""];
  }
}
