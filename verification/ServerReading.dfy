/** How the server reads a text that the guard has assessed: where its reading is the scanner's, and where not. */
module ServerReading {
  import opened Text
  import opened SqlLexer
  import opened SafeMode

  // ---------------------------------------------------------------- the server's lexer

  predicate IsServerSpace(c: char) {
    '\t' <= c <= '\r' || c == ' '
  }

  /** The characters that the scanner takes for the start of a comment. */
  predicate OpensComment(s: string) {
    s != "" && (s[0] == '#' || (|s| > 1 && s[0] == '-' && s[1] == '-') || (|s| > 1 && s[0] == '/' && s[1] == '*'))
  }

  /** The server executes what follows an exclamation mark, and wants an ASCII space or control character, or
      the end of the text, behind two dashes. */
  predicate IsServerComment(s: string)
    requires OpensComment(s)
  {
    || s[0] == '#'
    || (s[0] == '-' && (|s| == 2 || s[2] <= ' ' || s[2] == '\U{7F}'))
    || (s[0] == '/' && !(|s| > 2 && s[2] == '!'))
  }

  /** Inside a string, a backslash takes the next character. */
  datatype ServerMode = Reading(mode: Mode) | Escaping(quote: Mode)

  datatype ServerToken = Drop(width: nat, next: Mode) | End | Take(after: ServerMode)

  predicate IsString(m: Mode) {
    m.Single? || m.Double?
  }

  function ServerAdvance(s: string, m: ServerMode): (t: ServerToken)
    requires s != ""
    ensures t.Drop? ==> 1 <= t.width <= |s|
  {
    match m
    case Escaping(quote) => Take(Reading(quote))
    case Reading(mode) =>
      if IsString(mode) && s[0] == '\\' then Take(Escaping(mode))
      else if mode.Top? && OpensComment(s) && !IsServerComment(s) then Take(Reading(Top))
      else
        match Advance(s, mode)
        case Skip(width, next) => Drop(width, next)
        case Cut => End
        case Emit(next) => Take(Reading(next))
  }

  function OnFirst(a: string, pieces: seq<string>): (r: seq<string>)
    requires pieces != []
    ensures |r| == |pieces|
  {
    [a + pieces[0]] + pieces[1..]
  }

  /** The texts between the server's semicolons. A comment reads as a space. */
  function ServerPieces(s: string, m: ServerMode): (pieces: seq<string>)
    ensures pieces != []
    decreases |s|
  {
    if s == "" then [""]
    else
      match ServerAdvance(s, m)
      case Drop(width, next) =>
        OnFirst(if m == Reading(Top) then " " else "", ServerPieces(s[width..], Reading(next)))
      case End => [""] + ServerPieces(s[1..], Reading(Top))
      case Take(after) => OnFirst([s[0]], ServerPieces(s[1..], after))
  }

  function Repeated(b: bool, n: nat): (r: seq<bool>)
    ensures |r| == n && forall i :: 0 <= i < n ==> r[i] == b
  {
    seq(n, _ => b)
  }

  /** For each character, whether the scanner keeps it. */
  function ScannerKeeps(s: string, m: Mode): (kept: seq<bool>)
    ensures |kept| == |s|
    decreases |s|
  {
    if s == "" then []
    else
      match Advance(s, m)
      case Skip(width, next) => Repeated(false, width) + ScannerKeeps(s[width..], next)
      case Cut => [true] + ScannerKeeps(s[1..], Top)
      case Emit(next) => [true] + ScannerKeeps(s[1..], next)
  }

  /** For each character, whether it is part of what the server executes. */
  function ServerKeeps(s: string, m: ServerMode): (kept: seq<bool>)
    ensures |kept| == |s|
    decreases |s|
  {
    if s == "" then []
    else
      match ServerAdvance(s, m)
      case Drop(width, next) => Repeated(false, width) + ServerKeeps(s[width..], Reading(next))
      case End => [true] + ServerKeeps(s[1..], Reading(Top))
      case Take(after) => [true] + ServerKeeps(s[1..], after)
  }

  // ---------------------------------------------------------------- texts that both read alike

  /** Every comment that the scanner opens is one for the server. */
  predicate SharedComments(s: string, m: ServerMode)
    decreases |s|
  {
    s != "" ==>
      && (m == Reading(Top) && OpensComment(s) ==> IsServerComment(s))
      && match ServerAdvance(s, m)
         case Drop(width, next) => SharedComments(s[width..], Reading(next))
         case End => SharedComments(s[1..], Reading(Top))
         case Take(after) => SharedComments(s[1..], after)
  }

  function QuoteOf(m: Mode): char {
    if m.Double? then '"' else '\''
  }

  /** No backslash in a string takes the string's own quote. */
  predicate QuotesKept(s: string, m: ServerMode)
    decreases |s|
  {
    s != "" ==>
      && (m.Escaping? ==> s[0] != QuoteOf(m.quote))
      && match ServerAdvance(s, m)
         case Drop(width, next) => QuotesKept(s[width..], Reading(next))
         case End => QuotesKept(s[1..], Reading(Top))
         case Take(after) => QuotesKept(s[1..], after)
  }

  function ScannerMode(m: ServerMode): Mode {
    match m case Reading(mode) => mode case Escaping(quote) => quote
  }

  predicate InString(m: ServerMode) {
    m.Escaping? ==> IsString(m.quote)
  }

  lemma StepAlike(s: string, m: ServerMode)
    requires s != "" && InString(m)
    requires m.Escaping? ==> s[0] != QuoteOf(m.quote)
    requires m == Reading(Top) && OpensComment(s) ==> IsServerComment(s)
    ensures match Advance(s, ScannerMode(m))
            case Skip(width, next) => ServerAdvance(s, m) == Drop(width, next)
            case Cut => ServerAdvance(s, m) == End
            case Emit(next) => ServerAdvance(s, m).Take? && ScannerMode(ServerAdvance(s, m).after) == next
    ensures ServerAdvance(s, m).Take? ==> InString(ServerAdvance(s, m).after)
  {
    hide IsServerComment, OpensComment;
  }

  lemma {:induction false} SameKept(s: string, m: ServerMode)
    requires InString(m) && SharedComments(s, m) && QuotesKept(s, m)
    ensures ScannerKeeps(s, ScannerMode(m)) == ServerKeeps(s, m)
    decreases |s|
  {
    hide IsServerComment, OpensComment, Advance, ServerAdvance, QuoteOf;
    if s != "" {
      StepAlike(s, m);
      match ServerAdvance(s, m)
      case Drop(width, next) => SameKept(s[width..], Reading(next));
      case End => SameKept(s[1..], Reading(Top));
      case Take(after) => SameKept(s[1..], after);
    }
  }

  lemma ForeignStart(s: string)
    requires OpensComment(s) && !IsServerComment(s)
    ensures !ScannerKeeps(s, Top)[0] && ServerKeeps(s, Reading(Top))[0]
  {
  }

  lemma ForeignLater(b: bool, width: nat, scanner: seq<bool>, server: seq<bool>, i: nat)
    requires i < |scanner| && |server| == |scanner| && !scanner[i] && server[i]
    ensures !(Repeated(b, width) + scanner)[width + i] && (Repeated(b, width) + server)[width + i]
    ensures !([true] + scanner)[1 + i] && ([true] + server)[1 + i]
  {
  }

  /** Where the scanner opens a comment that is none for the server. */
  lemma {:induction false} FirstForeign(s: string, m: ServerMode) returns (i: nat)
    requires InString(m) && QuotesKept(s, m) && !SharedComments(s, m)
    ensures i < |s| && !ScannerKeeps(s, ScannerMode(m))[i] && ServerKeeps(s, m)[i]
    decreases |s|
  {
    hide IsServerComment, OpensComment, Advance, ServerAdvance, QuoteOf, Repeated;
    if m == Reading(Top) && OpensComment(s) && !IsServerComment(s) {
      ForeignStart(s);
      i := 0;
    } else {
      StepAlike(s, m);
      match ServerAdvance(s, m)
      case Drop(width, next) =>
        i := FirstForeign(s[width..], Reading(next));
        ForeignLater(false, width, ScannerKeeps(s[width..], next), ServerKeeps(s[width..], Reading(next)), i);
        i := width + i;
      case End =>
        i := FirstForeign(s[1..], Reading(Top));
        ForeignLater(false, 1, ScannerKeeps(s[1..], Top), ServerKeeps(s[1..], Reading(Top)), i);
        i := 1 + i;
      case Take(after) =>
        i := FirstForeign(s[1..], after);
        ForeignLater(false, 1, ScannerKeeps(s[1..], ScannerMode(after)), ServerKeeps(s[1..], after), i);
        i := 1 + i;
    }
  }

  /** Nothing that the scanner erased is executed. */
  ghost predicate NothingErasedRuns(sql: string) {
    forall i :: 0 <= i < |sql| && !ScannerKeeps(sql, Top)[i] ==> !ServerKeeps(sql, Reading(Top))[i]
  }

  /** Where no backslash takes a quote, nothing that the scanner erased is executed exactly when every comment
      is one for both. */
  lemma ErasedIsNotExecutedIff(sql: string)
    requires QuotesKept(sql, Reading(Top))
    ensures NothingErasedRuns(sql) <==> SharedComments(sql, Reading(Top))
  {
    if SharedComments(sql, Reading(Top)) {
      SameKept(sql, Reading(Top));
    } else {
      var i := FirstForeign(sql, Reading(Top));
    }
  }

  // ---------------------------------------------------------------- the statements of an allowed text

  /** The server's text of a piece is the scanner's, with spaces in the place of comments. */
  predicate Spread(server: string, scanner: string) {
    if server == "" then scanner == ""
    else
      || (server[0] == ' ' && Spread(server[1..], scanner))
      || (scanner != "" && server[0] == scanner[0] && Spread(server[1..], scanner[1..]))
  }

  predicate AllSpread(server: seq<string>, scanner: seq<string>) {
    |server| == |scanner| && forall k :: 0 <= k < |server| ==> Spread(server[k], scanner[k])
  }

  lemma SpreadTaken(c: char, server: seq<string>, scanner: Lexed)
    requires server != [] && AllSpread(server, scanner.pieces)
    ensures AllSpread(OnFirst([c], server), Prepend([c], scanner).pieces)
  {
    assert ([c] + server[0])[1..] == server[0] && ([c] + scanner.pieces[0])[1..] == scanner.pieces[0];
  }

  lemma SpreadDropped(a: string, server: seq<string>, scanner: seq<string>)
    requires server != [] && AllSpread(server, scanner) && (a == "" || a == " ")
    ensures AllSpread(OnFirst(a, server), scanner)
  {
    if a == "" {
      assert a + server[0] == server[0];
    } else {
      assert (a + server[0])[1..] == server[0];
    }
  }

  lemma SpreadEnded(server: seq<string>, scanner: seq<string>)
    requires AllSpread(server, scanner)
    ensures AllSpread([""] + server, [""] + scanner)
  {
    EmptySpread();
  }

  lemma {:induction false} PiecesSpread(s: string, m: ServerMode)
    requires InString(m) && SharedComments(s, m) && QuotesKept(s, m)
    ensures AllSpread(ServerPieces(s, m), Lex(s, ScannerMode(m)).pieces)
    decreases |s|
  {
    hide IsServerComment, OpensComment, Advance, ServerAdvance, QuoteOf, Spread, AllSpread, OnFirst, Prepend;
    if s == "" {
      NoPieces();
    } else {
      StepAlike(s, m);
      match ServerAdvance(s, m)
      case Drop(width, next) =>
        PiecesSpread(s[width..], Reading(next));
        SpreadDropped(if m == Reading(Top) then " " else "", ServerPieces(s[width..], Reading(next)),
                      Lex(s[width..], next).pieces);
      case End =>
        PiecesSpread(s[1..], Reading(Top));
        SpreadEnded(ServerPieces(s[1..], Reading(Top)), Lex(s[1..], Top).pieces);
      case Take(after) =>
        PiecesSpread(s[1..], after);
        SpreadTaken(s[0], ServerPieces(s[1..], after), Lex(s[1..], ScannerMode(after)));
    }
  }

  lemma NoPieces()
    ensures AllSpread([""], [""])
  {
  }

  lemma EmptySpread()
    ensures Spread("", "")
  {
  }

  predicate IsWordChar(c: char) {
    'a' <= c <= 'z' || 'A' <= c <= 'Z' || '0' <= c <= '9' || c == '_' || c == '$' || c >= '\U{80}'
  }

  function LeadingWord(s: string): string {
    if s == "" || !IsWordChar(s[0]) then "" else [s[0]] + LeadingWord(s[1..])
  }

  /** The word a piece starts with, for the server. */
  function ServerWord(piece: string): string {
    if piece != "" && IsServerSpace(piece[0]) then ServerWord(piece[1..]) else LeadingWord(piece)
  }

  predicate HasWideChar(word: string) {
    exists i :: 0 <= i < |word| && word[i] >= '\U{80}'
  }

  /** What a piece may start with: a reading keyword, or a word that is no keyword, because it is cut short by a
      comment or goes on with a character outside ASCII. */
  ghost predicate StartsReadingOrNothing(piece: string) {
    var word := ServerWord(piece);
    word != "" && (HasWideChar(word) || exists keyword :: IsSafeReadKeyword(keyword) && AsciiUppercase(word) <= keyword)
  }

  predicate IsRiskyKeyword(keyword: string) {
    || IsWriteKeyword(keyword) || IsDdlKeyword(keyword)
    || IsTransactionKeyword(keyword) || IsSessionMutationKeyword(keyword)
  }

  predicate AllLetters(s: string) {
    forall i :: 0 <= i < |s| ==> 'a' <= s[i] <= 'z' || 'A' <= s[i] <= 'Z'
  }

  lemma {:induction false} SpreadRun(server: string, word: string, tail: string)
    requires Spread(server, word + tail) && AllLetters(word) && (tail == "" || IsWhitespace(tail[0]))
    ensures HasWideChar(LeadingWord(server)) || LeadingWord(server) <= word
  {
    if server != "" && IsWordChar(server[0]) {
      assert (word + tail)[0] == server[0] && Spread(server[1..], (word + tail)[1..]);
      if word == "" {
        assert server[0] >= '\U{80}' && LeadingWord(server)[0] == server[0];
      } else {
        assert (word + tail)[1..] == word[1..] + tail;
        SpreadRun(server[1..], word[1..], tail);
        WideTail(server[0], LeadingWord(server[1..]));
        assert word == [word[0]] + word[1..];
      }
    }
  }

  lemma WideTail(c: char, word: string)
    ensures HasWideChar(word) ==> HasWideChar([c] + word)
  {
    if HasWideChar(word) {
      var i :| 0 <= i < |word| && word[i] >= '\U{80}';
      assert ([c] + word)[i + 1] == word[i];
    }
  }

  lemma {:induction false} SpreadWord(server: string, left: string, word: string, tail: string)
    requires Spread(server, left + (word + tail)) && AllWhitespace(left)
    requires word != "" && AllLetters(word) && (tail == "" || IsWhitespace(tail[0]))
    ensures ServerWord(server) != ""
    ensures HasWideChar(ServerWord(server)) || ServerWord(server) <= word
    decreases |server|
  {
    var text := left + (word + tail);
    assert text != "" && server != "";
    if server[0] == ' ' && Spread(server[1..], text) {
      SpreadWord(server[1..], left, word, tail);
    } else if left == "" {
      assert text == word + tail && word[0] == server[0];
      SpreadRun(server, word, tail);
    } else {
      assert text[1..] == left[1..] + (word + tail) && text[0] == left[0];
      if IsServerSpace(server[0]) {
        SpreadWord(server[1..], left[1..], word, tail);
      } else {
        assert IsWhitespace(server[0]) && server[0] >= '\U{80}';
        assert LeadingWord(server)[0] == server[0];
      }
    }
  }

  lemma {:induction false} SpreadBlank(server: string, scanner: string)
    requires Spread(server, scanner) && AllWhitespace(scanner)
    ensures AllWhitespace(server)
  {
    if server != "" {
      if server[0] == ' ' && Spread(server[1..], scanner) {
        SpreadBlank(server[1..], scanner);
      } else {
        SpreadBlank(server[1..], scanner[1..]);
      }
      assert forall i :: 1 <= i < |server| ==> server[i] == server[1..][i - 1];
    }
  }

  lemma {:induction false} TakenWord(s: string)
    ensures TakeWord(s) <= s
    ensures var tail := s[|TakeWord(s)|..]; tail == "" || IsWhitespace(tail[0])
  {
    if s != "" && !IsWhitespace(s[0]) {
      TakenWord(s[1..]);
      assert s == [s[0]] + s[1..];
    }
  }

  lemma KeywordLetters(keyword: string)
    requires IsSafeReadKeyword(keyword)
    ensures AllLetters(keyword) && keyword != ""
  {
  }

  lemma UppercaseLetters(word: string)
    requires AllLetters(AsciiUppercase(word))
    ensures AllLetters(word)
  {
    forall i | 0 <= i < |word|
      ensures 'a' <= word[i] <= 'z' || 'A' <= word[i] <= 'Z'
    {
      assert AsciiUppercase(word)[i] == AsciiUpper(word[i]);
    }
  }

  lemma UppercasePrefix(front: string, word: string)
    requires front <= word
    ensures AsciiUppercase(front) <= AsciiUppercase(word)
  {
    assert forall i :: 0 <= i < |front| ==> front[i] == word[i];
  }

  lemma Rejoined(left: string, word: string, rest: string, right: string)
    ensures left + (word + rest) + right == left + (word + (rest + right))
  {
  }

  /** A statement that starts with a reading keyword, cut behind it. */
  lemma KeywordFirst(statement: string) returns (word: string, rest: string)
    requires Trimmed(statement) && StartsReading(statement)
    ensures statement == word + rest && (rest == "" || IsWhitespace(rest[0]))
    ensures word != "" && AllLetters(word) && IsSafeReadKeyword(AsciiUppercase(word))
  {
    hide IsSafeReadKeyword, AllLetters, Trimmed, TakeWord, AsciiUppercase, IsWhitespace;
    TrimOfTrimmed(statement);
    word := TakeWord(statement);
    KeywordLetters(AsciiUppercase(word));
    UppercaseLetters(word);
    TakenWord(statement);
    rest := statement[|word|..];
  }

  lemma KeywordParts(scanner: string) returns (left: string, word: string, tail: string)
    requires StartsReading(Trim(scanner))
    ensures scanner == left + (word + tail) && AllWhitespace(left)
    ensures word != "" && AllLetters(word) && IsSafeReadKeyword(AsciiUppercase(word))
    ensures tail == "" || IsWhitespace(tail[0])
  {
    hide IsSafeReadKeyword, AllWhitespace, AllLetters, Trim, Trimmed, StartsReading, AsciiUppercase, IsWhitespace;
    var right, rest;
    left, right := TrimParts(scanner);
    word, rest := KeywordFirst(Trim(scanner));
    tail := rest + right;
    Rejoined(left, word, rest, right);
    TailStarts(rest, right);
  }

  lemma ReadingPiece(server: string, scanner: string)
    requires Spread(server, scanner) && StartsReading(Trim(scanner))
    ensures StartsReadingOrNothing(server)
  {
    hide Spread, IsSafeReadKeyword, ServerWord, AllWhitespace, AllLetters, Trim, HasWideChar, AsciiUppercase,
      StartsReading, IsWhitespace;
    var left, word, tail := KeywordParts(scanner);
    SpreadWord(server, left, word, tail);
    if !HasWideChar(ServerWord(server)) {
      UppercasePrefix(ServerWord(server), word);
    }
  }

  lemma TailStarts(a: string, right: string)
    requires (a == "" || IsWhitespace(a[0])) && AllWhitespace(right)
    ensures a + right == "" || IsWhitespace((a + right)[0])
  {
  }

  lemma BlankTrim(s: string)
    requires Trim(s) == ""
    ensures AllWhitespace(s)
  {
    var left, right := TrimParts(s);
    assert s == left + right;
  }

  /** At most one piece is kept: the others are blank. */
  lemma {:induction false} OneKept(pieces: seq<string>) returns (j: nat)
    requires pieces != [] && |Keep(pieces)| <= 1
    ensures j < |pieces| && forall k :: 0 <= k < |pieces| && k != j ==> Trim(pieces[k]) == ""
    ensures Keep(pieces) == if Trim(pieces[j]) == "" then [] else [Trim(pieces[j])]
  {
    hide Trim, Keep;
    j := 0;
    KeptAlone(pieces[0]);
    if |pieces| == 1 {
      assert pieces == [pieces[0]];
    } else {
      var rest := pieces[1..];
      assert pieces == [pieces[0]] + rest;
      KeepCons(pieces[0], rest);
      var i := OneKept(rest);
      assert forall k :: 1 <= k < |pieces| ==> pieces[k] == rest[k - 1];
      if Trim(pieces[0]) == "" {
        j := i + 1;
      }
    }
  }

  /** An allowed text that both read alike is, for the server too, at most one statement, and this starts with a
      reading keyword or with no keyword at all. */
  lemma AllowedIsReadingForServer(sql: string) returns (j: nat)
    requires Assess(sql).IsSafeReadOnly()
    requires SharedComments(sql, Reading(Top)) && QuotesKept(sql, Reading(Top))
    ensures var pieces := ServerPieces(sql, Reading(Top));
            && j < |pieces|
            && (forall k :: 0 <= k < |pieces| && k != j ==> AllWhitespace(pieces[k]))
            && (AllWhitespace(pieces[j]) || StartsReadingOrNothing(pieces[j]))
  {
    hide Lex, Keep, Assess, Trim, Spread, AllWhitespace, StartsReading, StartsReadingOrNothing, SharedComments,
      QuotesKept, ServerPieces;
    SafeIffOneReadingStatement(sql);
    PiecesSpread(sql, Reading(Top));
    var scanner, server := Lex(sql, Top).pieces, ServerPieces(sql, Reading(Top));
    j := OneKept(scanner);
    forall k | 0 <= k < |server| && Trim(scanner[k]) == ""
      ensures AllWhitespace(server[k])
    {
      BlankTrim(scanner[k]);
      SpreadBlank(server[k], scanner[k]);
    }
    if Trim(scanner[j]) != "" {
      ReadingPiece(server[j], scanner[j]);
    }
  }

  /** How the keywords that are not for reading start. */
  predicate RiskyStart(w: string) {
    && |w| >= 2 && w[0] != 'E' && w[0] != 'H'
    && (w[0] == 'S' ==> w[1] == 'T' || (|w| > 2 && w[1] == 'E' && w[2] == 'T'))
    && (w[0] == 'D' ==> w[1] == 'O' || w[1] == 'R' || (|w| > 2 && w[1] == 'E' && w[2] == 'L'))
    && (w[0] == 'U' ==> w[1] != 'S')
  }

  predicate ReadingStart(w: string) {
    && |w| > 2 && (w[0] == 'E' || w[0] == 'H' || w[0] == 'S' || w[0] == 'D' || w[0] == 'U')
    && (w[0] == 'S' ==> w[1] == 'H' || (w[1] == 'E' && w[2] == 'L'))
    && (w[0] == 'D' ==> w[1] == 'E' && w[2] == 'S')
    && (w[0] == 'U' ==> w[1] == 'S')
  }

  lemma WriteStarts(keyword: string)
    requires IsWriteKeyword(keyword)
    ensures RiskyStart(keyword) && AllLetters(keyword)
  {
  }

  lemma DdlStarts(keyword: string)
    requires IsDdlKeyword(keyword)
    ensures RiskyStart(keyword) && AllLetters(keyword)
  {
  }

  lemma ControlStarts(keyword: string)
    requires IsTransactionKeyword(keyword) || IsSessionMutationKeyword(keyword)
    ensures RiskyStart(keyword) && AllLetters(keyword)
  {
  }

  lemma RiskyStarts(keyword: string)
    requires IsRiskyKeyword(keyword)
    ensures RiskyStart(keyword) && AllLetters(keyword)
  {
    hide IsWriteKeyword, IsDdlKeyword, IsTransactionKeyword, IsSessionMutationKeyword, RiskyStart, AllLetters;
    if IsWriteKeyword(keyword) {
      WriteStarts(keyword);
    } else if IsDdlKeyword(keyword) {
      DdlStarts(keyword);
    } else {
      ControlStarts(keyword);
    }
  }

  lemma ReadingStarts(keyword: string)
    requires IsSafeReadKeyword(keyword)
    ensures ReadingStart(keyword)
  {
  }

  lemma WideStaysWide(word: string)
    requires HasWideChar(word)
    ensures HasWideChar(AsciiUppercase(word))
  {
    var i :| 0 <= i < |word| && word[i] >= '\U{80}';
    assert AsciiUppercase(word)[i] == AsciiUpper(word[i]) == word[i];
  }

  /** Such a piece starts with no keyword that writes, defines, controls transactions or changes the session. */
  lemma StartsWithoutRisk(piece: string)
    requires StartsReadingOrNothing(piece)
    ensures !IsRiskyKeyword(AsciiUppercase(ServerWord(piece)))
  {
    hide IsRiskyKeyword, IsSafeReadKeyword, HasWideChar, ServerWord, AsciiUppercase;
    var word := ServerWord(piece);
    var upper := AsciiUppercase(word);
    if IsRiskyKeyword(upper) {
      RiskyStarts(upper);
      if HasWideChar(word) {
        WideStaysWide(word);
      } else {
        var keyword :| IsSafeReadKeyword(keyword) && upper <= keyword;
        ReadingStarts(keyword);
      }
      assert false;
    }
  }

  // ---------------------------------------------------------------- texts that they read differently

  lemma {:induction false} BodyIsErased(body: string)
    requires forall i :: 0 <= i < |body| - 1 ==> !(body[i] == '*' && body[i + 1] == '/')
    ensures Lex(body + "*/", BlockComment) == Lexed([""], Top)
  {
    var s := body + "*/";
    if body == "" {
      assert s == "*/" && "*/"[2..] == "";
    } else {
      assert s[1..] == body[1..] + "*/" && s[0] == body[0];
      assert s[1] == if |body| > 1 then body[1] else '*';
      BodyIsErased(body[1..]);
    }
  }

  lemma CommentIsErased(body: string)
    requires forall i :: 0 <= i < |body| - 1 ==> !(body[i] == '*' && body[i + 1] == '/')
    ensures Lex("/*" + (body + "*/"), Top) == Lexed([""], Top)
  {
    hide Lex;
    CommentSkips(body + "*/");
    BodyIsErased(body);
  }

  lemma CommentSkips(rest: string)
    ensures Lex("/*" + rest, Top) == Lex(rest, BlockComment)
  {
    assert ("/*" + rest)[2..] == rest;
  }

  lemma NothingKept()
    ensures Keep([""]) == []
  {
    TrimOfTrimmed("");
  }

  lemma NoStatementIsSafe(sql: string)
    requires Statements(sql) == []
    ensures Assess(sql).IsSafeReadOnly()
  {
    hide Statements, Normalize;
  }

  lemma ThreeParts(a: string, b: string, c: string, d: string)
    ensures a + b + c + d == a + (b + c + d) && a + b + c == a + (b + c)
  {
  }

  lemma MarkedBody(body: string)
    requires forall i :: 0 <= i < |body| - 1 ==> !(body[i] == '*' && body[i + 1] == '/')
    ensures var marked := "!" + body;
            forall i :: 0 <= i < |marked| - 1 ==> !(marked[i] == '*' && marked[i + 1] == '/')
  {
  }

  lemma ExecutableIsErased(body: string)
    requires forall i :: 0 <= i < |body| - 1 ==> !(body[i] == '*' && body[i + 1] == '/')
    ensures Statements("/*!" + body + "*/") == []
  {
    hide Lex, Keep;
    MarkedBody(body);
    CommentIsErased("!" + body);
    ThreeParts("/*", "!", body, "*/");
    assert "/*" + "!" == "/*!";
    NothingKept();
  }

  /** An executable comment of any content is no statement for the scanner and needs no confirmation, and the
      server reads its content as a text of its own. */
  lemma ExecutableCommentIsAllowed(body: string)
    requires forall i :: 0 <= i < |body| - 1 ==> !(body[i] == '*' && body[i + 1] == '/')
    ensures var sql := "/*!" + body + "*/";
            && Statements(sql) == [] && Assess(sql).IsSafeReadOnly()
            && !SharedComments(sql, Reading(Top))
            && ServerPieces(sql, Reading(Top)) == OnFirst("/*!", ServerPieces(body + "*/", Reading(Top)))
  {
    hide Statements, Assess, SharedComments, ServerPieces, OnFirst;
    ExecutableIsErased(body);
    NoStatementIsSafe("/*!" + body + "*/");
    ForeignOpener(body + "*/");
    ThreeParts("/*!", body, "*/", "");
  }

  lemma ServerTakes(c: char, rest: string, m: ServerMode)
    requires ServerAdvance([c] + rest, m).Take?
    ensures var after := ServerAdvance([c] + rest, m).after;
            && ServerPieces([c] + rest, m) == OnFirst([c], ServerPieces(rest, after))
            && ServerKeeps([c] + rest, m) == [true] + ServerKeeps(rest, after)
            && (SharedComments([c] + rest, m) <==>
                 (m == Reading(Top) && OpensComment([c] + rest) ==> IsServerComment([c] + rest))
                 && SharedComments(rest, after))
            && (QuotesKept([c] + rest, m) <==>
                 (m.Escaping? ==> c != QuoteOf(m.quote)) && QuotesKept(rest, after))
  {
    hide ServerAdvance, OnFirst, OpensComment, IsServerComment, QuoteOf;
    assert ([c] + rest)[1..] == rest;
  }

  lemma TwoOnFirst(a: string, b: string, pieces: seq<string>)
    requires pieces != []
    ensures OnFirst(a, OnFirst(b, pieces)) == OnFirst(a + b, pieces)
  {
    assert a + (b + pieces[0]) == a + b + pieces[0];
  }

  lemma ForeignOpener(rest: string)
    ensures var sql := "/*!" + rest;
            && !SharedComments(sql, Reading(Top))
            && ServerPieces(sql, Reading(Top)) == OnFirst("/*!", ServerPieces(rest, Reading(Top)))
  {
    hide ServerPieces, ServerKeeps, SharedComments, QuotesKept, OnFirst;
    var pieces := ServerPieces(rest, Reading(Top));
    assert "/*!" + rest == ['/'] + ("*!" + rest) && "*!" + rest == ['*'] + ("!" + rest);
    ServerTakes('/', "*!" + rest, Reading(Top));
    ServerTakes('*', "!" + rest, Reading(Top));
    ServerTakes('!', rest, Reading(Top));
    assert ['!'] == "!" && ['*'] == "*" && ['/'] == "/" && "*" + "!" == "*!" && "/" + "*!" == "/*!";
    TwoOnFirst("*", "!", pieces);
    TwoOnFirst("/", "*!", pieces);
  }

  /** Text that both read as it stands: letters and spaces outside strings, anything but a quote or a backslash
      in a string. */
  predicate IsPlain(w: string, m: Mode) {
    forall i :: 0 <= i < |w| ==>
      if m.Single? then w[i] != '\'' && w[i] != '\\'
      else m.Top? && ('a' <= w[i] <= 'z' || 'A' <= w[i] <= 'Z' || w[i] == ' ')
  }

  lemma ScannerTakes(c: char, rest: string, m: Mode)
    requires Advance([c] + rest, m).Emit?
    ensures var next := Advance([c] + rest, m).next;
            && Lex([c] + rest, m) == Prepend([c], Lex(rest, next))
            && ScannerKeeps([c] + rest, m) == [true] + ScannerKeeps(rest, next)
  {
    hide Advance, Prepend;
    assert ([c] + rest)[1..] == rest;
  }

  lemma {:induction false} ScannerRun(w: string, rest: string, m: Mode)
    requires IsPlain(w, m)
    ensures Lex(w + rest, m) == Prepend(w, Lex(rest, m))
    ensures forall i :: 0 <= i < |rest| ==> ScannerKeeps(w + rest, m)[|w| + i] == ScannerKeeps(rest, m)[i]
  {
    hide Lex, Prepend, ScannerKeeps;
    if w == "" {
      assert w + rest == rest;
      PrependNothing(Lex(rest, m));
    } else {
      assert w + rest == [w[0]] + (w[1..] + rest) && [w[0]] + w[1..] == w;
      assert Advance(w + rest, m) == Emit(m);
      ScannerTakes(w[0], w[1..] + rest, m);
      ScannerRun(w[1..], rest, m);
      PrependTwice([w[0]], w[1..], Lex(rest, m));
    }
  }

  lemma {:induction false} ServerRun(w: string, rest: string, m: Mode)
    requires IsPlain(w, m)
    ensures ServerPieces(w + rest, Reading(m)) == OnFirst(w, ServerPieces(rest, Reading(m)))
    ensures forall i :: 0 <= i < |rest| ==>
              ServerKeeps(w + rest, Reading(m))[|w| + i] == ServerKeeps(rest, Reading(m))[i]
    ensures SharedComments(w + rest, Reading(m)) <==> SharedComments(rest, Reading(m))
    ensures QuotesKept(w + rest, Reading(m)) <==> QuotesKept(rest, Reading(m))
  {
    hide ServerPieces, OnFirst, ServerKeeps, SharedComments, QuotesKept;
    if w == "" {
      assert w + rest == rest;
      NothingOnFirst(ServerPieces(rest, Reading(m)));
    } else {
      assert w + rest == [w[0]] + (w[1..] + rest) && [w[0]] + w[1..] == w;
      assert ServerAdvance(w + rest, Reading(m)) == Take(Reading(m));
      ServerTakes(w[0], w[1..] + rest, Reading(m));
      ServerRun(w[1..], rest, m);
      TwoOnFirst([w[0]], w[1..], ServerPieces(rest, Reading(m)));
    }
  }

  lemma NothingOnFirst(pieces: seq<string>)
    requires pieces != []
    ensures OnFirst("", pieces) == pieces
  {
    assert "" + pieces[0] == pieces[0];
  }

  /** For the scanner the string ends behind the backslash; for the server the backslash takes the quote. */
  function TakenQuote(): string {
    "SELECT '\\'"
  }

  lemma TakenQuoteParts(tail: string)
    ensures TakenQuote() + tail == "SELECT " + (['\''] + (['\\'] + (['\''] + tail)))
    ensures "SELECT " + (['\''] + (['\\'] + ['\''])) == TakenQuote()
  {
  }

  lemma FourOnFirst(a: string, b: string, c: string, d: string, pieces: seq<string>)
    requires pieces != []
    ensures OnFirst(a, OnFirst(b, OnFirst(c, OnFirst(d, pieces)))) == OnFirst(a + (b + (c + d)), pieces)
  {
    hide OnFirst;
    TwoOnFirst(c, d, pieces);
    TwoOnFirst(b, c + d, pieces);
    TwoOnFirst(a, b + (c + d), pieces);
  }

  lemma FourPrepends(a: string, b: string, c: string, d: string, r: Lexed)
    requires |r.pieces| > 0
    ensures Prepend(a, Prepend(b, Prepend(c, Prepend(d, r)))) == Prepend(a + (b + (c + d)), r)
  {
    hide Prepend;
    PrependTwice(c, d, r);
    PrependTwice(b, c + d, r);
    PrependTwice(a, b + (c + d), r);
  }

  lemma TakenQuoteScanned(tail: string)
    ensures Lex(TakenQuote() + tail, Top) == Prepend(TakenQuote(), Lex(tail, Top))
    ensures tail != "" ==> ScannerKeeps(TakenQuote() + tail, Top)[10] == ScannerKeeps(tail, Top)[0]
  {
    hide Lex, Prepend, ScannerKeeps;
    var c := ['\''] + tail;
    var b := ['\\'] + c;
    ScannerTakes('\'', tail, Single);
    ScannerTakes('\\', c, Single);
    ScannerTakes('\'', b, Top);
    ScannerRun("SELECT ", ['\''] + b, Top);
    TakenQuoteParts(tail);
    FourPrepends("SELECT ", ['\''], ['\\'], ['\''], Lex(tail, Top));
    if tail != "" {
      assert ScannerKeeps("SELECT " + (['\''] + b), Top)[7 + 3] == ScannerKeeps(['\''] + b, Top)[3];
    }
  }

  lemma TakenQuoteRead(tail: string)
    ensures ServerPieces(TakenQuote() + tail, Reading(Top)) ==
            OnFirst(TakenQuote(), ServerPieces(tail, Reading(Single)))
    ensures tail != "" ==> ServerKeeps(TakenQuote() + tail, Reading(Top))[10] == ServerKeeps(tail, Reading(Single))[0]
    ensures SharedComments(TakenQuote() + tail, Reading(Top)) <==> SharedComments(tail, Reading(Single))
    ensures !QuotesKept(TakenQuote() + tail, Reading(Top))
  {
    hide ServerPieces, OnFirst, ServerKeeps, SharedComments, QuotesKept;
    var c := ['\''] + tail;
    var b := ['\\'] + c;
    ServerTakes('\'', tail, Escaping(Single));
    ServerTakes('\\', c, Reading(Single));
    ServerTakes('\'', b, Reading(Top));
    ServerRun("SELECT ", ['\''] + b, Top);
    TakenQuoteParts(tail);
    FourOnFirst("SELECT ", ['\''], ['\\'], ['\''], ServerPieces(tail, Reading(Single)));
    if tail != "" {
      assert ServerKeeps("SELECT " + (['\''] + b), Reading(Top))[7 + 3] == ServerKeeps(['\''] + b, Reading(Top))[3];
    }
  }

  /** The server's string ends, and a second statement begins. */
  lemma SecondStatement(rest: string)
    ensures ServerPieces("'; DROP TABLE t" + rest, Reading(Single)) ==
            ["'"] + OnFirst(" DROP TABLE t", ServerPieces(rest, Reading(Top)))
    ensures SharedComments("'; DROP TABLE t" + rest, Reading(Single)) <==> SharedComments(rest, Reading(Top))
  {
    hide ServerPieces, OnFirst, ServerKeeps, SharedComments, QuotesKept;
    var b := " DROP TABLE t" + rest;
    assert "'; DROP TABLE t" + rest == ['\''] + (";" + b);
    ServerTakes('\'', ";" + b, Reading(Single));
    ServerEnds(b);
    ServerRun(" DROP TABLE t", rest, Top);
    QuoteAlone(ServerPieces(b, Reading(Top)));
  }

  lemma ServerEnds(rest: string)
    ensures ServerPieces(";" + rest, Reading(Top)) == [""] + ServerPieces(rest, Reading(Top))
    ensures SharedComments(";" + rest, Reading(Top)) <==> SharedComments(rest, Reading(Top))
  {
    assert (";" + rest)[1..] == rest;
  }

  lemma QuoteAlone(pieces: seq<string>)
    ensures OnFirst(['\''], [""] + pieces) == ["'"] + pieces
  {
    assert ['\''] + "" == "'";
  }

  lemma {:induction false} LineIsErased(s: string)
    requires '\n' !in s
    ensures Lex(s, LineComment) == Lexed([""], LineComment)
  {
    if s != "" {
      LineIsErased(s[1..]);
    }
  }

  lemma SelectIsReading(rest: string)
    requires Trimmed("SELECT " + rest)
    ensures StartsReading("SELECT " + rest)
  {
    var s := "SELECT " + rest;
    TrimOfTrimmed(s);
    assert s == "SELECT" + (" " + rest);
    WordTaken("SELECT", " " + rest);
    assert AsciiUppercase("SELECT") == "SELECT";
  }

  lemma {:induction false} WordTaken(word: string, rest: string)
    requires AllLetters(word) && rest != "" && IsWhitespace(rest[0])
    ensures TakeWord(word + rest) == word
  {
    if word == "" {
      assert word + rest == rest;
    } else {
      assert (word + rest)[1..] == word[1..] + rest;
      WordTaken(word[1..], rest);
    }
  }

  lemma OneStatementIsSafe(sql: string, statement: string)
    requires Lex(sql, Top).pieces == [statement] && Trimmed(statement) && statement != "" && StartsReading(statement)
    ensures Assess(sql).IsSafeReadOnly()
  {
    hide Lex, Keep, Assess, Trim, StartsReading;
    TrimOfTrimmed(statement);
    KeptAlone(statement);
    SafeIffOneReadingStatement(sql);
  }

  lemma KeptAlone(piece: string)
    ensures Keep([piece]) == if Trim(piece) == "" then [] else [Trim(piece)]
  {
    hide Trim;
  }

  lemma {:induction false} LeadingTaken(word: string, rest: string)
    requires AllLetters(word) && rest != "" && rest[0] == ' '
    ensures LeadingWord(word + rest) == word
  {
    if word == "" {
      assert word + rest == rest;
    } else {
      assert (word + rest)[1..] == word[1..] + rest;
      LeadingTaken(word[1..], rest);
    }
  }

  lemma DropFirst(rest: string)
    ensures ServerWord(" DROP TABLE t" + rest) == "DROP"
  {
    var s := " DROP TABLE t" + rest;
    assert s[1..] == "DROP" + (" TABLE t" + rest);
    LeadingTaken("DROP", " TABLE t" + rest);
  }

  lemma PrependAlone(a: string, piece: string, end: Mode)
    ensures Prepend(a, Lexed([piece], end)) == Lexed([a + piece], end)
  {
  }

  lemma OnFirstAlone(a: string, piece: string)
    ensures OnFirst(a, [piece]) == [a + piece]
  {
  }

  lemma HashIsErased(rest: string)
    requires '\n' !in rest
    ensures Lex("#" + rest, Top) == Lexed([""], LineComment)
    ensures !ScannerKeeps("#" + rest, Top)[0] && ServerKeeps("#" + rest, Reading(Single))[0]
  {
    LineIsErased(rest);
    assert ("#" + rest)[1..] == rest;
  }

  lemma TakenQuoteIsReading(tail: string)
    requires tail == "" || !IsWhitespace(tail[|tail| - 1])
    ensures var sql := TakenQuote() + tail; sql != "" && Trimmed(sql) && StartsReading(sql)
  {
    var sql, rest := TakenQuote() + tail, "'\\'" + tail;
    assert sql == "SELECT " + rest;
    assert sql[0] == 'S' && sql[|sql| - 1] == if tail == "" then '\'' else tail[|tail| - 1];
    SelectIsReading(rest);
  }

  lemma AllowedAlone(tail: string, kept: string)
    requires kept == "" || !IsWhitespace(kept[|kept| - 1])
    requires Lex(TakenQuote() + tail, Top).pieces == [TakenQuote() + kept]
    ensures Assess(TakenQuote() + tail).IsSafeReadOnly()
  {
    hide Lex, Assess, StartsReading, TakenQuote, Trimmed;
    TakenQuoteIsReading(kept);
    OneStatementIsSafe(TakenQuote() + tail, TakenQuote() + kept);
  }

  lemma ErasedTailIsAllowed(rest: string)
    requires '\n' !in rest
    ensures Assess(TakenQuote() + ("#" + rest)).IsSafeReadOnly() && !NothingErasedRuns(TakenQuote() + ("#" + rest))
  {
    hide Lex, Assess, Prepend, ScannerKeeps, ServerKeeps, TakenQuote;
    TakenQuoteScanned("#" + rest);
    TakenQuoteRead("#" + rest);
    HashIsErased(rest);
    PrependAlone(TakenQuote(), "", LineComment);
    AllowedAlone("#" + rest, "");
    TakenQuoteLength();
    assert !ScannerKeeps(TakenQuote() + ("#" + rest), Top)[10];
  }

  lemma TakenQuoteLength()
    ensures |TakenQuote()| == 10
  {
  }

  lemma TwoStatements(body: string, rest: string, after: string)
    requires IsPlain(body, Single) && ServerPieces(rest, Reading(Top)) == [after] && SharedComments(rest, Reading(Top))
    ensures var sql := TakenQuote() + (body + ("'; DROP TABLE t" + rest));
            && ServerPieces(sql, Reading(Top)) == [TakenQuote() + (body + "'"), " DROP TABLE t" + after]
            && SharedComments(sql, Reading(Top)) && !QuotesKept(sql, Reading(Top))
  {
    hide ServerPieces, OnFirst, ServerKeeps, SharedComments, QuotesKept, TakenQuote;
    var tail := "'; DROP TABLE t" + rest;
    TakenQuoteRead(body + tail);
    ServerRun(body, tail, Single);
    SecondStatement(rest);
    OnFirstAlone(" DROP TABLE t", after);
    TwoOnFirst(TakenQuote(), body, ["'", " DROP TABLE t" + after]);
    FirstOfTwo(TakenQuote() + body, "'", " DROP TABLE t" + after);
    assert TakenQuote() + body + "'" == TakenQuote() + (body + "'");
  }

  lemma FirstOfTwo(a: string, b: string, c: string)
    ensures OnFirst(a, [b, c]) == [a + b, c] && ([b] + [c]) == [b, c]
  {
  }

  lemma ErasedText()
    ensures TakenQuote() + ("#" + " '; DROP TABLE t") == "SELECT '\\'# '; DROP TABLE t"
    ensures "#" + " '; DROP TABLE t" == "# " + ("'; DROP TABLE t" + "")
  {
  }

  /** The scanner erases what follows the number sign, and sees one statement that reads. No comment is one for
      one of the two only, and still the server executes what was erased: a second statement. */
  lemma ErasedStatementExample()
    ensures var sql := "SELECT '\\'# '; DROP TABLE t";
            && Assess(sql).IsSafeReadOnly() && !NothingErasedRuns(sql)
            && SharedComments(sql, Reading(Top)) && !QuotesKept(sql, Reading(Top))
            && |ServerPieces(sql, Reading(Top))| == 2
            && ServerWord(ServerPieces(sql, Reading(Top))[1]) == "DROP"
  {
    hide Assess, ServerPieces, SharedComments, QuotesKept, ServerWord, NothingErasedRuns, TakenQuote, IsPlain;
    ErasedText();
    ErasedTailIsAllowed(" '; DROP TABLE t");
    NothingLeft();
    HashIsPlain();
    TwoStatements("# ", "", "");
    DropFirst("");
  }

  lemma HashIsPlain()
    ensures IsPlain("# ", Single) && IsPlain("", Single) && IsPlain("; DROP TABLE t -- ", Single)
  {
  }

  lemma NothingLeft()
    ensures ServerPieces("", Reading(Top)) == [""] && SharedComments("", Reading(Top))
    ensures Lex("", Top) == Lexed([""], Top)
  {
  }

  lemma HiddenTailIsAllowed(body: string)
    requires IsPlain(body, Single)
    ensures Assess(TakenQuote() + ("'" + (body + "'"))).IsSafeReadOnly()
  {
    hide Lex, Assess, Prepend, IsPlain, ScannerKeeps, TakenQuote;
    var tail := "'" + (body + "'");
    TakenQuoteScanned(tail);
    StringScanned(body);
    PrependAlone(TakenQuote(), tail, Top);
    assert tail[|tail| - 1] == '\'';
    AllowedAlone(tail, tail);
  }

  lemma StringScanned(body: string)
    requires IsPlain(body, Single)
    ensures Lex("'" + (body + "'"), Top) == Lexed(["'" + (body + "'")], Top)
  {
    hide Lex, Prepend, ScannerKeeps;
    ScannerTakes('\'', body + "'", Top);
    ScannerRun(body, "'", Single);
    assert ['\''] + "" == "'" && ['\''] == "'";
    ScannerTakes('\'', "", Single);
    NothingLeft();
    PrependAlone("'", "", Top);
    PrependAlone(body, "'", Top);
    PrependAlone("'", body + "'", Top);
  }

  lemma {:induction false} LineIsDropped(s: string)
    requires '\n' !in s
    ensures ServerPieces(s, Reading(LineComment)) == [""] && SharedComments(s, Reading(LineComment))
  {
    if s != "" {
      LineIsDropped(s[1..]);
      NothingOnFirst([""]);
    }
  }

  lemma DashesRead()
    ensures ServerPieces(" -- '", Reading(Top)) == ["  "] && SharedComments(" -- '", Reading(Top))
  {
    hide ServerPieces, SharedComments, ServerKeeps, QuotesKept, OnFirst;
    assert " -- '" == [' '] + "-- '" && [' '] == " " && " " + " " == "  ";
    ServerTakes(' ', "-- '", Reading(Top));
    DashesOpen();
    OnFirstAlone(" ", " ");
  }

  lemma DashesOpen()
    ensures ServerPieces("-- '", Reading(Top)) == [" "] && SharedComments("-- '", Reading(Top))
  {
    var s := "-- '";
    assert s[2..] == " '";
    LineIsDropped(" '");
    OnFirstAlone(" ", "");
    assert " " + "" == " ";
    assert ServerAdvance(s, Reading(Top)) == Drop(2, LineComment);
    hide ServerAdvance, OnFirst;
  }

  lemma HiddenText()
    ensures TakenQuote() + ("'" + ("; DROP TABLE t -- " + "'")) == "SELECT '\\''; DROP TABLE t -- '"
    ensures "'" + ("; DROP TABLE t -- " + "'") == "" + ("'; DROP TABLE t" + " -- '")
  {
  }

  /** The same with nothing erased: the scanner takes the second statement for a string. */
  lemma HiddenStatementExample()
    ensures var sql := "SELECT '\\''; DROP TABLE t -- '";
            && Assess(sql).IsSafeReadOnly()
            && SharedComments(sql, Reading(Top)) && !QuotesKept(sql, Reading(Top))
            && |ServerPieces(sql, Reading(Top))| == 2
            && ServerWord(ServerPieces(sql, Reading(Top))[1]) == "DROP"
  {
    hide Assess, ServerPieces, SharedComments, QuotesKept, ServerWord, TakenQuote, IsPlain;
    HiddenText();
    HashIsPlain();
    HiddenTailIsAllowed("; DROP TABLE t -- ");
    DashesRead();
    TwoStatements("", " -- '", "  ");
    DropFirst("  ");
  }
}
