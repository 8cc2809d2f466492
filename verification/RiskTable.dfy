/** The risk of a text, word by word: the letters' case plays no part. */
module RiskTable {
  import opened Text
  import opened SqlLexer
  import opened SafeMode

  // ---------------------------------------------------------------- one statement

  predicate IsWord(word: string) {
    word != "" && forall i :: 0 <= i < |word| ==> !IsWhitespace(word[i])
  }

  /** The text starts with that word, ended by white space or the end of the text. */
  predicate StartsWithWord(text: string, word: string) {
    && IsWord(word)
    && word <= text
    && (|text| == |word| || IsWhitespace(text[|word|]))
  }

  predicate SpellsOneOf(word: string, keywords: set<string>) {
    exists keyword :: keyword in keywords && SameLetters(word, keyword)
  }

  lemma {:induction false} WordIsTaken(text: string, word: string)
    requires |word| <= |text| && word == text[..|word|]
    requires forall i :: 0 <= i < |word| ==> !IsWhitespace(word[i])
    requires |text| == |word| || IsWhitespace(text[|word|])
    ensures TakeWord(text) == word
  {
    hide IsWhitespace;
    if word != "" {
      assert text[0] == word[0];
      assert text[1..][..|word| - 1] == word[1..];
      WordIsTaken(text[1..], word[1..]);
    }
  }

  /** The first word is found behind any white space, and given in capitals. */
  lemma FirstKeywordIs(padding: string, text: string, word: string)
    requires AllWhitespace(padding) && StartsWithWord(text, word)
    ensures FirstKeyword(padding + text) == Some(AsciiUppercase(word))
  {
    hide IsWhitespace, TakeWord, AsciiUppercase;
    PaddingIsCut(padding, text);
    WordIsTaken(text, word);
  }

  lemma {:induction false} TakeWordStops(text: string)
    ensures TakeWord(text) <= text
    ensures forall i :: 0 <= i < |TakeWord(text)| ==> !IsWhitespace(TakeWord(text)[i])
    ensures |TakeWord(text)| == |text| || IsWhitespace(text[|TakeWord(text)|])
  {
    hide IsWhitespace;
    if text != "" && !IsWhitespace(text[0]) {
      TakeWordStops(text[1..]);
    }
  }

  /** Every statement of a text starts with a word. */
  lemma StatementsStartWithWords(sql: string, i: nat) returns (word: string)
    requires i < |Statements(sql)|
    ensures StartsWithWord(Statements(sql)[i], word)
  {
    hide IsWhitespace, Statements, TakeWord, IsStatementList;
    StatementsAreStatements(sql);
    StatementListMembers(Statements(sql));
    word := TakeWord(Statements(sql)[i]);
    TakeWordStops(Statements(sql)[i]);
  }

  lemma {:induction false} PaddingIsCut(padding: string, text: string)
    requires AllWhitespace(padding) && text != "" && !IsWhitespace(text[0])
    ensures TrimStart(padding + text) == text
  {
    hide IsWhitespace;
    if padding == "" {
      assert padding + text == text;
    } else {
      assert (padding + text)[1..] == padding[1..] + text;
      PaddingIsCut(padding[1..], text);
    }
  }

  const READING: set<string> := {"SELECT", "SHOW", "DESCRIBE", "DESC", "EXPLAIN", "HELP", "USE"}
  const WRITING: set<string> := {"INSERT", "UPDATE", "DELETE", "REPLACE", "LOAD", "CALL", "DO"}
  const DEFINING: set<string> :=
    {"CREATE", "ALTER", "DROP", "TRUNCATE", "RENAME", "ANALYZE", "OPTIMIZE", "REPAIR"}
  const TRANSACTIONAL: set<string> := {"START", "BEGIN", "COMMIT", "ROLLBACK", "LOCK", "UNLOCK"}
  const CHANGING_SESSION: set<string> := {"SET", "GRANT", "REVOKE"}

  predicate InCapitals(keyword: string) {
    forall i :: 0 <= i < |keyword| ==> 'A' <= keyword[i] <= 'Z'
  }

  lemma CapitalsStay(keyword: string)
    requires InCapitals(keyword)
    ensures AsciiUppercase(keyword) == keyword
  {
  }

  lemma Spelled(word: string, keywords: set<string>)
    requires forall keyword :: keyword in keywords ==> InCapitals(keyword)
    ensures SpellsOneOf(word, keywords) <==> AsciiUppercase(word) in keywords
  {
    hide SameLetters, AsciiUppercase, InCapitals;
    forall keyword | keyword in keywords
      ensures SameLetters(word, keyword) <==> AsciiUppercase(word) == keyword
    {
      CaseIsIgnored(word, keyword);
      CapitalsStay(keyword);
    }
  }

  lemma ReadingIsInCapitals()
    ensures forall keyword :: keyword in READING ==> InCapitals(keyword)
  {
  }

  lemma WritingIsInCapitals()
    ensures forall keyword :: keyword in WRITING ==> InCapitals(keyword)
  {
  }

  lemma DefiningIsInCapitals()
    ensures forall keyword :: keyword in DEFINING ==> InCapitals(keyword)
  {
  }

  lemma OthersAreInCapitals()
    ensures forall keyword :: keyword in TRANSACTIONAL ==> InCapitals(keyword)
    ensures forall keyword :: keyword in CHANGING_SESSION ==> InCapitals(keyword)
  {
  }

  /** What one statement adds: nothing for a reading word, in any case of its letters, else its word in
      capitals under the heading it belongs to. */
  lemma RiskOfWord(statement: string, word: string)
    requires StartsWithWord(statement, word)
    ensures var keyword := AsciiUppercase(word);
            && SameLetters(keyword, word)
            && StatementRisk(statement) ==
               if SpellsOneOf(word, READING) then []
               else if SpellsOneOf(word, WRITING) then [WriteOperation(keyword)]
               else if SpellsOneOf(word, DEFINING) then [DdlOperation(keyword)]
               else if SpellsOneOf(word, TRANSACTIONAL) then [TransactionControl(keyword)]
               else if SpellsOneOf(word, CHANGING_SESSION) then [SessionMutation(keyword)]
               else [UnknownStatement(keyword)]
  {
    hide SpellsOneOf, FirstKeyword, InCapitals, AsciiUppercase, SameLetters;
    FirstKeywordIs("", statement, word);
    assert "" + statement == statement;
    ReadingIsInCapitals();
    WritingIsInCapitals();
    DefiningIsInCapitals();
    OthersAreInCapitals();
    Spelled(word, READING);
    Spelled(word, WRITING);
    Spelled(word, DEFINING);
    Spelled(word, TRANSACTIONAL);
    Spelled(word, CHANGING_SESSION);
    UppercaseHasSameLetters(word);
  }

  lemma UppercaseHasSameLetters(word: string)
    ensures SameLetters(AsciiUppercase(word), word)
  {
    forall i | 0 <= i < |word|
      ensures SameLetter(AsciiUppercase(word)[i], word[i])
    {
      CaseOfCharacter(word[i], word[i]);
    }
  }

  /** A text of one statement is allowed unasked exactly when its first word is a reading word in any case. */
  lemma OneStatementIsSafeIff(sql: string, statement: string, word: string)
    requires Statements(sql) == [statement] && StartsWithWord(statement, word)
    ensures Assess(sql).IsSafeReadOnly() <==>
            SpellsOneOf(word, {"SELECT", "SHOW", "DESCRIBE", "DESC", "EXPLAIN", "HELP", "USE"})
  {
    hide Statements, Normalize, StatementRisk, SpellsOneOf;
    RiskOfWord(statement, word);
    RisksAre([], statement);
  }

  lemma RisksAre(front: seq<string>, last: string)
    ensures Risks(front + [last]) == Risks(front) + StatementRisk(last)
  {
    assert (front + [last])[..|front|] == front;
  }

  lemma NoRisks()
    ensures Risks([]) == []
  {
  }

  lemma {:induction false} RisksConcat(a: seq<string>, b: seq<string>)
    ensures Risks(a + b) == Risks(a) + Risks(b)
  {
    hide StatementRisk, Risks;
    if b == [] {
      NoRisks();
      assert a + b == a;
    } else {
      var front, last := b[..|b| - 1], b[|b| - 1];
      RisksConcat(a, front);
      RisksAre(front, last);
      RisksAre(a + front, last);
      assert front + [last] == b && a + front + [last] == a + b;
      assert Risks(a + b) == Risks(a) + Risks(front) + StatementRisk(last);
    }
  }

  /** The reasons are the heading for several statements, then what each statement adds, in order. */
  lemma ReasonsInOrder(sql: string, before: seq<string>, statement: string, after: seq<string>)
    requires Statements(sql) == before + [statement] + after
    ensures Assess(sql).statementCount == |before| + 1 + |after|
    ensures before == [] ==> Assess(sql).primaryKeyword == FirstKeyword(statement)
    ensures Assess(sql).reasons ==
            (if |before| + |after| > 0 then [MultiStatement] else [])
            + (Risks(before) + StatementRisk(statement) + Risks(after))
  {
    hide Statements, Normalize, StatementRisk, Risks, FirstKeyword;
    RisksConcat(before + [statement], after);
    RisksAre(before, statement);
    assert before == [] ==> (before + [statement] + after)[0] == statement;
  }

  // ---------------------------------------------------------------- the case of letters plays no part

  predicate IsLetter(c: char) {
    'A' <= c <= 'Z' || 'a' <= c <= 'z'
  }

  lemma OnlyLettersVary(c: char, d: char)
    requires SameLetter(c, d)
    ensures c == d || (IsLetter(c) && IsLetter(d))
  {
  }

  lemma LettersAreSolid(c: char)
    requires IsLetter(c)
    ensures !IsWhitespace(c)
  {
  }

  lemma WhitespaceAlike(c: char, d: char)
    requires SameLetter(c, d)
    ensures IsWhitespace(c) == IsWhitespace(d)
  {
    hide IsWhitespace;
    if c != d {
      LettersAreSolid(c);
      LettersAreSolid(d);
    }
  }

  lemma AdvanceIgnoresCase(s: string, t: string, m: Mode)
    requires s != "" && SameLetters(s, t)
    ensures Advance(s, m) == Advance(t, m)
  {
    hide SameLetter;
    OnlyLettersVary(s[0], t[0]);
    if |s| > 1 {
      OnlyLettersVary(s[1], t[1]);
    }
  }

  predicate SameTexts(a: seq<string>, b: seq<string>) {
    |a| == |b| && forall i :: 0 <= i < |a| ==> SameLetters(a[i], b[i])
  }

  lemma {:induction false} LexIgnoresCase(s: string, t: string, m: Mode)
    requires SameLetters(s, t)
    ensures SameTexts(Lex(s, m).pieces, Lex(t, m).pieces)
    decreases |s|
  {
    hide SameLetter, Advance;
    if s != "" {
      AdvanceIgnoresCase(s, t, m);
      match Advance(s, m)
      case Skip(width, next) =>
        LexIgnoresCase(s[width..], t[width..], next);
      case Cut =>
        LexIgnoresCase(s[1..], t[1..], Top);
      case Emit(next) =>
        LexIgnoresCase(s[1..], t[1..], next);
    }
  }

  lemma {:induction false} TrimStartIgnoresCase(s: string, t: string)
    requires SameLetters(s, t)
    ensures SameLetters(TrimStart(s), TrimStart(t))
  {
    hide SameLetter, IsWhitespace;
    if s != "" {
      WhitespaceAlike(s[0], t[0]);
      TrimStartIgnoresCase(s[1..], t[1..]);
    }
  }

  lemma {:induction false} TrimEndIgnoresCase(s: string, t: string)
    requires SameLetters(s, t)
    ensures SameLetters(TrimEnd(s), TrimEnd(t))
  {
    hide SameLetter, IsWhitespace;
    if s != "" {
      WhitespaceAlike(s[|s| - 1], t[|t| - 1]);
      TrimEndIgnoresCase(s[..|s| - 1], t[..|t| - 1]);
    }
  }

  lemma {:induction false} KeepIgnoresCase(a: seq<string>, b: seq<string>)
    requires SameTexts(a, b)
    ensures SameTexts(Keep(a), Keep(b))
  {
    hide SameLetter, TrimStart, TrimEnd;
    if a != [] {
      TrimStartIgnoresCase(a[0], b[0]);
      TrimEndIgnoresCase(TrimStart(a[0]), TrimStart(b[0]));
      KeepIgnoresCase(a[1..], b[1..]);
    }
  }

  lemma {:induction false} TakeWordIgnoresCase(s: string, t: string)
    requires SameLetters(s, t)
    ensures SameLetters(TakeWord(s), TakeWord(t))
  {
    hide SameLetter, IsWhitespace;
    if s != "" {
      WhitespaceAlike(s[0], t[0]);
      TakeWordIgnoresCase(s[1..], t[1..]);
    }
  }

  lemma FirstKeywordIgnoresCase(s: string, t: string)
    requires SameLetters(s, t)
    ensures FirstKeyword(s) == FirstKeyword(t)
  {
    hide SameLetter, TrimStart, TakeWord, AsciiUppercase;
    TrimStartIgnoresCase(s, t);
    TakeWordIgnoresCase(TrimStart(s), TrimStart(t));
    CaseIsIgnored(TakeWord(TrimStart(s)), TakeWord(TrimStart(t)));
  }

  lemma {:induction false} RisksIgnoreCase(a: seq<string>, b: seq<string>)
    requires SameTexts(a, b)
    ensures Risks(a) == Risks(b)
  {
    hide SameLetters, FirstKeyword;
    if a != [] {
      FirstKeywordIgnoresCase(a[|a| - 1], b[|b| - 1]);
      RisksIgnoreCase(a[..|a| - 1], b[..|b| - 1]);
    }
  }

  /** Texts that differ in the case of letters only are assessed alike. */
  lemma AssessmentIgnoresCase(a: string, b: string)
    requires AsciiUppercase(a) == AsciiUppercase(b)
    ensures Assess(a).IsSafeReadOnly() == Assess(b).IsSafeReadOnly()
    ensures Assess(a).statementCount == Assess(b).statementCount
    ensures Assess(a).primaryKeyword == Assess(b).primaryKeyword
    ensures Assess(a).reasons == Assess(b).reasons
  {
    hide SameLetters, AsciiUppercase, Lex, Keep, Normalize, FirstKeyword, Risks;
    CaseIsIgnored(a, b);
    LexIgnoresCase(a, b, Top);
    KeepIgnoresCase(Lex(a, Top).pieces, Lex(b, Top).pieces);
    RisksIgnoreCase(Statements(a), Statements(b));
    if Statements(a) != [] {
      FirstKeywordIgnoresCase(Statements(a)[0], Statements(b)[0]);
    }
  }

  /** Nothing but white space is no statement, and allowed. */
  lemma BlankIsSafe(sql: string)
    requires AllWhitespace(sql)
    ensures Statements(sql) == [] && Assess(sql).IsSafeReadOnly()
  {
    hide TrimStart, TrimEnd;
    BlankStaysTop(sql);
    BlankTrimsAway(sql);
    assert Trim(sql) == "" by {
      TrimEndCuts("");
    }
    assert Keep([sql]) == [];
  }

  lemma {:induction false} BlankStaysTop(sql: string)
    requires AllWhitespace(sql)
    ensures Lex(sql, Top) == Lexed([sql], Top)
  {
    hide IsWhitespace, Advance;
    if sql != "" {
      BlankIsEmitted(sql);
      BlankStaysTop(sql[1..]);
      assert [sql[0]] + sql[1..] == sql;
      assert Prepend([sql[0]], Lexed([sql[1..]], Top)).pieces == [sql];
    }
  }

  lemma BlankIsEmitted(sql: string)
    requires sql != "" && IsWhitespace(sql[0])
    ensures Advance(sql, Top) == Emit(Top)
  {
  }
}
