/** Risk assessment of SQL text and the confirmation guard. */
module SafeMode {
  import opened Text
  import opened SqlLexer
  import opened ConfirmationGuard

  datatype SqlRiskReason =
    | MultiStatement
    | WriteOperation(keyword: string)
    | DdlOperation(keyword: string)
    | TransactionControl(keyword: string)
    | SessionMutation(keyword: string)
    | UnknownStatement(keyword: string)

  datatype SqlSafetyAssessment = SqlSafetyAssessment(
    statementCount: nat,
    primaryKeyword: Option<string>,
    reasons: seq<SqlRiskReason>,
    normalizedSql: string)
  {
    predicate IsSafeReadOnly() {
      reasons == []
    }
  }

  predicate IsSafeReadKeyword(keyword: string) {
    keyword in ["SELECT", "SHOW", "DESCRIBE", "DESC", "EXPLAIN", "HELP", "USE"]
  }

  predicate IsWriteKeyword(keyword: string) {
    keyword in ["INSERT", "UPDATE", "DELETE", "REPLACE", "LOAD", "CALL", "DO"]
  }

  predicate IsDdlKeyword(keyword: string) {
    keyword in ["CREATE", "ALTER", "DROP", "TRUNCATE", "RENAME", "ANALYZE", "OPTIMIZE", "REPAIR"]
  }

  predicate IsTransactionKeyword(keyword: string) {
    keyword in ["START", "BEGIN", "COMMIT", "ROLLBACK", "LOCK", "UNLOCK"]
  }

  predicate IsSessionMutationKeyword(keyword: string) {
    keyword in ["SET", "GRANT", "REVOKE"]
  }

  /** The characters before the first white space. */
  function TakeWord(s: string): string {
    if s == "" || IsWhitespace(s[0]) then "" else [s[0]] + TakeWord(s[1..])
  }

  function FirstKeyword(statement: string): Option<string> {
    var word := TakeWord(TrimStart(statement));
    if word == "" then None else Some(AsciiUppercase(word))
  }

  /** The risk of one statement; none when it starts with a reading keyword. */
  function StatementRisk(statement: string): seq<SqlRiskReason> {
    match FirstKeyword(statement)
    case None => []
    case Some(keyword) =>
      if IsSafeReadKeyword(keyword) then []
      else if IsWriteKeyword(keyword) then [WriteOperation(keyword)]
      else if IsDdlKeyword(keyword) then [DdlOperation(keyword)]
      else if IsTransactionKeyword(keyword) then [TransactionControl(keyword)]
      else if IsSessionMutationKeyword(keyword) then [SessionMutation(keyword)]
      else [UnknownStatement(keyword)]
  }

  function Risks(statements: seq<string>): seq<SqlRiskReason> {
    if statements == [] then [] else Risks(statements[..|statements| - 1]) + StatementRisk(statements[|statements| - 1])
  }

  function Assess(sql: string): (a: SqlSafetyAssessment)
    ensures a.normalizedSql == Normalize(sql)
  {
    var statements := Statements(sql);
    SqlSafetyAssessment(
      |statements|,
      if statements == [] then None else FirstKeyword(statements[0]),
      (if |statements| > 1 then [MultiStatement] else []) + Risks(statements),
      Normalize(sql))
  }

  /** The reason, if any, that one statement adds. */
  method PushRisk(reasons: seq<SqlRiskReason>, statement: string) returns (pushed: seq<SqlRiskReason>)
    ensures pushed == reasons + StatementRisk(statement)
  {
    hide FirstKeyword, IsSafeReadKeyword, IsWriteKeyword, IsDdlKeyword, IsTransactionKeyword, IsSessionMutationKeyword;
    pushed := reasons;
    var keyword := FirstKeyword(statement);
    if keyword.Some? {
      if IsSafeReadKeyword(keyword.value) {
        return;
      }
      if IsWriteKeyword(keyword.value) {
        return reasons + [WriteOperation(keyword.value)];
      }
      if IsDdlKeyword(keyword.value) {
        return reasons + [DdlOperation(keyword.value)];
      }
      if IsTransactionKeyword(keyword.value) {
        return reasons + [TransactionControl(keyword.value)];
      }
      if IsSessionMutationKeyword(keyword.value) {
        return reasons + [SessionMutation(keyword.value)];
      }
      return reasons + [UnknownStatement(keyword.value)];
    }
  }

  method AssessSqlSafety(sql: string) returns (assessment: SqlSafetyAssessment)
    ensures assessment == Assess(sql)
  {
    hide Statements, FirstKeyword, StatementRisk;
    var statements := SplitStatements(sql);
    var reasons := [];
    if |statements| > 1 {
      reasons := reasons + [MultiStatement];
    }
    ghost var multi := reasons;
    var primary := if statements == [] then None else FirstKeyword(statements[0]);
    for i := 0 to |statements|
      invariant reasons == multi + Risks(statements[..i])
    {
      assert statements[..i + 1][..i] == statements[..i];
      reasons := PushRisk(reasons, statements[i]);
    }
    assert statements[..|statements|] == statements;
    assessment := SqlSafetyAssessment(|statements|, primary, reasons, Join(statements, "; "));
  }

  predicate StartsReading(statement: string) {
    FirstKeyword(statement).Some? && IsSafeReadKeyword(FirstKeyword(statement).value)
  }

  lemma StatementHasKeyword(statement: string)
    requires IsStatement(statement)
    ensures FirstKeyword(statement).Some?
  {
    TrimOfTrimmed(statement);
  }

  lemma {:induction false} RisksEmptyIff(statements: seq<string>)
    requires forall i :: 0 <= i < |statements| ==> IsStatement(statements[i])
    ensures Risks(statements) == [] <==> forall i :: 0 <= i < |statements| ==> StartsReading(statements[i])
  {
    hide FirstKeyword, IsStatement, IsSafeReadKeyword, IsWriteKeyword, IsDdlKeyword, IsTransactionKeyword,
      IsSessionMutationKeyword;
    if statements != [] {
      var front, last := statements[..|statements| - 1], statements[|statements| - 1];
      RisksEmptyIff(front);
      StatementHasKeyword(last);
      assert forall i :: 0 <= i < |front| ==> front[i] == statements[i];
    }
  }

  lemma {:induction false} StatementListMembers(statements: seq<string>)
    requires IsStatementList(statements)
    ensures forall i :: 0 <= i < |statements| ==> IsStatement(statements[i])
  {
    if statements != [] {
      StatementListMembers(statements[1..]);
      assert forall i :: 1 <= i < |statements| ==> statements[i] == statements[1..][i - 1];
    }
  }

  /** SQL is allowed without confirmation exactly when, once its comments are erased, it is at most
      one statement and that statement starts with a reading keyword. */
  lemma SafeIffOneReadingStatement(sql: string)
    ensures Assess(sql).IsSafeReadOnly() <==>
      |Statements(sql)| == 0 || (|Statements(sql)| == 1 && StartsReading(Statements(sql)[0]))
  {
    hide IsStatementList, Statements, StartsReading, StatementRisk;
    StatementsAreStatements(sql);
    StatementListMembers(Statements(sql));
    RisksEmptyIff(Statements(sql));
  }

  // ---------------------------------------------------------------- the guard object

  type Fingerprint = string -> u64

  /** The assessment as the guard's judgement. */
  function SqlJudge(fingerprint: Fingerprint): Judge {
    Judge(sql => Assess(sql).IsSafeReadOnly(), sql => fingerprint(Normalize(sql)))
  }

  lemma JudgesByAssessment(fingerprint: Fingerprint, sql: string)
    ensures SqlJudge(fingerprint).safe(sql) == Assess(sql).IsSafeReadOnly()
    ensures SqlJudge(fingerprint).stamp(sql) == fingerprint(Normalize(sql))
  {
    hide Assess, Normalize;
  }

  datatype GuardDecision =
    | Allow(assessment: SqlSafetyAssessment)
    | RequireConfirmation(token: string, assessment: SqlSafetyAssessment)

  class SafeModeGuard {
    const fingerprint: Fingerprint
    var enabled: bool
    var nonce: u64
    var pendingConfirmations: map<string, u64>

    ghost function View(): Guard
      reads this
    {
      Guard(enabled, nonce, pendingConfirmations)
    }

    function Judgement(): Judge {
      SqlJudge(fingerprint)
    }

    constructor (enabled: bool, fingerprint: Fingerprint)
      ensures View() == NewGuard(enabled) && this.fingerprint == fingerprint
    {
      this.fingerprint := fingerprint;
      this.enabled, nonce, pendingConfirmations := enabled, 0, map[];
    }

    method SetEnabled(enabled: bool)
      modifies this
      ensures View() == Switched(old(View()), enabled)
    {
      this.enabled := enabled;
      if !enabled {
        pendingConfirmations := map[];
      }
    }

    method Evaluate(sql: string) returns (decision: GuardDecision)
      modifies this
      ensures View() == Evaluated(old(View()), Judgement(), sql)
      ensures decision == match AskedToken(old(View()), Judgement(), sql)
                          case None => Allow(Assess(sql))
                          case Some(token) => RequireConfirmation(token, Assess(sql))
    {
      hide Assess, Normalize, TokenText;
      var assessment := AssessSqlSafety(sql);
      if !enabled || assessment.IsSafeReadOnly() {
        return Allow(assessment);
      }

      nonce := NextNonce(nonce);
      var fp := fingerprint(assessment.normalizedSql);
      var token := TokenText(nonce, fp);
      pendingConfirmations := pendingConfirmations[token := fp];
      decision := RequireConfirmation(token, assessment);
    }

    method Confirm(token: string, sql: string) returns (result: ConfirmResult)
      modifies this
      ensures View() == Spent(old(View()), token)
      ensures result == ConfirmReply(old(View()), Judgement(), token, sql)
    {
      hide Assess, Normalize;
      if token !in pendingConfirmations {
        assert pendingConfirmations - {token} == pendingConfirmations;
        return InvalidToken;
      }
      var pending := pendingConfirmations[token];
      pendingConfirmations := pendingConfirmations - {token};

      var assessment := AssessSqlSafety(sql);
      if pending != fingerprint(assessment.normalizedSql) {
        return SqlMismatch;
      }
      result := Confirmed;
    }
  }
}
