# myr in Dafny

`myr` is a MySQL client for the terminal. This project models the parts of it that decide something — the SQL
scanner and the safe-mode guard, the SQL generator, keyset paging, the query and connection runtime, the rotating audit
log, the byte-indexed editor, the results layout, the CSV and JSON printers, the schema relationships, the command
palette and the stores — and proves what they keep over whole runs.

`dafny verify dfyconfig.toml` checks everything.

## How the model is built

Code that computes is a function here, and code that works step by step is a class or a method with loops, proved
against a function of the old state; the theorems about runs are lemmas about those functions.

| file | component |
|---|---|
| `Text`, `Utf8`, `Ordering` | white space, decimal and hexadecimal text, UTF-8 (section 3 of RFC 3629), string order, sorting |
| `SqlLexer`, `SafeMode`, `RiskTable`, `ConfirmationGuard`, `ServerReading` | the five-flag scanner, the risk assessment, what it makes of each word, the confirmation guard over any judgement, how the server reads an assessed text |
| `SqlGenerator`, `GeneratedSql`, `GeneratedForServer`, `MySqlStrings`, `SqlReading`, `StatementReading` | the generated statements, their reading by the scanner and by the server, string literals, the meaning of page queries and of the other statements read back from the text |
| `ResultsBuffer`, `PageQueries`, `Pagination`, `PageProtocol`, `RepeatedKeys` | the ring buffer and the streaming loop, the relational meaning of page queries, the page protocol and its runs, key columns that repeat |
| `Runtime`, `RuntimeSteps`, `RuntimeSafety`, `RuntimeScreen`, `RuntimeCancellation`, `RuntimeFailures`, `RuntimeReadOnly`, `RuntimeApp` | messages, ticks and worker outcomes as steps; what one message does; what runs keep; what is on screen; cancellation tokens; runs of failures; read-only profiles; the application and its guard object |
| `AuditTrail` | log rotation, one file system step at a time |
| `QueryEditor` | the byte-indexed editor and the query history |
| `ResultsLayout`, `CsvExport`, `ColumnNames` | column window and widths, the CSV printer and a reader, JSON keys |
| `Relationships`, `Palette`, `PaletteScores`, `Stores` | foreign keys and the schema cache, action ranking and palette order, the points of matches and actions, profiles and bookmarks |

What the outside world decides is a parameter or a free choice. A worker is a one-shot channel: every tick says what, if
anything, the connect channel and the query channel deliver. A file system operation may fail at any point, and a failed
write may leave any front part of its line. The fingerprint of the guard is an arbitrary function. The guard and the
runtime work with any judgement of SQL texts, which says what is safe and which texts a token stands for alike;
`SqlJudge` is the one that the assessment gives. A failure message counts by its two classifications, transient and
connection lost.

## Where the code does not do what one might expect

Each of these is a lemma, with the exact condition where there is one.

- Normalising SQL is idempotent only when the normal form opens no comment (`NormalizeIdempotent`, `NormalizeNotIdempotent`).
- The words `inf`, `infinity` and `nan` parse as floats, and so do numbers beyond the range of doubles: such boundary
  values are emitted bare, and the server reads a column name or rejects the number. Backslashes are not escaped, so a
  boundary in which a backslash takes a quote or the end is emitted as an open string. All other boundaries become
  constants, and no others (`LiteralIsConstantIff`, `BareWordExample`, `HugeNumberExample`, `OpenStringExample`).
- A page query asks for its page exactly when its boundary is a number that the server accepts, or is quoted and each
  backslash in it is followed by a percent sign or an underscore (`StringReadsBackIff`, `PageTextMeansIff`,
  `LostBackslashExample`, `NameBoundaryExample`). Strings and numbers are read as in sections 9.1.1 and 9.1.2 of the
  MySQL 8.0 Reference Manual, under the default SQL mode, which the repository leaves as it is. A row estimate asks
  about its table exactly when both names keep their backslashes in this way (`OtherTextMeansIff`).
- The guard's scanner is not the server's. It knows no backslash escapes, and it erases comments that the server
  executes, so texts are allowed unasked that hold a second statement (`ErasedStatementExample`,
  `HiddenStatementExample`, `ExecutableCommentIsAllowed`). Where every comment is one for both and no backslash takes a
  quote of its string, nothing erased is executed, and an allowed text is at most one statement for the server, too,
  which starts with no keyword but a reading one (`ErasedIsNotExecutedIff`, `AllowedIsReadingForServer`,
  `StartsWithoutRisk`). Generated statements are such texts exactly when no backslash in a string put
  into them takes a quote or the end (`GeneratedReadsAlikeIff`).
- Over a key column that repeats, as the chosen `*_id` column may, Next leaves out the rows behind the page with the last
  shown key. A row is never shown in a sweep exactly when some page ends before it with its key, and a sweep shows the
  whole table exactly when no page ends between two rows with the same key (`NextSkipsEqualKeys`, `NeverShownIff`,
  `EverythingSeenIff`).
- A page query that fails first and then succeeds shows the page asked for, but index, row count and bounds stay those of
  the page before, so Next shows the same page once more (`RetriedKeepsPosition`, `RetriedNextRepeats`).
- A cancelled Next counts as a page: behind a part of a page Next is not offered (`CancelledNext`), and without any row no
  page action works (`CancelledAtOnce`).
- After an empty page `Previous` is offered but fails, the stored keys being gone (`PreviousWorksIff`); under the
  OFFSET fallback it goes back two pages instead (`SlicePreviousSkips`). Through the same transitions keyset paging and
  slicing of the key-ordered table show the same exactly up to there (`KeysetSimulatesSlices`).
- Once the 64-bit nonce of the guard is exhausted, equal SQL gets equal tokens (`TokensCoincideIff`).
- README.md of the repository (line 59) promises that a read-only profile blocks write and DDL SQL. The code checks new
  submissions. Four paths do not look at the profile again: a confirmation, a rerun from the error panel, a replay after
  a reconnect, and the retry of a failed query, which runs on whatever is connected by then. Risky SQL runs under a
  read-only profile exactly on these (`ReadOnlyHoldsIff`, `DetourRunsRisky`, `HandoverRunsRisky`).
- A simulated query that is running when a connect succeeds never ends by itself (`ConnectStallsDemo`, `StalledForever`).
- A CSV file without headers reads back as records of one empty field (`CsvRoundTrip`).

## Model

| member | source | states |
|---|---|---|
| Text.TrimParts | crates/core/src/safe_mode.rs:243-256 | trimming cuts white space at both ends and nothing else, and leaves a trimmed text |
| Text.DecimalRoundTrip | crates/core/src/sql_generator.rs:73-79 | a number's decimal rendering determines the number |
| Text.HexInjective | crates/core/src/safe_mode.rs:99-103 | equally wide hexadecimal renderings of numbers below the width's bound are equal only for equal numbers |
| SqlLexer.SplitStatements | crates/core/src/safe_mode.rs:183-259 | the pass over five boolean flags returns what the lexer with a single mode returns: never more than one flag is set |
| SqlLexer.PiecesRejoin | crates/core/src/safe_mode.rs:183-259 | the untrimmed pieces rejoined with semicolons are the input without its comments |
| SqlLexer.PiecesAreWellSplit | crates/core/src/safe_mode.rs:183-259 | no piece holds a semicolon outside quotes, and every piece but the last closes its quotes |
| SqlLexer.StatementsAreStatements | crates/core/src/safe_mode.rs:183-259 | statements are nonempty, trimmed, without a top-level semicolon, and only the last may leave a quote open |
| SqlLexer.NormalFormSplitsBack | crates/core/src/safe_mode.rs:173-259 | splitting a normal form that opens no comment gives the statements back |
| SqlLexer.CommentFreeInput | crates/core/src/safe_mode.rs:173-259 | on comment-free input the pieces are the input itself and splitting the normal form returns the same statements |
| SqlLexer.NormalizeIdempotent | crates/core/src/safe_mode.rs:173-259 | normalising twice changes nothing if and only if the normal form opens no comment |
| SqlLexer.NormalizeNotIdempotent | crates/core/src/safe_mode.rs:196-232 | a concrete text whose erased comment joins its neighbours into a new comment opener |
| SafeMode.AssessSqlSafety | crates/core/src/safe_mode.rs:131-181 | the loop that pushes reasons computes the assessment function, which the `RiskTable` lemmas describe word by word |
| SafeMode.SafeIffOneReadingStatement | crates/core/src/safe_mode.rs:131-181 | SQL needs no confirmation exactly when it is at most one statement and that starts with a reading keyword |
| SafeMode.JudgesByAssessment | crates/core/src/safe_mode.rs:93-127 | the guard of the runtime judges by the assessment and stands its tokens on the fingerprint of the normal form |
| RiskTable.AssessmentIgnoresCase | crates/core/src/safe_mode.rs:131-266 | texts that differ in the case of A to Z only have the same reasons, statement count, primary keyword and safety |
| RiskTable.OneStatementIsSafeIff | crates/core/src/safe_mode.rs:131-273 | a text of one statement is safe if and only if its first word spells, in any case, one of the seven reading words |
| RiskTable.RiskOfWord | crates/core/src/safe_mode.rs:147-170 | the reason that a statement adds, by the table of words its first word is found in, in any case |
| RiskTable.ReasonsInOrder | crates/core/src/safe_mode.rs:131-171 | the reasons are the heading for several statements, then what each statement adds, in order, and the primary keyword is the first statement's |
| RiskTable.StatementsStartWithWords | crates/core/src/safe_mode.rs:261-266 | every statement has a first word, ended by white space or the end |
| RiskTable.FirstKeywordIs | crates/core/src/safe_mode.rs:261-266 | the first word is found behind any white space |
| RiskTable.BlankIsSafe | crates/core/src/safe_mode.rs:131-181 | white space alone is no statement and safe |
| Text.CaseIsIgnored | crates/core/src/safe_mode.rs:265 | upper and lower case tell texts apart exactly when they differ in more than the case of A to Z |
| SafeMode.SafeModeGuard.SetEnabled | crates/core/src/safe_mode.rs:86-91 | turning the guard off forgets every token |
| SafeMode.SafeModeGuard.Evaluate | crates/core/src/safe_mode.rs:93-113 | the whole new guard state and the answer, for safe and risky SQL and for the guard on and off |
| SafeMode.SafeModeGuard.Confirm | crates/core/src/safe_mode.rs:115-127 | a token is spent by any confirmation with it, right or wrong; the three replies |
| ConfirmationGuard.TokenInjective | crates/core/src/safe_mode.rs:99-106 | a rendered token determines its nonce and its fingerprint |
| ConfirmationGuard.HeldIsPending | crates/core/src/safe_mode.rs:86-127 | over any run, a token issued and neither used nor dropped since is pending with the fingerprint of its SQL |
| ConfirmationGuard.PendingIsHeld | crates/core/src/safe_mode.rs:86-127 | over any run, a pending token was issued by an earlier evaluation and not used or dropped since |
| ConfirmationGuard.ConfirmSucceedsIff | crates/core/src/safe_mode.rs:86-127 | over any run, a confirmation succeeds if and only if its token is still held and was issued for SQL with the same fingerprint, and its token is called invalid if and only if it is not held |
| ConfirmationGuard.AsksIff | crates/core/src/safe_mode.rs:86-113 | over any run, an evaluation issues a token if and only if the guard is switched on and the text is not safe |
| ConfirmationGuard.TokensCoincideIff | crates/core/src/safe_mode.rs:93-113 | over any run, two issued tokens are equal if and only if the nonce was exhausted and the fingerprints agree |
| ServerReading.ErasedIsNotExecutedIff | crates/core/src/safe_mode.rs:183-232 | where no backslash takes a quote, the server executes nothing of what the scanner erased if and only if every comment of the text is one for the server |
| ServerReading.SameKept | crates/core/src/safe_mode.rs:183-259 | where in addition every comment is one for both, they keep the very same characters |
| ServerReading.AllowedIsReadingForServer | crates/core/src/safe_mode.rs:131-232 | such a text that is allowed unasked is at most one statement for the server, which starts with a reading keyword or with no keyword at all |
| ServerReading.StartsWithoutRisk | crates/core/src/safe_mode.rs:131-171 | such a statement starts with no keyword that writes, defines, controls transactions or changes the session |
| ServerReading.ErasedStatementExample | crates/core/src/safe_mode.rs:183-232 | an allowed text whose erased part the server executes as a second statement, because a backslash takes a quote |
| ServerReading.HiddenStatementExample | crates/core/src/safe_mode.rs:183-232 | an allowed text whose second statement the scanner takes for a string |
| ServerReading.ExecutableCommentIsAllowed | crates/core/src/safe_mode.rs:131-232 | an executable comment of any content is no statement and needs no confirmation, and the server reads its content as a text |
| SqlGenerator.QuotingRoundTrip | crates/core/src/sql_generator.rs:41-44 | where only a doubled quote is an escape, as in a name in backticks, a quoted token is read back as the original for every text, whatever follows |
| MySqlStrings.ReadsBackIff | crates/core/src/sql_generator.rs:46-48 | with backslash escapes a string literal is read back as the original if and only if every backslash in it is followed by a percent sign or an underscore |
| MySqlStrings.ClosesIff | crates/core/src/sql_generator.rs:46-48 | a string literal ends at its own closing quote if and only if no backslash takes a quote or the end of the text |
| SqlGenerator.StringReadsBackIff | crates/core/src/sql_generator.rs:50-60 | a quoted boundary literal is read back as the boundary under the same condition |
| SqlGenerator.LiteralIsConstantIff | crates/core/src/sql_generator.rs:50-60 | a boundary value becomes an SQL constant if and only if it is not one of the non-finite float names, is no number beyond the range of doubles, and no backslash in it takes a quote or the end |
| SqlGenerator.BareWordExample | crates/core/src/sql_generator.rs:50-60 | the value NaN is emitted as a bare word |
| SqlGenerator.HugeNumberExample | crates/core/src/sql_generator.rs:50-60 | the value 1e400 is emitted as it stands and is no constant |
| SqlGenerator.OpenStringExample | crates/core/src/sql_generator.rs:50-60 | the value of one backslash is emitted as a string that never ends |
| SqlGenerator.LostBackslashExample | crates/core/src/sql_generator.rs:50-60 | a string with a backslash before a letter is closed, but read back without the backslash |
| GeneratedSql.QuotedIsInert | crates/core/src/sql_generator.rs:41-48 | the scanner reads a quoted token whole and is back at the top level behind it, for every text and every quote character |
| GeneratedSql.LiteralIsInert | crates/core/src/sql_generator.rs:50-60 | the same for every boundary literal, quoted or numeric |
| GeneratedSql.TableIsInert | crates/core/src/sql_generator.rs:62-71 | the same for every qualified table name |
| GeneratedSql.GeneratedSqlReadsOnly | crates/core/src/sql_generator.rs:73-200 | every statement of every generator, for all names, boundaries and limits, is one statement, is its own normal form and is safe |
| GeneratedSql.GuardAllowsGeneratedSql | crates/tui/src/app_logic/query_actions/query_execution.rs:118-133 | the guard lets every generated statement through in every state, so paging never ends in a confirmation prompt |
| GeneratedForServer.GeneratedReadsAlikeIff | crates/core/src/sql_generator.rs:41-200 | scanner and server read a generated statement alike if and only if no backslash in a string put into it takes a quote or the end; it is then one statement for the server too, for all names and limits, and starts with a reading keyword |
| SqlReading.PageTextMeansIff | crates/core/src/sql_generator.rs:81-135 | for all names, reading the text of a page query as the server does gives its table, key column, boundary value, side of the boundary, order and window if and only if the boundary is a number that the server accepts, or is quoted and keeps its backslashes |
| SqlReading.NameBoundaryExample | crates/core/src/sql_generator.rs:50-60 | with the boundary NaN a page query compares its key with a column |
| SqlReading.AnswerIsTextRows | crates/core/src/sql_generator.rs:81-135 | for integer boundaries the rows the page protocol works with are those of the query its text spells |
| StatementReading.OtherTextMeansIff | crates/core/src/sql_generator.rs:137-200 | for all names, reading back the text of any other statement gives what was asked for, of that table and column; an estimate gives its two names if and only if both keep their backslashes |
| StatementReading.TargetIff | crates/core/src/sql_generator.rs:28-38 | a target has a table name that is not blank, and a database name that is not, if it has one |
| StatementReading.GeneratedUnless | crates/core/src/sql_generator.rs:81-200 | a text is generated unless a column is asked for by a blank name, or an estimate without a database |
| ResultsBuffer.ResultsRingBuffer.Push | crates/core/src/results_buffer.rs:57-63 | after a push the buffer holds the last rows of the whole stream, as many as fit |
| ResultsBuffer.LastNAppend | crates/core/src/results_buffer.rs:57-63 | bounding at every push is the same as bounding the whole stream once |
| ResultsBuffer.LastNPosition | crates/core/src/results_buffer.rs:45-55 | buffered row i is stream row earliest index plus i |
| ResultsBuffer.ResultsRingBuffer.VisibleRows | crates/core/src/results_buffer.rs:71-82 | the visible rows are the requested slice of the buffer, cut at its end |
| ResultsBuffer.ExecuteStreaming | crates/core/src/query_runner.rs:104-142 | for every stream, starting buffer and cancellation schedule: the rows kept, the count, one backend cancel exactly when cancelled, exhaustion otherwise, and the error paths, a start that the backend refuses included |
| PageQueries.OrderSorts | crates/core/src/sql_generator.rs:81-97 | ordering by a unique key sorts strictly and neither loses nor repeats a row |
| PageQueries.WhereOrder | crates/core/src/sql_generator.rs:114-124 | filtering before ordering gives the same rows as ordering before filtering |
| PageQueries.WhereSplits | crates/core/src/sql_generator.rs:114-124 | in key order the rows beyond the key of row j are exactly those after it, and those below it exactly those before |
| PageQueries.AnswerNext | crates/core/src/sql_generator.rs:114-118 | the next-page query from row j returns the rows that follow row j |
| PageQueries.AnswerPrevious | crates/core/src/sql_generator.rs:119-123 | the previous-page query from row j returns the rows just before row j, in key order |
| Pagination.CandidateIsFound | crates/tui/src/lib_helpers.rs:304-328 | looking the chosen key column up without regard to case finds that very column |
| Pagination.CandidateChoice | crates/tui/src/lib_helpers.rs:304-316 | the first column that spells id in any case is chosen, else the first that ends in _id in any case; none exactly when there is neither |
| Pagination.PagedResults.StartPreviewPagedQuery | crates/tui/src/app_logic/query_actions/pagination.rs:2-25 | the new paging state and the query handed to execution, or the caller's own SQL |
| Pagination.PagedResults.RunPaginationTransition | crates/tui/src/app_logic/query_actions/pagination.rs:27-52 | a transition is left pending exactly when a query can be issued, and nothing changes otherwise |
| Pagination.PagedResults.FinalizePaginationAfterQuery | crates/tui/src/app_logic/query_actions/pagination.rs:130-179 | the new index, row count and key bounds after a delivered page |
| PageProtocol.StepAnswer | crates/tui/src/app_logic/query_actions/pagination.rs:27-107 | a transition issues a query exactly when there is a boundary to page from, and the query returns exactly the page asked for |
| PageProtocol.StepRunsItsText | crates/tui/src/app_logic/query_actions/pagination.rs:54-107 | the query a step answers is the one that its SQL text spells |
| PageProtocol.RunShows | crates/tui/src/app_logic/query_actions/pagination.rs:27-179 | after every run of transitions a nonempty screen is page `page_index` of the key-ordered table and the stored bounds are its first and last key; the only empty screens are the empty table and the page after a full last page |
| PageProtocol.OpenedShows | crates/tui/src/app_logic/query_actions/pagination.rs:2-25 | a preview of a keyed table starts on page 0 |
| PageProtocol.KeysetSimulatesSlices | crates/tui/src/app_logic/query_actions/pagination.rs:54-179 | through the same transitions keyset paging over a table and OFFSET slicing of the key-ordered table show the same rows under the same index all the time if and only if Previous is never pressed on an empty screen past the first page |
| PageProtocol.StepsAgreeIff | crates/tui/src/app_logic/query_actions/pagination.rs:54-179 | one transition keeps them in agreement if and only if it is not such a Previous |
| PageProtocol.PreviousUndoesNext | crates/tui/src/app_logic/query_actions/pagination.rs:130-179 | Previous after a nonempty Next restores rows, index and both stored keys |
| PageProtocol.NextUndoesPrevious | crates/tui/src/app_logic/query_actions/pagination.rs:130-179 | Next after Previous restores the same, from every page but the first |
| PageProtocol.PreviousWorksIff | crates/tui/src/app_logic/query_actions/pagination.rs:83-86 | past the first page, where Previous is always offered, it issues a query if and only if the screen is not empty |
| PageProtocol.GatedRunShows | crates/tui/src/app_logic/query_actions/pagination.rs:186-194 | under the offered actions an empty screen over a nonempty table means that the last page was full |
| PageProtocol.OfferedIff | crates/tui/src/app_logic/query_actions/pagination.rs:186-194 | on a nonempty screen Next is offered exactly when the page is full and Previous exactly past the first page; where Next is not offered the last row of the table is shown, and it is offered in vain exactly when the table ends with a full page |
| PageProtocol.SweepShowsEveryRow | crates/tui/src/app_logic/query_actions/pagination.rs:27-179 | pressing Next from the first page shows every row exactly once, in key order |
| PageProtocol.SliceRunShows | crates/tui/src/app_logic/query_actions/pagination.rs:97-106 | what every run of the OFFSET fallback shows |
| PageProtocol.OpenedShowsSlice | crates/tui/src/app_logic/query_actions/pagination.rs:2-25 | a preview of a table without a key column starts on page 0 of the OFFSET plan |
| PageProtocol.SlicePreviousSkips | crates/tui/src/app_logic/query_actions/pagination.rs:97-106 | after an empty page the fallback goes back two pages |
| PageProtocol.RetriedKeepsPosition | crates/tui/src/app_logic/runtime/query.rs:106-131 | a page query retried after a failure shows the page asked for and leaves index, row count and bounds as they were |
| PageProtocol.RetriedNextRepeats | crates/tui/src/app_logic/runtime/query.rs:106-131 | after a retried Next, Next shows the same page again and only then counts it |
| PageProtocol.CancelledNext | crates/tui/src/app_logic/query_actions/pagination.rs:130-194 | a Next cancelled after some rows shows them as the next page, offers Next only if they fill a page, and Previous restores the page before exactly |
| PageProtocol.CancelledAtOnce | crates/tui/src/app_logic/query_actions/pagination.rs:130-179 | a page query cancelled before its first row leaves neither Next nor Previous working |
| RepeatedKeys.NextSkipsEqualKeys | crates/tui/src/lib_helpers.rs:304-319 | with repeating keys the next page starts at the first larger key; the rows left out are those behind the page with its last key, and no later boundary brings them back |
| RepeatedKeys.NothingSkippedIff | crates/core/src/sql_generator.rs:114-118 | the next page continues where the page ends if and only if the row behind it has another key |
| RepeatedKeys.OpenedShowsFrom | crates/tui/src/app_logic/query_actions/pagination.rs:2-25 | a preview starts a sweep whether the key column repeats or not |
| RepeatedKeys.NeverShownIff | crates/tui/src/app_logic/query_actions/pagination.rs:27-179 | with repeating keys, what each screen of a sweep shows; a row is never shown if and only if some page ends before it with its key |
| RepeatedKeys.EverythingSeenIff | crates/tui/src/app_logic/query_actions/pagination.rs:27-179 | a sweep shows the whole ordered table if and only if no page ends between two rows with the same key |
| RuntimeSafety.RunKeeps | crates/tui/src/app_logic/runtime/handle.rs:2-239 | every run of messages, ticks and outcomes keeps the invariant of query channel, connect channel, guard and history |
| RuntimeSafety.ReachableIsCoherent | crates/tui/src/app_logic/runtime/query.rs:44-67 | in every reachable state: channel and token together, backend behind an open channel, connect flag and channel together, replay only behind an automatic reconnect, confirmation always accepted |
| RuntimeSafety.ConfirmationSucceeds | crates/tui/src/app_logic/runtime/query.rs:21-32 | Enter on a stored confirmation never reaches the failure branch |
| RuntimeSafety.SubmittedWasAuthorised | crates/tui/src/app_logic/query_actions/query_execution.rs:39-134 | each SQL text that reaches execution in any run, retries and replays included, was allowed by the guard or confirmed before |
| RuntimeSafety.RiskySqlWasConfirmed | crates/tui/src/app_logic/query_actions/query_execution.rs:99-134 | risky SQL under a guard that was always on runs only after that very text was asked about and confirmed |
| RuntimeSafety.InstalledIsLatest | crates/tui/src/app_logic/runtime/query.rs:44-105 | in the history, results are installed only from the worker of the latest submission; what this means for the screen is `ShownIsLatest` |
| RuntimeSafety.RunningIsLatest | crates/tui/src/app_logic/query_actions/query_execution.rs:68-84 | an open query channel is that of the latest start, and its worker runs the SQL of that start |
| RuntimeScreen.ShownIsHistory | crates/tui/src/app_logic/runtime/query.rs:69-105 | in every run: a worker's rows are on screen if and only if their delivery is the latest event among starts at a worker, deliveries and ends of simulated queries; demo rows likewise; and the screen is empty from a start at a worker to its answer |
| RuntimeScreen.ShownIsLatest | crates/tui/src/app_logic/runtime/query.rs:69-105 | rows on screen were delivered by the worker of the latest submission before their delivery, never by a superseded one |
| RuntimeSteps.SubmissionDecides | crates/tui/src/app_logic/query_actions/query_execution.rs:92-134 | fresh SQL is blocked, started at once or asked about, by safety, profile and switch, and nothing else is logged |
| RuntimeSteps.ConfirmingStarts | crates/tui/src/app_logic/runtime/query.rs:21-33 | Enter on a stored question starts the very SQL asked about and spends the token |
| RuntimeSteps.StartedAfresh | crates/tui/src/app_logic/query_actions/query_execution.rs:39-90 | after any message that starts a query, worker, token, screen, editor and every retry field belong to this query alone |
| RuntimeSteps.RowsEndTheQuery | crates/tui/src/app_logic/runtime/query.rs:64-105 | delivered rows are shown and end the query, and nothing of it is left |
| RuntimeSteps.FailureDecides | crates/tui/src/app_logic/runtime/query.rs:106-166 | a failure is retried, reconnected or reported, under which conditions, and what each leaves; a cancelled query's is reported |
| RuntimeSteps.ReportedCanBeRerun | crates/tui/src/app_logic/query_actions/error_panel.rs:17-31 | the primary action of the error panel starts the failed SQL again |
| RuntimeSteps.ConnectDelivers | crates/tui/src/app_logic/runtime/connect.rs:111-137 | a connect that succeeds makes its profile the current one and replays what waited for it |
| RuntimeSteps.ConnectFails | crates/tui/src/app_logic/runtime/connect.rs:138-162 | a connect that fails is tried again or reported, and nothing waits any more when it is reported |
| RuntimeSteps.ConnectChoice | crates/tui/src/app_logic/runtime/connect.rs:2-62 | which profile the connect key takes in each pane and on the error panel, and that nothing happens while a connect is under way |
| RuntimeSteps.LeavesIff | crates/tui/src/app_logic/runtime/handle.rs:2-140 | the application ends exactly by the quit key or a second cancel key while no query runs, and how long the question stands |
| RuntimeSteps.OthersKeepQuery | crates/tui/src/app_logic/runtime/handle.rs:49-194 | no other message touches a query; a rename reaches the current profiles exactly where they have the name |
| RuntimeSteps.PanelMessages | crates/tui/src/app_logic/runtime/handle.rs:168-194 | how the error panel is left, and what the diagnostics put on it |
| RuntimeCancellation.CancelKeyCancels | crates/tui/src/app_logic/runtime/handle.rs:138-140 | the cancel key cancels the token of the open worker, the cancel action leaves it as it was; both mark the query as withdrawn |
| RuntimeCancellation.CancelledStaysWithWorker | crates/tui/src/app_logic/query_actions/query_execution.rs:63-84 | over any run a cancelled token stays with its worker for as long as the worker's channel is open |
| RuntimeCancellation.TokenStaysUntilAnswer | crates/tui/src/app_logic/runtime/query.rs:44-67 | over any ticks without an answer channel and token stay as they are |
| RuntimeCancellation.CancelledByKey | crates/tui/src/app_logic/runtime/handle.rs:138-140 | in every run a token is cancelled only if the cancel key was pressed after its worker's start |
| RuntimeFailures.FailingTickDescends | crates/tui/src/app_logic/runtime/query.rs:106-166 | a tick on which workers only fail lowers a lexicographic measure or changes nothing, and when it changes nothing |
| RuntimeFailures.FreshFailuresEnd | crates/tui/src/app_logic/runtime/connect.rs:138-162 | a fresh query that keeps failing is resubmitted at most QUERY_RETRY_LIMIT times and causes at most AUTO_RECONNECT_LIMIT reconnects; it waits on exactly one open channel until the application is idle with an error panel open for good, which it is by the last of at most 1 + QUERY_RETRY_LIMIT + AUTO_RECONNECT_LIMIT answers |
| RuntimeFailures.ReplayRunsTheFailedSql | crates/tui/src/app_logic/runtime/connect.rs:121-137 | a reconnect that succeeds gives exactly the failed SQL to a new worker |
| RuntimeFailures.CancelWithdraws | crates/tui/src/app_logic/runtime/handle.rs:127-155 | either way of cancelling marks the open query as withdrawn; what becomes of the token is `CancelKeyCancels` |
| RuntimeFailures.CancelledStaysCancelled | crates/tui/src/app_logic/runtime/query.rs:120-152 | no number of ticks resubmits a cancelled query, whatever the workers deliver |
| RuntimeFailures.ConnectStallsDemo | crates/tui/src/app_logic/runtime/handle.rs:202-222 | a connect that succeeds while a simulated query runs leaves it stalled |
| RuntimeFailures.StalledForever | crates/tui/src/app_logic/runtime/handle.rs:196-222 | no number of ticks ends a stalled query |
| RuntimeFailures.DemoEnds | crates/tui/src/app_logic/runtime/handle.rs:202-222 | left alone a simulated query ends after exactly its ticks |
| RuntimeReadOnly.ReadOnlyHoldsIff | crates/tui/src/app_logic/query_actions/query_execution.rs:92-116 | for every message and every tick: risky SQL starts under a read-only profile if and only if the step confirms SQL asked about before, reruns SQL that failed before, replays it after a reconnect to that profile, or retries it while that profile is connected |
| RuntimeReadOnly.MessageStarts | crates/tui/src/app_logic/query_actions/query_execution.rs:92-134 | under a read-only profile a user message starts risky SQL if and only if it confirms SQL asked about before or reruns SQL that failed before |
| RuntimeReadOnly.TickStarts | crates/tui/src/app_logic/runtime/query.rs:120-131 | a tick starts risky SQL if and only if it replays or retries it, and which profile is the current one when the SQL starts |
| RuntimeReadOnly.DetourRunsRisky | crates/tui/src/app_logic/runtime/query.rs:21-32 | every risky text asked about under a writable profile can come to be confirmed, and given to a worker, under a read-only one |
| RuntimeReadOnly.HandoverRunsRisky | crates/tui/src/app_logic/runtime/query.rs:120-131 | every nonempty risky text confirmed under a writable profile can come to be retried under a read-only one that was connected meanwhile |
| RuntimeApp.TuiApp.EvaluateAndStart | crates/tui/src/app_logic/query_actions/query_execution.rs:118-134 | the answer of the guard object and the state after it are those of the step |
| RuntimeApp.TuiApp.ExecuteSqlWithGuard | crates/tui/src/app_logic/query_actions/query_execution.rs:92-134 | the assessment loop and the guard object together decide as the step does: blocked, started or asked about |
| RuntimeApp.TuiApp.SubmitEditor | crates/tui/src/app_logic/runtime/query.rs:21-33 | Enter in the editor spends the guard object's token and follows its reply, or submits the text |
| RuntimeApp.OthersKeepGuard | crates/tui/src/app_logic/runtime/handle.rs:2-194 | no message but a submission, an SQL action or the safe-mode key touches the guard |
| RuntimeApp.TuiApp.Handle | crates/tui/src/app_logic/runtime/handle.rs:2-194 | one message is one step of the protocol, the guard object and the state stay in agreement, and the invariant is kept |
| AuditTrail.RenameKeepsChain | crates/core/src/audit_trail.rs:211-231 | moving a file up into a free slot leaves the concatenation of all files as it was |
| AuditTrail.ChainAfter | crates/core/src/audit_trail.rs:202-231 | only removing the oldest archive loses anything, and it loses the oldest lines |
| AuditTrail.EveryStepIsSafe | crates/core/src/audit_trail.rs:153-234 | after every single file system step of every history, each write call and failed calls included: the files concatenate to a suffix of all that was written, few enough files, sizes bounded, no rename onto an existing file |
| AuditTrail.FitsIff | crates/core/src/audit_trail.rs:186-202 | a line fits exactly when its bytes and those of the current file are within the limit; at least one archive is kept |
| AuditTrail.FileAuditTrail.ShiftArchives | crates/core/src/audit_trail.rs:202-231 | the descending loop moves every file up by one and drops the oldest; it reports a failure exactly when an operation failed |
| AuditTrail.FileAuditTrail.RotateIfNeeded | crates/core/src/audit_trail.rs:186-234 | nothing happens when the line fits, a whole shift when it does not, every step taken stays legal, and a failure is reported exactly when an operation failed |
| AuditTrail.FileAuditTrail.Append | crates/core/src/audit_trail.rs:153-184 | a line is appended whole to the right file, or an operation and with it the call fails and at most a front part was written |
| Utf8.EncodeInjective | crates/tui/src/app_logic/input.rs:97-117 | bytes determine the text they encode |
| Utf8.BoundaryIffPrefix | crates/tui/src/app_logic/input.rs:197-204 | character boundaries are exactly the encoded lengths of prefixes |
| Utf8.CharIndicesOf | crates/tui/src/lib_helpers.rs:133-157 | iterating over characters visits exactly the ends of the prefixes |
| QueryEditor.QueryEditor.ClampQueryCursor | crates/tui/src/app_logic/input.rs:197-204 | the loop stops at the nearest boundary at or before the cursor |
| QueryEditor.QueryEditor.InsertTextAtQueryCursor | crates/tui/src/app_logic/input.rs:97-105 | the bytes, the cursor and the history position after an insertion |
| QueryEditor.QueryEditor.BackspaceQueryEditorChar | crates/tui/src/app_logic/input.rs:107-117 | the bytes, the cursor and the history position after a backspace |
| QueryEditor.QueryEditor.UsePreviousQueryFromHistory | crates/tui/src/app_logic/input.rs:133-151 | one step back in the history, the draft kept |
| QueryEditor.QueryEditor.UseNextQueryFromHistory | crates/tui/src/app_logic/input.rs:153-174 | one step forward, or back to the draft |
| QueryEditor.QueryEditor.RecordQueryHistory | crates/tui/src/app_logic/input.rs:176-195 | the history after a submission |
| QueryEditor.EditRefines | crates/tui/src/app_logic/input.rs:97-174 | every edit of the bytes is the edit of the characters before and after the cursor |
| QueryEditor.CursorStaysOnBoundary | crates/tui/src/app_logic/input.rs:197-216 | after any edits the cursor is in the text and on a boundary, clamping does nothing, and the text can be cut there |
| QueryEditor.ShownOnce | crates/tui/src/app_logic/input.rs:97-131 | bytes and cursor determine the characters before and after it |
| QueryEditor.BackspacesUndoInsert | crates/tui/src/app_logic/input.rs:97-117 | one backspace for each inserted character restores text and cursor |
| QueryEditor.MovesUndoEachOther | crates/tui/src/app_logic/input.rs:119-131 | left undoes right and right undoes left, away from the ends, where they do nothing |
| QueryEditor.LineColOfZipper | crates/tui/src/app_logic/input.rs:206-216 | line and column found in the bytes are those of the characters before the cursor |
| QueryEditor.HistoryIsLatest | crates/tui/src/app_logic/input.rs:176-195 | the history is the latest hundred of all submissions without blanks and immediate repetitions |
| QueryEditor.DownsUndoUps | crates/tui/src/app_logic/input.rs:133-174 | going down as often as up brings the draft back, however long the history is |
| ResultsLayout.FitColumnRangeFrom | crates/tui/src/rendering/pane_results.rs:232-245 | the running total computes the greedy range |
| ResultsLayout.FitEndIsGreatest | crates/tui/src/rendering/pane_results.rs:232-245 | the greedy range reaches exactly as far as the columns together fit |
| ResultsLayout.VisibleColumnWindow | crates/tui/src/rendering/pane_results.rs:211-230 | the search ends at the least start from the hint whose range holds the selection |
| ResultsLayout.ShrinkWidthsToFit | crates/tui/src/rendering/pane_results.rs:247-263 | the in-place loop over the widths computes the shrinking function |
| ResultsLayout.ShrinkingIsExactAndLevel | crates/tui/src/rendering/pane_results.rs:247-263 | shrinking leaves fitting widths alone, else fits exactly or ends at the floor; shrunk columns are within one of every other |
| ResultsLayout.ComputeResultsLayout | crates/tui/src/rendering/pane_results.rs:163-209 | window around the selection, least start, widths from 3 to 28, total within the available width, and which widths |
| ResultsLayout.ColumnCountIsLeast | crates/tui/src/rendering/pane_results.rs:169-174 | there are as many columns as the headers or the longest row have |
| ResultsLayout.WidthIsLeast | crates/tui/src/rendering/pane_results.rs:176-187 | between 3 and 28 a column is just as wide as its label and its longest value; columns without a header are labelled by their number |
| ResultsLayout.RowsAlign | crates/tui/src/rendering/pane_results.rs:272-340 | every line has the layout's length and every cell its place, whatever the values |
| ResultsLayout.PaddedShows | crates/tui/src/rendering/pane_results.rs:292-334 | a cell shows its whole value, or as much as leaves room for three dots |
| ResultsLayout.EmphasizedShows | crates/tui/src/rendering/pane_results.rs:301-334 | the selected cell shows the same in brackets |
| CsvExport.CsvRoundTrip | crates/adapters/src/export.rs:50-92 | reading the file by rules 5 to 7 of section 2 of RFC 4180 gives headers and rows back if and only if there is a header |
| CsvExport.ReadsField | crates/adapters/src/export.rs:177-183 | an escaped value before a separator is read back as the value |
| CsvExport.EscapedIff | crates/adapters/src/export.rs:177-183 | exactly the values with a separator, a quote or a line feed are quoted |
| CsvExport.ExportRowsToCsv | crates/adapters/src/export.rs:42-96 | the printing loops write exactly that file and count the rows |
| ColumnNames.FreeName | app/src/main.rs:582-587 | the numbering loop ends, by the number of used names, with the first candidate that is free |
| ColumnNames.NormalizeColumnNames | app/src/main.rs:569-593 | as many names as asked for, each the first free candidate after the ones before |
| ColumnNames.NamesAreDistinct | app/src/main.rs:569-593 | the names are pairwise distinct, not blank and trimmed |
| ColumnNames.NamesAreDetermined | app/src/main.rs:569-593 | the rule determines the names |
| ColumnNames.WideningKeepsNames | app/src/main.rs:345-347 | normalising normalised names for a wider row keeps them and only appends |
| ColumnNames.NumbersInNames | app/src/main.rs:574-587 | a column without a name gets its number, a repeated one the number of the repetition |
| ColumnNames.RowAsJsonObject | app/src/main.rs:595-605 | the keys are the headers, the last column of a name wins, and distinct headers lose no value |
| ColumnNames.StreamQueryAsJsonLines | app/src/main.rs:334-362 | one object a row, whatever the stream announces as columns and when; the final columns fit every row, so no value is lost and no key changes; they start with the names first announced or numbered |
| Ordering.SortBy | crates/core/src/schema_cache/relationships.rs:48-55 | a sorted permutation |
| Ordering.FirstCharacterDecides | crates/core/src/schema_cache/relationships.rs:49-52 | the first character in which two texts differ decides their order, and a front part comes first |
| Relationships.CollectTableRelationships | crates/core/src/schema_cache/relationships.rs:3-58 | the nested loops and the sort return the collected relationships, permuted into the order of the five-part key; which these are is `DatabaseIsFirst`, `OutboundListed`, `InboundListed` and `NothingElseListed` |
| Relationships.DatabaseIsFirst | crates/core/src/schema_cache/types.rs:41-43 | the database looked up is the first of its name; none is found exactly when none has it |
| Relationships.TableIsFirst | crates/core/src/schema_cache/relationships.rs:14-18 | the same for tables |
| Relationships.OutboundListed | crates/core/src/schema_cache/relationships.rs:14-29 | a relationship to any database is listed as often as the first table of that name holds its key |
| Relationships.InboundListed | crates/core/src/schema_cache/relationships.rs:31-46 | where table names are distinct, a relationship from any table is listed as often as that table holds the key that refers here |
| Relationships.NothingElseListed | crates/core/src/schema_cache/relationships.rs:14-46 | every relationship listed is of one of these kinds and comes from a key that its table holds |
| Relationships.FirstDifferenceDecides | crates/core/src/schema_cache/relationships.rs:48-55 | the order is decided by the first of the five parts in which two relationships differ |
| Relationships.KeyOrderIsTotal | crates/core/src/schema_cache/relationships.rs:48-55 | the five-part comparison is a total order |
| Relationships.DirectionsAgree | crates/core/src/schema_cache/relationships.rs:14-46 | a relationship of A to B is listed for A as often as its mirror image for B |
| Relationships.SchemaCacheService.SchemaAt | crates/core/src/schema_cache/service.rs:105-112 | the cached catalog as long as it is not older than the time to live, else the answer of the backend; a hit asks nothing |
| Relationships.SchemaCacheService.RefreshAt | crates/core/src/schema_cache/service.rs:114-127 | a failure keeps the old catalog |
| Relationships.SchemaCacheService.ListRelatedTables | crates/core/src/schema_cache/service.rs:92-103 | the relationships are those of the catalog served, delivered within the time to live; the call fails only when the backend is asked and fails |
| Palette.FuzzySubsequenceScore | crates/tui/src/app_logic/navigation/palette_search.rs:75-105 | the loop scores the greedy match |
| Palette.GreedyIsEarliest | crates/tui/src/app_logic/navigation/palette_search.rs:82-102 | the greedy match succeeds whenever any match does, and each of its positions is the earliest possible |
| Palette.FuzzyIffSubsequence | crates/tui/src/app_logic/navigation/palette_search.rs:75-105 | there is a score if and only if the query is a subsequence, and it lies between 500 and 716 |
| Palette.TextScoreBands | crates/tui/src/app_logic/navigation/palette_search.rs:53-73 | at least 760 exactly for substrings, at most 716 for all other matches |
| Palette.SubstringsOutrankFuzzy | crates/tui/src/app_logic/navigation/palette_search.rs:34-51 | an action scores at least 760 exactly when the query is a substring of title, description or an alias; fuzzy matches stay at 746 or below |
| PaletteScores.TextScoreLevels | crates/tui/src/app_logic/navigation/palette_search.rs:53-73 | 1000 exactly for the text itself, 900 for a front of it, 820 for the start of a word, 760 elsewhere in it, and the fuzzy score otherwise |
| PaletteScores.StartsAWordIff | crates/tui/src/app_logic/navigation/palette_search.rs:63-68 | a word starts with the query if and only if the query is letters and digits and stands at the start or behind a character that is neither |
| PaletteScores.FuzzyPoints | crates/tui/src/app_logic/navigation/palette_search.rs:87-102 | a fuzzy match has the full points if and only if it has no gaps, and loses at most 12 for each |
| PaletteScores.BestOfAll | crates/tui/src/app_logic/navigation/palette_search.rs:34-51 | an action has the most points that its title with 30 more, its description or an alias with 15 more has |
| Palette.BaseScore | crates/core/src/actions_engine/ranking.rs:5-227 | base scores lie between 0 and 1000; which action has which is `PointsWhereItApplies` |
| PaletteScores.PointsWhereItApplies | crates/core/src/actions_engine/ranking.rs:5-227 | an action has its points exactly where there is something for it to work on |
| Palette.BoostIsRecency | crates/core/src/actions_engine/engine.rs:160-173 | over any run of uses the boost is 25 less the number of uses since, and never negative |
| Palette.ActionsEngine.RecordUse | crates/core/src/actions_engine/engine.rs:160-163 | the usage after one more use |
| Palette.ActionsEngine.RankTopN | crates/core/src/actions_engine/engine.rs:39-61 | sorted, as many as asked for or there are, and nothing left out ranks before something returned |
| Palette.CombinedIsLexicographic | crates/tui/src/app_logic/navigation/palette.rs:23-33 | ordering by the combined score is ordering by match, then rank, then title |
| Palette.SortedMatches | crates/tui/src/app_logic/navigation/palette.rs:9-34 | exactly the matching actions, in that order |
| Palette.PaletteEntries | crates/tui/src/app_logic/navigation/palette.rs:2-35 | the best fifty actions as ranked for a blank query, otherwise those of them that match, in match order |
| Stores.ListedOnce | crates/core/src/profiles.rs:143-149 | only one name-sorted list enumerates a map |
| Stores.NamedStore.Load | crates/core/src/profiles.rs:143-149 | the last entry of a name counts, and a list already in order is taken as it is |
| Stores.NamedStore.Upsert | crates/core/src/profiles.rs:297-308 | the list stays the enumeration of the map with that one entry set |
| Stores.NamedStore.Delete | crates/core/src/bookmarks.rs:163-167 | the list stays the enumeration of the map without that name, and whether it was there |
| Stores.RenameSelected | crates/tui/src/app_logic/navigation/manager_interactions.rs:165-232 | each outcome exactly: one map entry moves, all others stay, the cursor follows; names in use are refused, the same name changes nothing; what a failed write leaves |
| Stores.SetDefaultProfile | crates/core/src/profiles.rs:311-320 | exactly one profile is marked and nothing else of any profile changes |

## Left out

- The MySQL driver, TLS, keyring, terminal drawing, key mapping, TOML and JSON encoding, gzip, environment variables and threads: foreign libraries or input and output.
- RunShows: holds over an unchanging table with a unique canonical integer key and page queries that succeed uncancelled at the first attempt. What a repeating key, a retry and a cancellation change is stated by lemmas of their own; string collation of keys and the order of rows with equal keys are the server's.
- TuiApp: the runtime's steps are functions on one record, which the class holds beside the guard object; the order of the assignments within one step is not captured. The page protocol's fields are an object of their own (`PagedResults`), so a page query reaches the runtime as the SQL text of an action. The status line, panes other than the current one and search mode are left out, and messages that only move the cursor or change the screen are one message with the new editor text and pane.
- Handle: enablement of actions is left to the message, except that nothing but the cancel action runs while a query runs.
- EveryStepIsSafe: a test for the existence of a file is taken to be accurate, the directory starts empty and nobody else writes to it; at a limit of 2^64 - 1 bytes the saturating sum always fits, so sizes are not bounded there.
- GeneratedSqlReadsOnly: speaks of the scanner's reading; the server's is stated by `GeneratedReadsAlikeIff`, `LiteralIsConstantIff` and `PageTextMeansIff`.
- ReadString: reads single-quoted strings under the default SQL mode; NO_BACKSLASH_ESCAPES and character sets whose multibyte characters contain a backslash are not modelled.
- AllowedIsReadingForServer: is stated in one direction. Where the two readings part, an allowed text may still be harmless.
- ServerReading: the end and the version number of an executable comment, MariaDB's `/*M!`, optimizer hints, and the SQL modes ANSI_QUOTES and NO_BACKSLASH_ESCAPES are not modelled.
- PageTextMeansIff: takes a number at the value it spells; the rounding of doubles and of decimals beyond 65 digits is the server's.
- ReadCsv: ends records at a line feed. A reader that takes CR LF as the end of a record drops a trailing CR of an unquoted last value.
- FuzzySubsequenceScore: the gap penalty is an unbounded integer here and 32 bits wide in the code.
- ResultsRingBuffer: `total_rows_seen` does not saturate in the model.
- Leq: compares scalar values; that this is the order of the UTF-8 bytes is not proved.
- SortBy: is one sort among those that the library may use; what is stated of the results does not depend on how ties are broken.
- The SQL meaning of statements other than page queries, the hash behind the fingerprint, the text of failure messages, action enablement, wizard fields, pane cycling, export of JSON files, benchmark thresholds and the migration of old profile documents: external, or settled by reading one branch.
