/** The promise of read-only profiles, and exactly when the runtime keeps it. */
module RuntimeReadOnly {
  import opened Text
  import opened ConfirmationGuard
  import opened Runtime
  import opened RuntimeSafety
  import RuntimeSteps

  predicate Risky(judge: Judge, sql: string) {
    !judge.safe(sql)
  }

  /** Risky SQL was given to execution between the two states. */
  ghost predicate StartsRisky(judge: Judge, a: App, b: App) {
    exists i :: |a.log| <= i < |b.log| && b.log[i].Started? && Risky(judge, b.log[i].sql)
  }

  /** A message reaches its handler. */
  predicate Accepted(a: App, m: Msg) {
    !a.exitConfirmation || m.Quit? || m.Escape? || m.Tick? || m.CancelKey?
  }

  /** Enter confirms risky SQL that was asked about before. */
  predicate ConfirmsRisky(judge: Judge, a: App, m: Msg) {
    && a.errorPanel.None? && m.Submit? && a.pane.QueryEditor?
    && a.pendingConfirmation.Some? && Risky(judge, a.pendingConfirmation.value.1)
  }

  /** The error panel's primary action runs risky SQL again that failed before. */
  predicate RerunsRisky(judge: Judge, a: App, m: Msg) {
    && a.errorPanel == Some(QueryError)
    && (m.Submit? || (m.Action? && m.primary))
    && a.lastFailed.Some? && Risky(judge, a.lastFailed.value)
  }

  lemma StartedIsLogged(judge: Judge, a: App, sql: string)
    ensures StartsRisky(judge, a, StartedQuery(a, sql, false)) <==> Risky(judge, sql)
    ensures StartedQuery(a, sql, false).log ==
            a.log + [Started(sql, if a.backend then Some(a.workers) else None, false)]
  {
    hide Risky;
    var b := StartedQuery(a, sql, false);
    assert b.log[|a.log|].sql == sql;
  }

  lemma SameLogStartsNothing(judge: Judge, a: App, b: App)
    requires b.log == a.log || (|b.log| == |a.log| + 1 && !b.log[|a.log|].Started?)
    ensures !StartsRisky(judge, a, b)
  {
    hide Risky;
  }

  lemma LaterLog(judge: Judge, a: App, c: App, b: App, e: Event)
    requires c.log == a.log + [e] && !e.Started? && |b.log| >= |c.log| && b.log[..|c.log|] == c.log
    ensures StartsRisky(judge, a, b) <==> StartsRisky(judge, c, b)
  {
    hide Risky;
    assert b.log[|a.log|] == c.log[|a.log|];
  }

  /** A new submission under a read-only profile is blocked or safe. */
  lemma NewSubmissionsAreSafe(a: App, judge: Judge, sql: string)
    requires CurrentProfileReadOnly(a)
    ensures !StartsRisky(judge, a, ExecutedWithGuard(a, judge, sql))
  {
    hide StartsRisky, StartedQuery, TokenText;
    if judge.safe(sql) {
      var b := a.(guard := Evaluated(a.guard, judge, sql), pendingConfirmation := None);
      var c := Logged(b, Allowed(sql, a.guard.enabled));
      StartedIsLogged(judge, c, sql);
      LaterLog(judge, a, c, StartedQuery(c, sql, false), Allowed(sql, a.guard.enabled));
    } else {
      SameLogStartsNothing(judge, a, ExecutedWithGuard(a, judge, sql));
    }
  }

  lemma ConfirmedStarts(a: App, judge: Judge)
    requires Inv(a, judge) && a.pendingConfirmation.Some?
    ensures StartsRisky(judge, a, SubmittedEditor(a, judge)) <==> Risky(judge, a.pendingConfirmation.value.1)
  {
    hide Risky, StartsRisky, StartedQuery, LogFits, LatestWorker, Authorised;
    ConfirmationSucceeds(a, judge);
    var (token, sql) := a.pendingConfirmation.value;
    var c := Logged(a.(pendingConfirmation := None, guard := Spent(a.guard, token)), Event.Confirmed(sql));
    StartedIsLogged(judge, c, sql);
    LaterLog(judge, a, c, StartedQuery(c, sql, false), Event.Confirmed(sql));
  }

  lemma RerunStarts(judge: Judge, a: App)
    ensures StartsRisky(judge, a, RanPrimaryErrorAction(a)) <==>
              a.errorPanel == Some(QueryError) && a.lastFailed.Some? && Risky(judge, a.lastFailed.value)
    ensures !StartsRisky(judge, a, ReconnectedFromPanel(a))
  {
    hide Risky, StartsRisky, StartedQuery;
    SameLogStartsNothing(judge, a, ReconnectedFromPanel(a));
    if a.errorPanel == Some(QueryError) && a.lastFailed.Some? {
      StartedIsLogged(judge, a.(errorPanel := None), a.lastFailed.value);
      SameLogs(judge, a, a.(errorPanel := None), RanPrimaryErrorAction(a));
    }
  }

  lemma SameLogs(judge: Judge, a: App, c: App, b: App)
    requires a.log == c.log
    ensures StartsRisky(judge, a, b) <==> StartsRisky(judge, c, b)
  {
    hide Risky;
  }

  lemma PanelStarts(judge: Judge, a: App, m: Msg)
    requires a.errorPanel.Some? && !m.Tick?
    ensures StartsRisky(judge, a, PanelHandled(a, m)) <==> RerunsRisky(judge, a, m)
  {
    hide Risky, StartsRisky, RanPrimaryErrorAction, ReconnectedFromPanel;
    RerunStarts(judge, a);
    if !(m.Submit? || m.Action? || m.Connect?) {
      SameLogStartsNothing(judge, a, PanelHandled(a, m));
    }
    SameLogStartsNothing(judge, a, a);
  }

  lemma CancelStartsNothing(a: App)
    ensures CancelPressed(a).log == a.log
  {
  }

  lemma ConnectStartsNothing(a: App, choice: Option<Profile>)
    ensures ConnectPressed(a, choice).log == a.log
  {
  }

  lemma OthersStartNothing(a: App, judge: Judge, m: Msg)
    requires a.errorPanel.None? && !m.Tick? && !m.Submit? && !(m.Action? && m.invocation.RunSql?)
    ensures !StartsRisky(judge, a, Handled(a, judge, m))
  {
    hide Risky, StartsRisky, ExecutedWithGuard, CancelPressed, ConnectPressed;
    CancelStartsNothing(a);
    if m.Connect? {
      ConnectStartsNothing(a, m.choice);
    }
    SameLogStartsNothing(judge, a, Handled(a, judge, m));
  }

  lemma RunSqlStartsSafe(a: App, judge: Judge, m: Msg)
    requires CurrentProfileReadOnly(a) && a.errorPanel.None? && m.Action? && m.invocation.RunSql?
    ensures !StartsRisky(judge, a, Handled(a, judge, m))
  {
    hide StartsRisky, ExecutedWithGuard;
    NewSubmissionsAreSafe(a, judge, m.invocation.sql);
    SameLogStartsNothing(judge, a, a);
  }

  lemma SubmitStarts(a: App, judge: Judge)
    requires Inv(a, judge) && CurrentProfileReadOnly(a) && a.errorPanel.None? && !a.exitConfirmation
    ensures StartsRisky(judge, a, Handled(a, judge, Submit)) <==> ConfirmsRisky(judge, a, Submit)
  {
    hide Inv, Risky, StartsRisky, ExecutedWithGuard, Trim;
    SameLogStartsNothing(judge, a, a);
    if a.pendingConfirmation.Some? {
      hide SubmittedEditor;
      ConfirmedStarts(a, judge);
    } else {
      NewSubmissionsAreSafe(a, judge, Trim(a.editorText));
    }
  }

  // ---------------------------------------------------------------- ticks

  /** A reconnect made for a replay succeeds, and the SQL waiting for it is risky. */
  predicate ReplaysRisky(judge: Judge, a: App, m: Msg) {
    && m.Tick? && m.connect.Value? && m.connect.value.Connected?
    && a.connectRx.Some? && a.connectIntent.AutoReconnect?
    && a.pendingRetry.Some? && Risky(judge, a.pendingRetry.value)
  }

  /** With the connect channel polled, the open worker's risky SQL has failed for a passing reason, is
      not cancelled and has a retry left. An empty text is not retried. */
  predicate RetriesRisky(judge: Judge, a: App, m: Msg) {
    && m.Tick?
    && var b := PolledConnect(a, m.connect);
       && b.queryRx.Some? && b.queryRx.value.sql != "" && Risky(judge, b.queryRx.value.sql)
       && m.query.Value? && m.query.value.Failed? && m.query.value.transient
       && !b.cancelRequested && b.retryAttempts < QUERY_RETRY_LIMIT
  }

  lemma StartsSplit(judge: Judge, a: App, b: App, c: App)
    requires a.log <= b.log <= c.log
    ensures StartsRisky(judge, a, c) <==> StartsRisky(judge, a, b) || StartsRisky(judge, b, c)
  {
    hide Risky;
    if StartsRisky(judge, a, b) {
      var i :| |a.log| <= i < |b.log| && b.log[i].Started? && Risky(judge, b.log[i].sql);
      assert c.log[i] == b.log[i];
    }
    if StartsRisky(judge, a, c) {
      var i :| |a.log| <= i < |c.log| && c.log[i].Started? && Risky(judge, c.log[i].sql);
      if i < |b.log| {
        assert b.log[i] == c.log[i];
      }
    }
  }

  lemma RetriedIsLogged(judge: Judge, a: App, sql: string)
    ensures StartsRisky(judge, a, StartedQuery(a, sql, true)) <==> Risky(judge, sql)
    ensures StartedQuery(a, sql, true).log == a.log + [Started(sql, if a.backend then Some(a.workers) else None, true)]
  {
    hide Risky;
    var b := StartedQuery(a, sql, true);
    assert b.log[|a.log|].sql == sql;
  }

  lemma ConnectLogs(a: App, profile: Profile)
    ensures StartedConnect(a, profile, AutoReconnect).log == a.log + [Reconnecting]
  {
  }

  lemma ReadyStarts(judge: Judge, a: App, editor: Option<string>)
    requires a.connectRx.Some?
    ensures a.log <= ConnectSucceeded(a, editor).log
    ensures StartsRisky(judge, a, ConnectSucceeded(a, editor)) <==>
              a.connectIntent.AutoReconnect? && a.pendingRetry.Some? && Risky(judge, a.pendingRetry.value)
    ensures ConnectSucceeded(a, editor).activeProfile == a.connectRx
  {
    hide Risky, StartsRisky, StartedQuery;
    var b := a.(connectRx := None, connectRequested := false, connectIntent := Manual, reconnectAttempts := 0);
    var c := AppliedProfile(b, a.connectRx.value, editor).(errorPanel := None);
    if a.connectIntent.AutoReconnect? && a.pendingRetry.Some? {
      StartedIsLogged(judge, c.(pendingRetry := None), a.pendingRetry.value);
      SameLogs(judge, a, c.(pendingRetry := None), ConnectSucceeded(a, editor));
      StartKeepsProfiles(c.(pendingRetry := None), a.pendingRetry.value);
    } else {
      SameLogStartsNothing(judge, a, ConnectSucceeded(a, editor));
    }
  }

  lemma StartKeepsProfiles(a: App, sql: string)
    ensures StartedQuery(a, sql, false).activeProfile == a.activeProfile
    ensures StartedQuery(a, sql, false).lastProfile == a.lastProfile
    ensures StartedQuery(a, sql, true).activeProfile == a.activeProfile
    ensures StartedQuery(a, sql, true).lastProfile == a.lastProfile
  {
  }

  lemma FellThroughStartsNothing(judge: Judge, a: App)
    ensures a.log <= ConnectFellThrough(a).log
    ensures !StartsRisky(judge, a, ConnectFellThrough(a))
  {
    hide StartsRisky, StartedConnect;
    var profile := Or(a.activeProfile, a.lastProfile);
    if profile.Some? {
      ConnectLogs(a.(connectRx := None, connectRequested := false, connectIntent := Manual,
                     reconnectAttempts := a.reconnectAttempts + 1), profile.value);
    }
    SameLogStartsNothing(judge, a, ConnectFellThrough(a));
  }

  lemma ConnectPollStarts(judge: Judge, a: App, m: Msg)
    requires m.Tick?
    ensures a.log <= PolledConnect(a, m.connect).log
    ensures StartsRisky(judge, a, PolledConnect(a, m.connect)) <==> ReplaysRisky(judge, a, m)
    ensures ReplaysRisky(judge, a, m) ==> PolledConnect(a, m.connect).activeProfile == a.connectRx
  {
    hide Risky, StartsRisky, ConnectSucceeded, ConnectFellThrough;
    SameLogStartsNothing(judge, a, a);
    FellThroughStartsNothing(judge, a);
    if a.connectRx.Some? && m.connect.Value? && m.connect.value.Connected? {
      ReadyStarts(judge, a, m.connect.value.editor);
    }
  }

  lemma FailedStarts(judge: Judge, b: App, transient: bool, connectionLost: bool)
    requires QuerySide(b) && b.queryRx.Some?
    ensures var c := QueryFailed(b, transient, connectionLost);
            && b.log <= c.log && c.activeProfile == b.activeProfile
            && (StartsRisky(judge, b, c) <==>
                  transient && !b.cancelRequested && b.retryAttempts < QUERY_RETRY_LIMIT
                  && b.queryRx.value.sql != "" && Risky(judge, b.queryRx.value.sql))
            && (StartsRisky(judge, b, c) ==> c.lastProfile == b.lastProfile)
  {
    hide Risky, StartsRisky, StartedQuery, StartedConnect, AuditSql, LatestWorker;
    AuditSqlIsWorkerSql(b);
    var c := QueryFailed(b, transient, connectionLost);
    var d := b.(queryRx := None, queryCancellation := None, queryRunning := false);
    var sql := AuditSql(b);
    var profile := Or(b.activeProfile, b.lastProfile);
    if transient && !b.cancelRequested && b.retryAttempts < QUERY_RETRY_LIMIT && sql != "" {
      RetriedIsLogged(judge, d.(retryAttempts := d.retryAttempts + 1), sql);
      SameLogs(judge, b, d.(retryAttempts := d.retryAttempts + 1), c);
      StartKeepsProfiles(d.(retryAttempts := d.retryAttempts + 1), sql);
    } else {
      FailedWithoutRetry(judge, b, transient, connectionLost);
    }
  }

  lemma FailedWithoutRetry(judge: Judge, b: App, transient: bool, connectionLost: bool)
    requires !(transient && !b.cancelRequested && b.retryAttempts < QUERY_RETRY_LIMIT && AuditSql(b) != "")
    ensures var c := QueryFailed(b, transient, connectionLost);
            b.log <= c.log && c.activeProfile == b.activeProfile && !StartsRisky(judge, b, c)
  {
    hide Risky, StartsRisky, AuditSql, StartedQuery;
    SameLogStartsNothing(judge, b, QueryFailed(b, transient, connectionLost));
  }

  lemma QueryPollStarts(judge: Judge, b: App, query: Received<QueryOutcome>)
    requires QuerySide(b)
    ensures var c := PolledQuery(b, query);
            && b.log <= c.log && c.activeProfile == b.activeProfile
            && (StartsRisky(judge, b, c) <==>
                  && b.queryRx.Some? && b.queryRx.value.sql != "" && Risky(judge, b.queryRx.value.sql)
                  && query.Value? && query.value.Failed? && query.value.transient
                  && !b.cancelRequested && b.retryAttempts < QUERY_RETRY_LIMIT)
            && (StartsRisky(judge, b, c) ==> c.lastProfile == b.lastProfile)
  {
    hide Risky, StartsRisky, QueryFailed, LatestWorker;
    SameLogStartsNothing(judge, b, b);
    if b.queryRx.Some? {
      FailedStarts(judge, b, false, false);
      if query.Value? && query.value.Failed? {
        FailedStarts(judge, b, query.value.transient, query.value.connectionLost);
      }
      SameLogStartsNothing(judge, b, QuerySucceeded(b));
    }
  }

  lemma DemoStartsNothing(c: App)
    ensures DemoTicked(c).log == c.log || DemoTicked(c).log == c.log + [Simulated]
    ensures DemoTicked(c).activeProfile == c.activeProfile && DemoTicked(c).lastProfile == c.lastProfile
  {
  }

  lemma SameEnds(judge: Judge, a: App, c: App, d: App)
    requires d.log == c.log || d.log == c.log + [Simulated]
    ensures StartsRisky(judge, a, c) <==> StartsRisky(judge, a, d)
  {
    hide Risky;
    assert forall i :: 0 <= i < |c.log| ==> d.log[i] == c.log[i];
  }

  /** A tick gives risky SQL to execution exactly in the two cases above. A replay starts under the
      profile that has just been connected; a retry under the profile that is current once the connect
      channel has been polled. In both, that profile is still current when the tick is over. */
  lemma TickStarts(a: App, judge: Judge, m: Msg)
    requires Inv(a, judge) && m.Tick?
    ensures StartsRisky(judge, a, Handled(a, judge, m)) <==> ReplaysRisky(judge, a, m) || RetriesRisky(judge, a, m)
    ensures ReplaysRisky(judge, a, m) ==> Handled(a, judge, m).activeProfile == a.connectRx
    ensures RetriesRisky(judge, a, m) ==>
              CurrentProfileReadOnly(Handled(a, judge, m)) == CurrentProfileReadOnly(PolledConnect(a, m.connect))
  {
    hide Risky, StartsRisky, PolledConnect, PolledQuery, DemoTicked, GuardSide, HistorySide, LatestWorker, PanelHandled;
    TickReached(a, judge, m);
    hide Handled;
    var b := PolledConnect(a, m.connect);
    var c := PolledQuery(b, m.query);
    PolledConnectKeeps(a, judge, m.connect);
    ConnectPollStarts(judge, a, m);
    QueryPollStarts(judge, b, m.query);
    DemoStartsNothing(c);
    StartsSplit(judge, a, b, c);
    SameEnds(judge, a, c, DemoTicked(c));
  }

  lemma TickReached(a: App, judge: Judge, m: Msg)
    requires m.Tick?
    ensures Handled(a, judge, m) == Ticked(a, m.connect, m.query)
  {
    hide Ticked;
  }

  // ---------------------------------------------------------------- all messages

  /** A user message that starts risky SQL leaves the profiles as they are. */
  lemma MessageKeepsProfile(a: App, judge: Judge, m: Msg)
    requires Inv(a, judge) && !m.Tick? && StartsRisky(judge, a, Handled(a, judge, m))
    ensures CurrentProfileReadOnly(Handled(a, judge, m)) == CurrentProfileReadOnly(a)
  {
    hide Risky, StartsRisky, Inv;
    SameLogStartsNothing(judge, a, a);
    if a.errorPanel.Some? {
      PanelKeepsProfile(a, judge, m);
    } else if m.Submit? || (m.Action? && m.invocation.RunSql?) {
      SubmissionKeepsProfile(a, judge, m);
    } else {
      OthersStartNothing(a, judge, m);
    }
  }

  lemma PanelKeepsProfile(a: App, judge: Judge, m: Msg)
    requires !m.Tick? && a.errorPanel.Some? && StartsRisky(judge, a, Handled(a, judge, m))
    ensures CurrentProfileReadOnly(Handled(a, judge, m)) == CurrentProfileReadOnly(a)
  {
    hide Risky, StartsRisky, StartedQuery, ReconnectedFromPanel;
    SameLogStartsNothing(judge, a, a);
    PanelStarts(judge, a, m);
    if a.lastFailed.Some? {
      StartKeepsProfiles(a.(errorPanel := None), a.lastFailed.value);
    }
  }

  lemma SubmissionKeepsProfile(a: App, judge: Judge, m: Msg)
    requires a.errorPanel.None? && (m.Submit? || (m.Action? && m.invocation.RunSql?))
    ensures CurrentProfileReadOnly(Handled(a, judge, m)) == CurrentProfileReadOnly(a)
  {
    hide ExecutedWithGuard, StartedQuery, ConfirmReply, Spent, Trim;
    var sql := if m.Submit? then Trim(a.editorText) else m.invocation.sql;
    ExecutionKeepsProfile(a, judge, sql);
    if a.pendingConfirmation.Some? {
      var (token, asked) := a.pendingConfirmation.value;
      var b := a.(pendingConfirmation := None, guard := Spent(a.guard, token));
      StartKeepsProfiles(Logged(b, Event.Confirmed(asked)), asked);
    }
  }

  lemma GuardedStartKeepsProfile(a: App, judge: Judge, sql: string)
    ensures CurrentProfileReadOnly(GuardedStart(a, judge, sql)) == CurrentProfileReadOnly(a)
  {
    hide AskedToken, Evaluated, StartedQuery;
    if AskedToken(a.guard, judge, sql).None? {
      var b := a.(guard := Evaluated(a.guard, judge, sql), pendingConfirmation := None);
      StartKeepsProfiles(Logged(b, Allowed(sql, a.guard.enabled)), sql);
    }
  }

  lemma ExecutionKeepsProfile(a: App, judge: Judge, sql: string)
    ensures CurrentProfileReadOnly(ExecutedWithGuard(a, judge, sql)) == CurrentProfileReadOnly(a)
  {
    hide GuardedStart;
    GuardedStartKeepsProfile(a, judge, sql);
  }

  /** Under a read-only profile, a user message gives risky SQL to execution exactly when it confirms
      SQL asked about before, or runs SQL again that failed before. */
  lemma MessageStarts(a: App, judge: Judge, m: Msg)
    requires Inv(a, judge) && CurrentProfileReadOnly(a) && !m.Tick?
    ensures StartsRisky(judge, a, Handled(a, judge, m)) <==>
            Accepted(a, m) && (ConfirmsRisky(judge, a, m) || RerunsRisky(judge, a, m))
  {
    hide Inv, Risky, StartsRisky, PanelHandled, SubmittedEditor, Invoked, ConnectPressed, CancelPressed,
      CurrentProfileReadOnly;
    SameLogStartsNothing(judge, a, a);
    if Accepted(a, m) {
      if a.errorPanel.Some? {
        PanelStarts(judge, a, m);
      } else if m.Submit? {
        SubmitStarts(a, judge);
      } else if m.Action? && m.invocation.RunSql? {
        RunSqlStartsSafe(a, judge, m);
      } else {
        OthersStartNothing(a, judge, m);
      }
    }
  }

  /** Risky SQL is given to execution and the profile it runs under is read-only. */
  ghost predicate BreaksReadOnly(judge: Judge, a: App, b: App) {
    StartsRisky(judge, a, b) && CurrentProfileReadOnly(b)
  }

  /** A step runs risky SQL under a read-only profile exactly when it takes one of four paths that do not
      look at the profile: the confirmation of SQL asked about before, the rerun from the error panel, the
      replay after a reconnect, and the retry of a failed query on whatever is connected by then. */
  lemma ReadOnlyHoldsIff(a: App, judge: Judge, m: Msg)
    requires Inv(a, judge)
    ensures BreaksReadOnly(judge, a, Handled(a, judge, m)) <==>
              || (Accepted(a, m) && CurrentProfileReadOnly(a)
                  && (ConfirmsRisky(judge, a, m) || RerunsRisky(judge, a, m)))
              || (ReplaysRisky(judge, a, m) && a.connectRx.value.readOnly)
              || (RetriesRisky(judge, a, m) && CurrentProfileReadOnly(PolledConnect(a, m.connect)))
  {
    hide Inv, Risky, StartsRisky, Handled, PolledConnect;
    if m.Tick? {
      TickStarts(a, judge, m);
    } else if StartsRisky(judge, a, Handled(a, judge, m)) {
      MessageKeepsProfile(a, judge, m);
      if CurrentProfileReadOnly(a) {
        MessageStarts(a, judge, m);
      }
    } else if CurrentProfileReadOnly(a) {
      MessageStarts(a, judge, m);
    }
  }

  // ---------------------------------------------------------------- runs that take these paths

  lemma RunOne(a: App, judge: Judge, messages: seq<Msg>, m: Msg)
    ensures Run(a, judge, messages + [m]) == Handled(Run(a, judge, messages), judge, m)
    ensures Run(a, judge, []) == a
  {
    hide Handled;
    assert (messages + [m])[..|messages|] == messages;
  }

  /** Risky SQL is confirmed and runs under profile p; read-only profile r is connected meanwhile; then
      the worker on p fails for a passing reason. */
  function Handover(sql: string, r: Profile): seq<Msg> {
    [Connect(None), Tick(Value(Connected(None)), Empty), Action(false, RunSql(sql)), Submit,
     LoadProfile(r), Connect(None), Tick(Value(Connected(None)), Empty),
     Tick(Empty, Value(Failed(true, false)))]
  }

  /** Risky SQL has been confirmed and runs on its first attempt. */
  predicate RunsFirst(a: App, sql: string) {
    && a.queryRx.Some? && a.queryRx.value.sql == sql && a.retryAttempts == 0 && !a.cancelRequested
    && a.errorPanel.None? && !a.exitConfirmation && !a.connectRequested && a.connectRx.None? && a.pendingRetry.None?
  }

  lemma HandoverAsks(judge: Judge, sql: string, p: Profile)
    requires Risky(judge, sql) && !p.readOnly
    ensures var a := Handled(NewApp(Some(p), ""), judge, Connect(None));
            var b := Handled(a, judge, Tick(Value(Connected(None)), Empty));
            var c := Handled(b, judge, Action(false, RunSql(sql)));
            && c.pendingConfirmation.Some? && c.pendingConfirmation.value.1 == sql && c.pane.QueryEditor?
            && c.backend && c.errorPanel.None? && !c.exitConfirmation && !c.connectRequested && c.connectRx.None?
  {
    hide TokenText, Evaluated, StartedQuery;
  }

  lemma HandoverRuns(c: App, judge: Judge, sql: string)
    requires Inv(c, judge)
    requires c.pendingConfirmation.Some? && c.pendingConfirmation.value.1 == sql && c.pane.QueryEditor?
    requires c.backend && c.errorPanel.None? && !c.exitConfirmation && !c.connectRequested && c.connectRx.None?
    ensures RunsFirst(Handled(c, judge, Submit), sql)
  {
    hide Inv, ConfirmReply, Spent, ExecutedWithGuard, Trim;
    ConfirmationSucceeds(c, judge);
  }

  lemma HandoverLoads(d: App, judge: Judge, sql: string, r: Profile)
    requires RunsFirst(d, sql)
    ensures var e := Handled(Handled(d, judge, LoadProfile(r)), judge, Connect(None));
            && e.queryRx == d.queryRx && e.retryAttempts == 0 && !e.cancelRequested && e.errorPanel.None?
            && e.connectRx == Some(r) && e.connectIntent.Manual?
  {
  }

  lemma ManualConnect(e: App)
    requires e.connectRx.Some? && e.connectIntent.Manual?
    ensures var f := ConnectSucceeded(e, None);
            && f.queryRx == e.queryRx && f.retryAttempts == e.retryAttempts && f.cancelRequested == e.cancelRequested
            && f.activeProfile == e.connectRx && f.connectRx.None? && !f.connectRequested && f.backend
            && f.errorPanel.None? && f.exitConfirmation == e.exitConfirmation
            && f.pendingConfirmation == e.pendingConfirmation
  {
    hide StartedQuery;
  }

  /** A tick that delivers a connect and nothing else is that connect. */
  lemma ConnectTick(e: App, judge: Judge)
    requires e.connectRx.Some? && e.connectIntent.Manual?
    ensures Handled(e, judge, Tick(Value(Connected(None)), Empty)) == ConnectSucceeded(e, None)
  {
    hide Handled, ConnectSucceeded, ConnectFellThrough, QuerySucceeded, QueryFailed, DemoTicked;
    ManualConnect(e);
    RuntimeSteps.TickIs(e, judge, Value(Connected(None)), Empty);
    RuntimeSteps.IdleTick(ConnectSucceeded(e, None));
  }

  lemma HandoverSwitches(e: App, judge: Judge, r: Profile)
    requires e.connectRx == Some(r) && e.connectIntent.Manual? && r.readOnly && e.errorPanel.None?
    ensures var f := Handled(e, judge, Tick(Value(Connected(None)), Empty));
            && f.queryRx == e.queryRx && f.retryAttempts == e.retryAttempts && f.cancelRequested == e.cancelRequested
            && CurrentProfileReadOnly(f) && f.connectRx.None?
  {
    hide Handled, ConnectSucceeded;
    ConnectTick(e, judge);
    ManualConnect(e);
  }

  lemma HandoverRetries(f: App, judge: Judge, sql: string)
    requires Risky(judge, sql) && sql != "" && f.queryRx.Some? && f.queryRx.value.sql == sql
    requires f.retryAttempts == 0 && !f.cancelRequested && f.connectRx.None?
    ensures RetriesRisky(judge, f, Tick(Empty, Value(Failed(true, false))))
    ensures PolledConnect(f, Empty) == f
  {
    hide Risky;
  }

  /** Every risky SQL text can come to be retried on a read-only profile: the retry takes whatever backend
      is connected by then. */
  lemma HandoverRunsRisky(judge: Judge, sql: string, p: Profile, r: Profile)
    requires Risky(judge, sql) && sql != "" && !p.readOnly && r.readOnly
    ensures var start, h := NewApp(Some(p), ""), Handover(sql, r);
            && CurrentProfileReadOnly(Run(start, judge, h[..7]))
            && BreaksReadOnly(judge, Run(start, judge, h[..7]), Run(start, judge, h))
  {
    hide Risky, Handled, Run, Inv, StartsRisky, RunsFirst;
    var start, h := NewApp(Some(p), ""), Handover(sql, r);
    NewAppInv(judge, Some(p), "");
    HandoverFront(start, judge, h);
    HandoverBack(start, judge, h);
    HandoverAsks(judge, sql, p);
    RunKeeps(start, judge, h[..3]);
    HandoverRuns(Run(start, judge, h[..3]), judge, sql);
    StillFirst(Run(start, judge, h[..4]), sql);
    HandoverLoads(Run(start, judge, h[..4]), judge, sql, r);
    HandoverSwitches(Run(start, judge, h[..6]), judge, r);
    var f := Run(start, judge, h[..7]);
    RunKeeps(start, judge, h[..7]);
    HandoverRetries(f, judge, sql);
    ReadOnlyHoldsIff(f, judge, Tick(Empty, Value(Failed(true, false))));
  }

  lemma StillFirst(d: App, sql: string)
    requires RunsFirst(d, sql)
    ensures d.queryRx.Some? && d.queryRx.value.sql == sql
  {
  }

  lemma HandoverFront(start: App, judge: Judge, h: seq<Msg>)
    requires |h| == 8
    ensures Run(start, judge, h[..3]) == Handled(Handled(Handled(start, judge, h[0]), judge, h[1]), judge, h[2])
    ensures Run(start, judge, h[..4]) == Handled(Run(start, judge, h[..3]), judge, h[3])
  {
    hide Handled, Run;
    RunOne(start, judge, [], h[0]);
    RunOne(start, judge, h[..1], h[1]);
    RunOne(start, judge, h[..2], h[2]);
    RunOne(start, judge, h[..3], h[3]);
    assert [] + [h[0]] == h[..1] && h[..1] + [h[1]] == h[..2] && h[..2] + [h[2]] == h[..3] && h[..3] + [h[3]] == h[..4];
  }

  lemma HandoverBack(start: App, judge: Judge, h: seq<Msg>)
    requires |h| == 8
    ensures Run(start, judge, h[..6]) == Handled(Handled(Run(start, judge, h[..4]), judge, h[4]), judge, h[5])
    ensures Run(start, judge, h[..7]) == Handled(Run(start, judge, h[..6]), judge, h[6])
    ensures Run(start, judge, h) == Handled(Run(start, judge, h[..7]), judge, h[7])
  {
    hide Handled, Run;
    RunOne(start, judge, h[..4], h[4]);
    RunOne(start, judge, h[..5], h[5]);
    RunOne(start, judge, h[..6], h[6]);
    RunOne(start, judge, h[..7], h[7]);
    assert h[..4] + [h[4]] == h[..5] && h[..5] + [h[5]] == h[..6] && h[..6] + [h[6]] == h[..7] && h[..7] + [h[7]] == h;
  }

  /** Under profile p risky SQL is asked about; read-only profile r is then connected, and Enter runs the SQL. */
  function Detour(sql: string, r: Profile): seq<Msg> {
    [Connect(None), Tick(Value(Connected(None)), Empty), Action(false, RunSql(sql)),
     LoadProfile(r), Connect(None), Tick(Value(Connected(None)), Empty),
     Other(sql, QueryEditor, None), Submit]
  }

  /** The confirmation of `sql` is on offer and no connect is in flight. */
  predicate AsksFor(c: App, sql: string) {
    && c.pendingConfirmation.Some? && c.pendingConfirmation.value.1 == sql
    && c.backend && c.errorPanel.None? && !c.exitConfirmation && !c.connectRequested && c.connectRx.None?
  }

  lemma DetourLoads(c: App, judge: Judge, sql: string, r: Profile)
    requires AsksFor(c, sql)
    ensures var e := Handled(Handled(c, judge, LoadProfile(r)), judge, Connect(None));
            && e.pendingConfirmation == c.pendingConfirmation && e.backend && e.errorPanel.None?
            && !e.exitConfirmation && e.connectRx == Some(r) && e.connectIntent.Manual?
            && e.queryRx == c.queryRx && e.queryRunning == c.queryRunning
  {
  }

  predicate NowReadOnly(c: App, sql: string) {
    && c.pendingConfirmation.Some? && c.pendingConfirmation.value.1 == sql
    && c.backend && c.errorPanel.None? && !c.exitConfirmation && !c.connectRequested && c.connectRx.None?
    && CurrentProfileReadOnly(c)
  }

  lemma DetourConnects(e: App, judge: Judge, sql: string, r: Profile)
    requires e.connectRx == Some(r) && e.connectIntent.Manual? && r.readOnly
    requires e.pendingConfirmation.Some? && e.pendingConfirmation.value.1 == sql
    requires e.backend && e.errorPanel.None? && !e.exitConfirmation
    ensures NowReadOnly(Handled(e, judge, Tick(Value(Connected(None)), Empty)), sql)
  {
    hide Handled, ConnectSucceeded;
    ConnectTick(e, judge);
    ManualConnect(e);
  }

  lemma DetourReturns(c: App, judge: Judge, sql: string)
    requires NowReadOnly(c, sql)
    ensures var f := Handled(c, judge, Other(sql, QueryEditor, None));
            AsksFor(f, sql) && f.pane.QueryEditor? && CurrentProfileReadOnly(f)
  {
  }

  lemma DetourSwitches(e: App, judge: Judge, sql: string, r: Profile)
    requires e.connectRx == Some(r) && e.connectIntent.Manual? && r.readOnly
    requires e.pendingConfirmation.Some? && e.pendingConfirmation.value.1 == sql
    requires e.backend && e.errorPanel.None? && !e.exitConfirmation
    ensures var c := Handled(e, judge, Tick(Value(Connected(None)), Empty));
            var f := Handled(c, judge, Other(sql, QueryEditor, None));
            AsksFor(f, sql) && f.pane.QueryEditor? && CurrentProfileReadOnly(f)
  {
    hide Handled, NowReadOnly, AsksFor, CurrentProfileReadOnly;
    DetourConnects(e, judge, sql, r);
    DetourReturns(Handled(e, judge, Tick(Value(Connected(None)), Empty)), judge, sql);
  }

  lemma DetourConfirms(f: App, judge: Judge, sql: string)
    requires Inv(f, judge) && Risky(judge, sql) && AsksFor(f, sql) && f.pane.QueryEditor? && CurrentProfileReadOnly(f)
    ensures StartsRisky(judge, f, Handled(f, judge, Submit)) && RunsFirst(Handled(f, judge, Submit), sql)
    ensures CurrentProfileReadOnly(Handled(f, judge, Submit))
  {
    hide Inv, Risky, StartsRisky, Handled, RunsFirst, CurrentProfileReadOnly;
    MessageStarts(f, judge, Submit);
    MessageKeepsProfile(f, judge, Submit);
    HandoverRuns(f, judge, sql);
  }

  /** Every risky SQL text can come to be confirmed, and given to a worker, under a read-only profile. */
  lemma DetourRunsRisky(judge: Judge, sql: string, p: Profile, r: Profile)
    requires Risky(judge, sql) && !p.readOnly && r.readOnly
    ensures var start, d := NewApp(Some(p), ""), Detour(sql, r);
            && CurrentProfileReadOnly(Run(start, judge, d[..7]))
            && BreaksReadOnly(judge, Run(start, judge, d[..7]), Run(start, judge, d))
            && Run(start, judge, d).queryRx.Some? && Run(start, judge, d).queryRx.value.sql == sql
  {
    hide Risky, Handled, Run, Inv, StartsRisky, RunsFirst, AsksFor, CurrentProfileReadOnly;
    var start, d := NewApp(Some(p), ""), Detour(sql, r);
    NewAppInv(judge, Some(p), "");
    DetourSteps(start, judge, d);
    HandoverAsks(judge, sql, p);
    AsksForIs(Run(start, judge, d[..3]), sql);
    DetourLoads(Run(start, judge, d[..3]), judge, sql, r);
    AskedIs(Run(start, judge, d[..3]), sql);
    DetourSwitches(Run(start, judge, d[..5]), judge, sql, r);
    RunKeeps(start, judge, d[..7]);
    DetourConfirms(Run(start, judge, d[..7]), judge, sql);
    StillFirst(Run(start, judge, d), sql);
  }

  lemma AsksForIs(c: App, sql: string)
    requires c.pendingConfirmation.Some? && c.pendingConfirmation.value.1 == sql
    requires c.backend && c.errorPanel.None? && !c.exitConfirmation && !c.connectRequested && c.connectRx.None?
    ensures AsksFor(c, sql)
  {
  }

  lemma AskedIs(c: App, sql: string)
    requires AsksFor(c, sql)
    ensures c.pendingConfirmation.Some? && c.pendingConfirmation.value.1 == sql
  {
  }

  lemma DetourSteps(start: App, judge: Judge, d: seq<Msg>)
    requires |d| == 8
    ensures Run(start, judge, d[..3]) == Handled(Handled(Handled(start, judge, d[0]), judge, d[1]), judge, d[2])
    ensures Run(start, judge, d[..5]) == Handled(Handled(Run(start, judge, d[..3]), judge, d[3]), judge, d[4])
    ensures Run(start, judge, d[..7]) == Handled(Handled(Run(start, judge, d[..5]), judge, d[5]), judge, d[6])
    ensures Run(start, judge, d) == Handled(Run(start, judge, d[..7]), judge, d[7])
  {
    hide Handled, Run;
    HandoverFront(start, judge, d);
    HandoverBack(start, judge, d);
    RunOne(start, judge, d[..3], d[3]);
    RunOne(start, judge, d[..4], d[4]);
    assert d[..3] + [d[3]] == d[..4] && d[..4] + [d[4]] == d[..5];
    assert d[..5] + [d[5]] == d[..6] && d[..6] + [d[6]] == d[..7];
    RunOne(start, judge, d[..5], d[5]);
    RunOne(start, judge, d[..6], d[6]);
  }
}
