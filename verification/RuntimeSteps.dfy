/** What one message does to the history and the fields, told by the state before it. */
module RuntimeSteps {
  import opened Text
  import opened ConfirmationGuard
  import opened Runtime
  import opened RuntimeSafety

  /** Neither the exit question nor an error panel stands before the application. */
  predicate Open(a: App) {
    !a.exitConfirmation && a.errorPanel.None?
  }

  /** The worker that a query started now would run on. */
  function NextWorker(a: App): Option<nat> {
    if a.backend then Some(a.workers) else None
  }

  /** The connected profile is read-only or, before any is connected, the one tried last. */
  predicate UnderReadOnly(a: App) {
    match a.activeProfile
    case Some(profile) => profile.readOnly
    case None => a.lastProfile.Some? && a.lastProfile.value.readOnly
  }

  // ---------------------------------------------------------------- submitting SQL

  /** The message submits this SQL afresh. */
  predicate Submits(a: App, m: Msg, sql: string) {
    && Open(a)
    && !a.queryRunning
    && match m
       case Action(_, RunSql(text)) => text == sql
       case Submit =>
         a.pane.QueryEditor? && a.pendingConfirmation.None? && sql == Trim(a.editorText) && sql != ""
       case _ => false
  }

  /** What becomes of fresh SQL depends on the judgement, the profile and the guard's switch alone. */
  predicate Decided(a: App, judge: Judge, sql: string, b: App) {
    if UnderReadOnly(a) && !judge.safe(sql) then
      b.log == a.log + [Blocked(sql)] && b.guard == a.guard && b.pendingConfirmation.None?
    else if judge.safe(sql) || !a.guard.enabled then
      && b.log == a.log + [Allowed(sql, a.guard.enabled), Started(sql, NextWorker(a), false)]
      && b.guard == a.guard && b.pendingConfirmation.None?
    else
      && b.log == a.log + [Asked(sql)]
      && b.pendingConfirmation.Some? && b.pendingConfirmation.value.1 == sql
      && b.pane.QueryEditor? && b.editorText == sql
      && b.queryRx == a.queryRx && b.queryRunning == a.queryRunning
  }

  lemma ReadOnlyIs(a: App)
    ensures CurrentProfileReadOnly(a) <==> UnderReadOnly(a)
  {
  }

  lemma AskedIff(g: Guard, judge: Judge, sql: string)
    ensures AskedToken(g, judge, sql).None? <==> judge.safe(sql) || !g.enabled
    ensures AskedToken(g, judge, sql).None? ==> Evaluated(g, judge, sql) == g
  {
    hide TokenText;
  }

  lemma ExecutionDecides(a: App, judge: Judge, sql: string)
    ensures Decided(a, judge, sql, ExecutedWithGuard(a, judge, sql))
  {
    hide StartedQuery, AskedToken, Evaluated, CurrentProfileReadOnly, UnderReadOnly, JustStarted;
    ReadOnlyIs(a);
    AskedIff(a.guard, judge, sql);
    if AskedToken(a.guard, judge, sql).None? {
      var allowed, started := Allowed(sql, a.guard.enabled), Started(sql, NextWorker(a), false);
      StartLeaves(Logged(a.(guard := a.guard, pendingConfirmation := None), allowed), sql);
      assert a.log + [allowed] + [started] == a.log + [allowed, started];
    }
  }

  /** Fresh SQL is blocked, started at once or asked about: blocked when it is not safe and the profile is read-only,
      started when it is safe or the guard is off, asked about otherwise. */
  lemma SubmissionDecides(a: App, judge: Judge, m: Msg, sql: string)
    requires Submits(a, m, sql)
    ensures Decided(a, judge, sql, Handled(a, judge, m))
  {
    hide Trim, ExecutedWithGuard, Decided;
    ExecutionDecides(a, judge, sql);
  }

  /** Enter with a question on screen starts the very SQL that was asked about. */
  lemma ConfirmingStarts(a: App, judge: Judge)
    requires Inv(a, judge) && Open(a) && a.pane.QueryEditor? && a.pendingConfirmation.Some?
    ensures var b, sql := Handled(a, judge, Submit), a.pendingConfirmation.value.1;
            && b.log == a.log + [Event.Confirmed(sql), Started(sql, NextWorker(a), false)]
            && b.pendingConfirmation.None?
            && b.guard.pending == a.guard.pending - {a.pendingConfirmation.value.0}
  {
    hide QuerySide, ConnectSide, HistorySide, ConfirmReply;
    ConfirmationSucceeds(a, judge);
    var sql := a.pendingConfirmation.value.1;
    assert a.log + [Event.Confirmed(sql)] + [Started(sql, NextWorker(a), false)]
        == a.log + [Event.Confirmed(sql), Started(sql, NextWorker(a), false)];
  }

  predicate EndsWithStart(a: App, b: App) {
    |b.log| > |a.log| && b.log[|b.log| - 1].Started?
  }

  /** The log ends with a start, and the state is that of a query just started. */
  predicate StartedLast(a: App, b: App) {
    && EndsWithStart(a, b)
    && var e := b.log[|b.log| - 1];
       e == Started(e.sql, NextWorker(a), false) && JustStarted(a, b, e.sql)
  }

  /** Nothing of earlier queries is left once a query is started afresh. */
  predicate JustStarted(a: App, b: App, sql: string) {
    && b.inflight == Some(sql) && b.editorText == sql && b.pane.Results?
    && b.errorPanel.None? && b.queryRunning && !b.cancelRequested
    && b.pendingRetry.None? && b.lastFailed.None? && b.retryAttempts == 0 && b.reconnectAttempts == 0
    && (a.backend ==>
          && b.queryRx == Some(Worker(a.workers, sql)) && b.workers == a.workers + 1
          && b.queryCancellation == Some(Cancellation(a.workers, false))
          && b.shown.NoRows? && b.ticksRemaining == 0)
    && (!a.backend ==>
          && b.queryRx.None? && b.queryCancellation.None? && b.workers == a.workers
          && b.shown == a.shown && b.ticksRemaining == 10)
  }

  /** What concerns the connection and the guard. */
  predicate SameConnection(a: App, b: App) {
    && b.backend == a.backend && b.activeProfile == a.activeProfile && b.lastProfile == a.lastProfile
    && b.wizardProfile == a.wizardProfile && b.connectRx == a.connectRx && b.connectRequested == a.connectRequested
    && b.connectIntent == a.connectIntent && b.guard == a.guard && b.pendingConfirmation == a.pendingConfirmation
  }

  lemma StartLeaves(a: App, sql: string)
    ensures JustStarted(a, StartedQuery(a, sql, false), sql)
    ensures StartedQuery(a, sql, false).log == a.log + [Started(sql, NextWorker(a), false)]
    ensures SameConnection(a, StartedQuery(a, sql, false))
  {
  }

  lemma ExecutionLeaves(a: App, judge: Judge, sql: string)
    requires EndsWithStart(a, ExecutedWithGuard(a, judge, sql))
    ensures StartedLast(a, ExecutedWithGuard(a, judge, sql))
  {
    hide StartedQuery, JustStarted, TokenText, Evaluated;
    match AskedToken(a.guard, judge, sql)
    case None =>
      var c := Logged(a.(guard := Evaluated(a.guard, judge, sql), pendingConfirmation := None),
                      Allowed(sql, a.guard.enabled));
      StartLeaves(c, sql);
      SameStart(a, c, StartedQuery(c, sql, false), sql);
    case Some(_) =>
  }

  lemma SameStart(a: App, c: App, b: App, sql: string)
    requires JustStarted(c, b, sql)
    requires c.backend == a.backend && c.workers == a.workers && c.shown == a.shown
    ensures JustStarted(a, b, sql)
  {
  }

  lemma PrimaryLeaves(a: App)
    requires EndsWithStart(a, RanPrimaryErrorAction(a))
    ensures StartedLast(a, RanPrimaryErrorAction(a))
  {
    hide StartedQuery, JustStarted, ReconnectedFromPanel;
    if a.errorPanel == Some(QueryError) && a.lastFailed.Some? {
      var c := a.(errorPanel := None);
      StartLeaves(c, a.lastFailed.value);
      SameStart(a, c, RanPrimaryErrorAction(a), a.lastFailed.value);
    } else {
      ReconnectLogs(a);
    }
  }

  lemma ReconnectLogs(a: App)
    ensures ReconnectedFromPanel(a).log == a.log
  {
  }

  lemma SubmittedLeaves(a: App, judge: Judge)
    requires EndsWithStart(a, SubmittedEditor(a, judge))
    ensures StartedLast(a, SubmittedEditor(a, judge))
  {
    hide StartedQuery, JustStarted, ExecutedWithGuard, StartedLast, ConfirmReply, Spent, Trim;
    match a.pendingConfirmation
    case None =>
      if !a.queryRunning && Trim(a.editorText) != "" {
        ExecutionLeaves(a, judge, Trim(a.editorText));
      }
    case Some((token, sql)) =>
      if ConfirmReply(a.guard, judge, token, sql) == ConfirmResult.Confirmed {
        ConfirmedLeaves(a, a.(pendingConfirmation := None, guard := Spent(a.guard, token)), sql);
      }
  }

  lemma ConfirmedLeaves(a: App, b: App, sql: string)
    requires b.log == a.log && b.backend == a.backend && b.workers == a.workers && b.shown == a.shown
    ensures StartedLast(a, StartedQuery(Logged(b, Event.Confirmed(sql)), sql, false))
  {
    hide StartedQuery, JustStarted;
    var c := Logged(b, Event.Confirmed(sql));
    StartLeaves(c, sql);
    SameStart(a, c, StartedQuery(c, sql, false), sql);
  }

  /** Whatever message starts a query, the query is the only one that the state speaks about afterwards. */
  lemma StartedAfresh(a: App, judge: Judge, m: Msg)
    requires !m.Tick? && EndsWithStart(a, Handled(a, judge, m))
    ensures StartedLast(a, Handled(a, judge, m))
  {
    hide StartedLast, ExecutedWithGuard, SubmittedEditor, RanPrimaryErrorAction, ReconnectedFromPanel, Ticked;
    ReconnectLogs(a);
    if a.errorPanel.Some? {
      if m.Submit? || m.Action? {
        PrimaryLeaves(a);
      }
    } else if m.Submit? && a.pane.QueryEditor? {
      SubmittedLeaves(a, judge);
    } else if m.Action? && m.invocation.RunSql? && !a.queryRunning {
      ExecutionLeaves(a, judge, m.invocation.sql);
    }
  }

  // ---------------------------------------------------------------- a worker answers

  predicate RowsShown(a: App, b: App, id: nat) {
    && b.log == a.log + [Installed(id)] && b.shown == RowsOf(id)
    && b.queryRx.None? && b.queryCancellation.None? && !b.queryRunning && !b.cancelRequested
    && b.inflight.None? && b.lastFailed.None? && b.retryAttempts == 0 && b.reconnectAttempts == 0
  }

  lemma TickIs(a: App, judge: Judge, connect: Received<ConnectOutcome>, query: Received<QueryOutcome>)
    ensures Handled(a, judge, Tick(connect, query)) == Ticked(a, connect, query)
  {
    hide Ticked;
  }

  lemma IdleTick(b: App)
    requires !b.queryRunning || b.backend
    ensures DemoTicked(b) == b && PolledQuery(b, Empty) == b && PolledConnect(b, Empty) == b
  {
    hide QueryFailed, QuerySucceeded, ConnectFellThrough, ConnectSucceeded;
  }

  lemma SuccessIsShown(a: App)
    requires a.queryRx.Some?
    ensures RowsShown(a, QuerySucceeded(a), a.queryRx.value.id)
  {
  }

  /** Rows end the query: they are shown, and nothing of the query is left. */
  lemma RowsEndTheQuery(a: App, judge: Judge, wasCancelled: bool)
    requires a.queryRx.Some?
    ensures RowsShown(a, Handled(a, judge, Tick(Empty, Value(Succeeded(wasCancelled)))), a.queryRx.value.id)
  {
    hide Handled, QuerySucceeded, QueryFailed, ConnectFellThrough, ConnectSucceeded, DemoTicked;
    TickIs(a, judge, Empty, Value(Succeeded(wasCancelled)));
    SuccessIsShown(a);
    IdleTick(QuerySucceeded(a));
  }

  predicate Fails(m: Msg) {
    m.Tick? && m.connect.Empty? && (m.query.Disconnected? || (m.query.Value? && m.query.value.Failed?))
  }

  predicate IsTransient(m: Msg) {
    m.Tick? && m.query.Value? && m.query.value.Failed? && m.query.value.transient
  }

  predicate LosesConnection(m: Msg) {
    m.Tick? && m.query.Value? && m.query.value.Failed? && m.query.value.connectionLost
  }

  /** The failed text is given to a new worker. */
  predicate RetriedNow(a: App, b: App, sql: string) {
    && b.log == a.log + [Started(sql, Some(a.workers), true)]
    && b.queryRx == Some(Worker(a.workers, sql)) && b.queryCancellation == Some(Cancellation(a.workers, false))
    && b.retryAttempts == a.retryAttempts + 1 && b.queryRunning && !b.cancelRequested
  }

  /** A connect is under way, behind which the failed text will be replayed. */
  predicate ReconnectsNow(a: App, b: App, sql: string, profile: Profile) {
    && b.log == a.log + [Reconnecting]
    && b.connectRx == Some(profile) && b.connectIntent.AutoReconnect? && b.pendingRetry == Some(sql)
    && b.reconnectAttempts == a.reconnectAttempts + 1 && b.queryRx.None? && !b.queryRunning
  }

  /** The failure is on the error panel, and the failed text can be rerun from there. */
  predicate ReportedNow(a: App, b: App, sql: string) {
    && b.log == a.log && b.errorPanel == Some(QueryError) && b.lastFailed == Some(sql)
    && b.queryRx.None? && b.queryCancellation.None? && !b.queryRunning && b.pendingRetry.None?
    && b.inflight.None? && b.retryAttempts == 0 && b.reconnectAttempts == 0 && !b.cancelRequested
  }

  predicate Decides(a: App, m: Msg, sql: string, b: App) {
    var profile := if a.activeProfile.Some? then a.activeProfile else a.lastProfile;
    if IsTransient(m) && !a.cancelRequested && a.retryAttempts == 0 then RetriedNow(a, b, sql)
    else if LosesConnection(m) && !a.cancelRequested && a.reconnectAttempts < 2 && profile.Some? then
      ReconnectsNow(a, b, sql, profile.value)
    else ReportedNow(a, b, sql)
  }

  function Closed(a: App): App {
    a.(queryRx := None, queryCancellation := None, queryRunning := false)
  }

  lemma RetryStep(a: App, sql: string)
    requires a.backend
    ensures RetriedNow(a, Resubmitted(Closed(a), sql), sql) && Resubmitted(Closed(a), sql).backend
  {
  }

  lemma ReplayStep(a: App, sql: string, profile: Profile)
    ensures ReconnectsNow(a, ReconnectedForReplay(Closed(a), Some(sql), profile), sql, profile)
  {
  }

  lemma ReportStep(a: App, sql: string)
    ensures ReportedNow(a, FailureReported(Closed(a), Some(sql)), sql)
  {
  }

  lemma FailureStep(a: App, m: Msg, sql: string)
    requires QuerySide(a) && a.queryRx.Some? && a.queryRx.value.sql == sql && sql != "" && Fails(m)
    ensures Decides(a, m, sql, QueryFailed(a, IsTransient(m), LosesConnection(m)))
    ensures var b := QueryFailed(a, IsTransient(m), LosesConnection(m)); b.queryRunning ==> b.backend
  {
    hide LatestWorker, IsTransient, LosesConnection, Trim, Resubmitted, ReconnectedForReplay, FailureReported,
      RetriedNow, ReconnectsNow, ReportedNow;
    RetryStep(a, sql);
    ReportStep(a, sql);
    StillStopped(a, sql);
    var profile := Or(a.activeProfile, a.lastProfile);
    if profile.Some? {
      ReplayStep(a, sql, profile.value);
      assert !ReconnectedForReplay(Closed(a), Some(sql), profile.value).queryRunning by {
        IsStopped(a, ReconnectedForReplay(Closed(a), Some(sql), profile.value), sql, profile.value);
      }
    }
  }

  lemma StillStopped(a: App, sql: string)
    ensures !FailureReported(Closed(a), Some(sql)).queryRunning
  {
  }

  lemma IsStopped(a: App, b: App, sql: string, profile: Profile)
    requires ReconnectsNow(a, b, sql, profile)
    ensures !b.queryRunning
  {
  }

  lemma FailureIs(a: App, m: Msg)
    requires a.queryRx.Some? && Fails(m)
    ensures PolledQuery(a, m.query) == QueryFailed(a, IsTransient(m), LosesConnection(m))
  {
    hide QueryFailed, QuerySucceeded;
  }

  /** A failure is retried, reconnected or reported, a cancelled query's always the last: a transient one is retried
      once, a lost connection reconnected twice, if a profile is known. */
  lemma FailureDecides(a: App, judge: Judge, m: Msg, sql: string)
    requires Inv(a, judge) && a.queryRx.Some? && a.queryRx.value.sql == sql && sql != "" && Fails(m)
    ensures Decides(a, m, sql, Handled(a, judge, m))
  {
    hide Handled, QuerySide, ConnectSide, GuardSide, HistorySide, Decides, PolledQuery, QueryFailed, DemoTicked,
      ConnectFellThrough, ConnectSucceeded, IsTransient, LosesConnection;
    TickIs(a, judge, m.connect, m.query);
    FailureIs(a, m);
    FailureStep(a, m, sql);
    IdleTick(PolledQuery(a, m.query));
  }

  /** From the error panel the failed text is started again, and nothing else. */
  lemma ReportedCanBeRerun(a: App, judge: Judge, sql: string, m: Msg)
    requires !a.exitConfirmation && a.errorPanel == Some(QueryError) && a.lastFailed == Some(sql)
    requires m.Submit? || (m.Action? && m.primary)
    ensures Handled(a, judge, m).log == a.log + [Started(sql, NextWorker(a), false)]
    ensures JustStarted(a, Handled(a, judge, m), sql)
  {
    hide StartedQuery, JustStarted;
    var c := a.(errorPanel := None);
    StartLeaves(c, sql);
    SameStart(a, c, Handled(a, judge, m), sql);
  }

  // ---------------------------------------------------------------- connecting

  predicate ConnectedTo(a: App, b: App, editor: Option<string>) {
    && b.activeProfile == b.lastProfile == b.wizardProfile == a.connectRx
    && b.backend && b.connectRx.None? && !b.connectRequested && b.connectIntent.Manual?
    && b.reconnectAttempts == 0 && b.errorPanel.None?
    && (if a.connectIntent.AutoReconnect? && a.pendingRetry.Some? then
          && b.log == a.log + [Started(a.pendingRetry.value, Some(a.workers), false)]
          && b.pendingRetry.None? && b.pane.Results? && b.editorText == a.pendingRetry.value
        else
          && b.log == a.log && b.pane.SchemaExplorer?
          && b.editorText == (if editor.Some? then editor.value else a.editorText))
  }

  lemma ConnectStep(a: App, editor: Option<string>)
    requires a.connectRx.Some?
    ensures ConnectedTo(a, ConnectSucceeded(a, editor), editor)
  {
    hide StartedQuery;
    if a.connectIntent.AutoReconnect? && a.pendingRetry.Some? {
      var b := a.(connectRx := None, connectRequested := false, connectIntent := Manual, reconnectAttempts := 0);
      StartLeaves(AppliedProfile(b, a.connectRx.value, editor).(errorPanel := None, pendingRetry := None),
                  a.pendingRetry.value);
    }
  }

  /** A connect that succeeds makes its profile the current one, and a query waiting for it is replayed. */
  lemma ConnectDelivers(a: App, judge: Judge, editor: Option<string>)
    requires a.connectRx.Some?
    ensures ConnectedTo(a, Handled(a, judge, Tick(Value(Connected(editor)), Empty)), editor)
  {
    hide Handled, ConnectSucceeded, ConnectFellThrough, QueryFailed, QuerySucceeded, DemoTicked;
    TickIs(a, judge, Value(Connected(editor)), Empty);
    ConnectStep(a, editor);
    IdleTick(ConnectSucceeded(a, editor));
  }

  predicate NotConnected(a: App, b: App) {
    var profile := if a.activeProfile.Some? then a.activeProfile else a.lastProfile;
    && b.activeProfile == a.activeProfile && b.backend == a.backend && b.queryRx == a.queryRx
    && if a.connectIntent.AutoReconnect? && a.reconnectAttempts < 2 && profile.Some? then
         && b.connectRx == profile && b.connectRequested && b.connectIntent.AutoReconnect?
         && b.reconnectAttempts == a.reconnectAttempts + 1 && b.pendingRetry == a.pendingRetry
       else
         && b.connectRx.None? && !b.connectRequested && b.connectIntent.Manual?
         && b.errorPanel == Some(ConnectionError) && b.pendingRetry.None? && b.reconnectAttempts == 0
  }

  lemma ReconnectLeaves(a: App, profile: Profile)
    ensures var b := StartedConnect(a, profile, AutoReconnect);
            && b.activeProfile == a.activeProfile && b.backend == a.backend && b.queryRx == a.queryRx
            && b.connectRx == Some(profile) && b.connectRequested && b.connectIntent.AutoReconnect?
            && b.reconnectAttempts == a.reconnectAttempts && b.pendingRetry == a.pendingRetry
  {
  }

  lemma FallThroughStep(a: App)
    ensures NotConnected(a, ConnectFellThrough(a))
  {
    hide StartedConnect;
    var b := a.(connectRx := None, connectRequested := false, connectIntent := Manual);
    var profile := Or(a.activeProfile, a.lastProfile);
    if a.connectIntent.AutoReconnect? && a.reconnectAttempts < AUTO_RECONNECT_LIMIT && profile.Some? {
      ReconnectLeaves(b.(reconnectAttempts := a.reconnectAttempts + 1), profile.value);
    }
  }

  lemma DemoKeepsConnect(b: App)
    ensures var c := DemoTicked(b);
            && c.activeProfile == b.activeProfile && c.backend == b.backend && c.queryRx == b.queryRx
            && c.connectRx == b.connectRx && c.connectRequested == b.connectRequested
            && c.connectIntent == b.connectIntent && c.reconnectAttempts == b.reconnectAttempts
            && c.pendingRetry == b.pendingRetry && c.errorPanel == b.errorPanel
  {
  }

  /** A connect that fails is tried again, twice after a lost connection, or reported. */
  lemma ConnectFails(a: App, judge: Judge, received: Received<ConnectOutcome>)
    requires a.connectRx.Some? && (received.Disconnected? || received == Value(ConnectFailed))
    ensures NotConnected(a, Handled(a, judge, Tick(received, Empty)))
  {
    hide Handled, ConnectSucceeded, ConnectFellThrough, QueryFailed, QuerySucceeded, DemoTicked;
    TickIs(a, judge, received, Empty);
    FallThroughStep(a);
    DemoKeepsConnect(ConnectFellThrough(a));
  }

  /** Which profile the connect key connects to: the wizard's in the wizard, the chosen one among the bookmarks, none
      in another pane; and on the error panel the connected one, the one tried last or the wizard's. Nothing happens
      while a connect is under way. */
  lemma ConnectChoice(a: App, judge: Judge, choice: Option<Profile>)
    requires !a.exitConfirmation
    ensures var b := Handled(a, judge, Connect(choice));
            var profile :=
              if a.errorPanel.None? then
                match a.pane
                case ConnectionWizard => a.wizardProfile
                case ProfileBookmarks => choice
                case _ => None
              else if a.activeProfile.Some? then a.activeProfile
              else if a.lastProfile.Some? then a.lastProfile
              else a.wizardProfile;
            if profile.None? || a.connectRequested then b == a
            else
              && b.connectRx == b.lastProfile == profile && b.connectRequested && b.connectIntent.Manual?
              && b.reconnectAttempts == 0 && b.errorPanel.None?
              && b.activeProfile == a.activeProfile && b.log == a.log && b.backend == a.backend
              && b.queryRx == a.queryRx && b.pendingRetry == a.pendingRetry
  {
  }

  // ---------------------------------------------------------------- leaving, and everything else

  predicate Stays(a: App, b: App) {
    b.shouldQuit == a.shouldQuit && b.exitConfirmation == a.exitConfirmation
  }

  lemma StartStays(a: App, sql: string, retrying: bool)
    ensures Stays(a, StartedQuery(a, sql, retrying))
  {
  }

  lemma ConnectStays(a: App, profile: Profile, intent: ConnectIntent)
    ensures Stays(a, StartedConnect(a, profile, intent))
  {
  }

  lemma ConnectedStays(a: App, editor: Option<string>)
    requires a.connectRx.Some?
    ensures Stays(a, ConnectSucceeded(a, editor))
  {
    hide StartedQuery;
    forall b: App, sql
      ensures Stays(b, StartedQuery(b, sql, false))
    {
      StartStays(b, sql, false);
    }
  }

  lemma FellThroughStays(a: App)
    ensures Stays(a, ConnectFellThrough(a))
  {
    hide StartedConnect;
    forall b: App, profile
      ensures Stays(b, StartedConnect(b, profile, AutoReconnect))
    {
      ConnectStays(b, profile, AutoReconnect);
    }
  }

  lemma ConnectPollStays(a: App, received: Received<ConnectOutcome>)
    ensures Stays(a, PolledConnect(a, received))
  {
    hide ConnectSucceeded, ConnectFellThrough;
    FellThroughStays(a);
    if a.connectRx.Some? && received.Value? && received.value.Connected? {
      ConnectedStays(a, received.value.editor);
    }
  }

  lemma QueryPollStays(a: App, received: Received<QueryOutcome>)
    ensures Stays(a, PolledQuery(a, received))
  {
    hide StartedQuery, StartedConnect, AuditSql;
    forall b: App, sql, retrying
      ensures Stays(b, StartedQuery(b, sql, retrying))
    {
      StartStays(b, sql, retrying);
    }
    forall b: App, profile, intent
      ensures Stays(b, StartedConnect(b, profile, intent))
    {
      ConnectStays(b, profile, intent);
    }
  }

  lemma TickStays(a: App, connect: Received<ConnectOutcome>, query: Received<QueryOutcome>)
    ensures Stays(a, Ticked(a, connect, query))
  {
    hide PolledConnect, PolledQuery;
    ConnectPollStays(a, connect);
    QueryPollStays(PolledConnect(a, connect), query);
  }

  lemma SubmissionStays(a: App, judge: Judge)
    ensures Stays(a, SubmittedEditor(a, judge))
  {
    hide StartedQuery, ExecutedWithGuard, ConfirmReply, Spent, Trim;
    ExecutionStays(a, judge, Trim(a.editorText));
    forall b: App, sql
      ensures Stays(b, StartedQuery(b, sql, false))
    {
      StartStays(b, sql, false);
    }
  }

  lemma ExecutionStays(a: App, judge: Judge, sql: string)
    ensures Stays(a, ExecutedWithGuard(a, judge, sql))
  {
    hide StartedQuery, AskedToken, Evaluated;
    forall b: App
      ensures Stays(b, StartedQuery(b, sql, false))
    {
      StartStays(b, sql, false);
    }
  }

  lemma PrimaryStays(a: App)
    ensures Stays(a, RanPrimaryErrorAction(a)) && Stays(a, ReconnectedFromPanel(a))
  {
    hide StartedQuery, StartedConnect;
    forall b: App, sql
      ensures Stays(b, StartedQuery(b, sql, false))
    {
      StartStays(b, sql, false);
    }
    forall b: App, profile
      ensures Stays(b, StartedConnect(b, profile, Manual))
    {
      ConnectStays(b, profile, Manual);
    }
  }

  lemma PanelLeaves(a: App, m: Msg)
    ensures var b := PanelHandled(a, m);
            b.exitConfirmation == a.exitConfirmation && b.shouldQuit == (a.shouldQuit || m.Quit?)
  {
    hide Ticked, RanPrimaryErrorAction, ReconnectedFromPanel;
    PrimaryStays(a);
    if m.Tick? {
      TickStays(a, m.connect, m.query);
    }
  }

  lemma InvocationStays(a: App, judge: Judge, invocation: Invocation)
    ensures Stays(a, Invoked(a, judge, invocation))
  {
    hide ExecutedWithGuard;
    if invocation.RunSql? {
      ExecutionStays(a, judge, invocation.sql);
    }
  }

  /** The application ends only by the quit key, or by the cancel key pressed again while no query runs; the first
      press asks, and the question stands until it is answered. */
  lemma LeavesIff(a: App, judge: Judge, m: Msg)
    requires !a.shouldQuit
    ensures Handled(a, judge, m).shouldQuit <==>
            m.Quit? || (m.CancelKey? && a.errorPanel.None? && a.exitConfirmation && !a.queryRunning)
    ensures Handled(a, judge, m).exitConfirmation <==>
            || (a.exitConfirmation && !(m.Escape? && a.errorPanel.None?))
            || (m.CancelKey? && a.errorPanel.None? && !a.queryRunning)
  {
    hide Ticked, Invoked, SubmittedEditor, PanelHandled;
    PanelLeaves(a, m);
    SubmissionStays(a, judge);
    match m
    case Tick(connect, query) => TickStays(a, connect, query);
    case Action(_, invocation) => InvocationStays(a, judge, invocation);
    case _ =>
  }

  /** While the exit question stands, all messages but four are ignored. */
  lemma ExitQuestionHolds(a: App, judge: Judge, m: Msg)
    requires a.exitConfirmation && !m.Quit? && !m.Escape? && !m.Tick? && !m.CancelKey?
    ensures Handled(a, judge, m) == a
  {
  }

  /** What a query is about to run, is running or has shown. */
  predicate SameQuery(a: App, b: App) {
    && b.log == a.log && b.queryRx == a.queryRx && b.queryCancellation == a.queryCancellation
    && b.queryRunning == a.queryRunning && b.cancelRequested == a.cancelRequested && b.inflight == a.inflight
    && b.lastFailed == a.lastFailed && b.shown == a.shown && b.workers == a.workers
    && b.pendingRetry == a.pendingRetry && b.connectRx == a.connectRx && b.backend == a.backend
  }

  predicate IsOther(m: Msg) {
    || m.Quit? || m.Escape? || m.ToggleSafeMode? || m.GoConnectionWizard? || m.LoadProfile? || m.RenameProfile?
    || m.Other? || (m.Action? && !m.primary && (m.invocation.Edit? || m.invocation.Diagnostics?))
  }

  predicate OthersOutcome(a: App, m: Msg, b: App) {
    && SameQuery(a, b)
    && (!m.ToggleSafeMode? ==> b.guard == a.guard && b.pendingConfirmation == a.pendingConfirmation)
    && (m.ToggleSafeMode? && Open(a) ==> b.guard.enabled == !a.guard.enabled && b.pendingConfirmation.None?)
    && (!m.RenameProfile? ==> b.activeProfile == a.activeProfile)
    && (m.RenameProfile? && Open(a) && a.activeProfile.Some? ==>
          b.activeProfile == if a.activeProfile.value.name == m.oldName then Some(m.updated) else a.activeProfile)
    && (m.RenameProfile? && Open(a) && a.lastProfile.Some? ==>
          b.lastProfile == if a.lastProfile.value.name == m.oldName then Some(m.updated) else a.lastProfile)
    && (m.LoadProfile? && Open(a) ==>
          b.lastProfile == b.wizardProfile == Some(m.profile) && b.pane.ConnectionWizard?)
    && (m.Other? && Open(a) ==> b.editorText == m.editorText && b.pane == m.pane && b.wizardProfile == m.wizard)
  }

  lemma PanelOthers(a: App, m: Msg)
    requires IsOther(m) && a.errorPanel.Some?
    ensures OthersOutcome(a, m, PanelHandled(a, m))
  {
    hide Ticked, RanPrimaryErrorAction, ReconnectedFromPanel;
  }

  lemma ActionOthers(a: App, judge: Judge, invocation: Invocation)
    requires invocation.Edit? || invocation.Diagnostics?
    ensures var b := Invoked(a, judge, invocation);
            SameQuery(a, b) && b.guard == a.guard && b.pendingConfirmation == a.pendingConfirmation
            && b.activeProfile == a.activeProfile
  {
    hide ExecutedWithGuard;
  }

  /** No other message touches a query, and a rename reaches the current profiles where they have the name. */
  lemma OthersKeepQuery(a: App, judge: Judge, m: Msg)
    requires IsOther(m)
    ensures OthersOutcome(a, m, Handled(a, judge, m))
  {
    hide Ticked, SubmittedEditor, PanelHandled, ConnectPressed, CancelPressed, Invoked;
    if a.errorPanel.Some? {
      PanelOthers(a, m);
    } else if m.Action? {
      ActionOthers(a, judge, m.invocation);
    }
  }

  /** The error panel is left by Escape or towards the wizard, and the diagnostics put on it what they find, a
      missing connection first. */
  lemma PanelMessages(a: App, judge: Judge, found: Option<ErrorKind>)
    ensures !a.exitConfirmation && a.errorPanel.Some? ==>
              && Handled(a, judge, Escape) == a.(errorPanel := None)
              && Handled(a, judge, GoConnectionWizard) == a.(errorPanel := None, pane := ConnectionWizard)
    ensures Open(a) && !a.queryRunning ==>
              Handled(a, judge, Action(false, Diagnostics(found))).errorPanel ==
                if a.backend then found else Some(ConnectionError)
  {
  }
}
