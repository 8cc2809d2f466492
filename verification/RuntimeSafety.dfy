/** What every run of the runtime keeps. */
module RuntimeSafety {
  import opened Text
  import opened ConfirmationGuard
  import opened Runtime

  // ---------------------------------------------------------------- the history

  /** The SQL was let through by the guard or confirmed by the user. */
  predicate Authorised(log: seq<Event>, sql: string) {
    Allowed(sql, true) in log || Allowed(sql, false) in log || Event.Confirmed(sql) in log
  }

  function WorkerOf(e: Event): Option<Worker>
    requires e.Started?
  {
    if e.worker.Some? then Some(Worker(e.worker.value, e.sql)) else None
  }

  /** The worker of the latest submission, None when it was simulated. */
  function LatestWorker(log: seq<Event>): Option<Worker> {
    if log == [] then None
    else
      var e := log[|log| - 1];
      if e.Started? then WorkerOf(e) else LatestWorker(log[..|log| - 1])
  }

  predicate EventFits(judge: Judge, log: seq<Event>, e: Event) {
    match e
    case Started(sql, _, _) => Authorised(log, sql)
    case Confirmed(sql) => Asked(sql) in log
    case Allowed(sql, guarded) => guarded ==> judge.safe(sql)
    case Installed(from) => LatestWorker(log).Some? && LatestWorker(log).value.id == from
    case _ => true
  }

  predicate LogFits(judge: Judge, log: seq<Event>) {
    log != [] ==> LogFits(judge, log[..|log| - 1]) && EventFits(judge, log[..|log| - 1], log[|log| - 1])
  }

  lemma LogGrows(judge: Judge, log: seq<Event>, e: Event)
    requires LogFits(judge, log) && EventFits(judge, log, e)
    ensures LogFits(judge, log + [e])
    ensures forall sql :: Authorised(log, sql) ==> Authorised(log + [e], sql)
    ensures forall x :: x in log ==> x in log + [e]
    ensures LatestWorker(log + [e]) == if e.Started? then WorkerOf(e) else LatestWorker(log)
  {
    assert (log + [e])[..|log|] == log && (log + [e])[|log|] == e;
  }

  // ---------------------------------------------------------------- the invariant

  predicate OptionAuthorised(log: seq<Event>, sql: Option<string>) {
    sql.Some? ==> Authorised(log, sql.value)
  }

  /** The query channel, its cancellation token and the SQL in flight belong to the latest worker. */
  predicate QuerySide(a: App) {
    && (a.queryRx.Some? <==> a.queryCancellation.Some?)
    && (a.queryRx.Some? ==>
          && a.backend
          && a.queryCancellation.value.id == a.queryRx.value.id
          && a.inflight == Some(a.queryRx.value.sql)
          && LatestWorker(a.log) == a.queryRx)
    && a.retryAttempts <= QUERY_RETRY_LIMIT
  }

  /** A replay waits only for an automatic reconnect, with no query running on a worker. */
  predicate ConnectSide(a: App) {
    && (a.connectRequested <==> a.connectRx.Some?)
    && (a.connectRx.None? ==> a.connectIntent.Manual?)
    && (a.pendingRetry.Some? ==> a.connectRx.Some? && a.connectIntent.AutoReconnect? && a.queryRx.None?)
    && a.reconnectAttempts <= AUTO_RECONNECT_LIMIT
  }

  /** A confirmation on offer is for SQL that was asked about and that the enabled guard still holds. */
  predicate GuardSide(a: App, judge: Judge) {
    a.pendingConfirmation.Some? ==>
      var (token, sql) := a.pendingConfirmation.value;
      && a.guard.enabled
      && token in a.guard.pending && a.guard.pending[token] == judge.stamp(sql)
      && Asked(sql) in a.log
  }

  predicate HistorySide(judge: Judge, a: App) {
    && LogFits(judge, a.log)
    && OptionAuthorised(a.log, a.inflight)
    && OptionAuthorised(a.log, a.pendingRetry)
    && OptionAuthorised(a.log, a.lastFailed)
  }

  predicate Inv(a: App, judge: Judge) {
    QuerySide(a) && ConnectSide(a) && GuardSide(a, judge) && HistorySide(judge, a)
  }

  // ---------------------------------------------------------------- every step keeps it

  /** What only some fields are relevant to. */
  lemma OtherSidesFramed(a: App, b: App, judge: Judge)
    requires GuardSide(a, judge) && HistorySide(judge, a)
    requires b.log == a.log && b.guard == a.guard && b.pendingConfirmation == a.pendingConfirmation
    requires b.inflight == a.inflight || b.inflight == None
    requires b.pendingRetry == a.pendingRetry || b.pendingRetry == None
    requires b.lastFailed == a.lastFailed || b.lastFailed == None
    ensures GuardSide(b, judge) && HistorySide(judge, b)
  {
    hide LogFits, Authorised;
  }

  lemma LoggedKeeps(a: App, judge: Judge, e: Event)
    requires Inv(a, judge) && EventFits(judge, a.log, e) && !e.Started?
    ensures Inv(Logged(a, e), judge)
    ensures Authorised(a.log + [e], if e.Allowed? || e.Confirmed? then e.sql else "") || !(e.Allowed? || e.Confirmed?)
  {
    hide LogFits, LatestWorker, Authorised, EventFits;
    LogGrows(judge, a.log, e);
    AuthorisingEvent(a.log, e);
  }

  lemma AuthorisingEvent(log: seq<Event>, e: Event)
    ensures e.Allowed? || e.Confirmed? ==> Authorised(log + [e], e.sql)
  {
    assert (log + [e])[|log|] == e;
  }

  lemma StartedConnectKeeps(a: App, judge: Judge, profile: Profile, intent: ConnectIntent)
    requires Inv(a, judge)
    requires a.pendingRetry.Some? ==> intent.AutoReconnect? && a.queryRx.None?
    ensures Inv(StartedConnect(a, profile, intent), judge)
  {
    hide LogFits, LatestWorker, Authorised;
    var b := a.(reconnectAttempts := if intent.Manual? then 0 else a.reconnectAttempts,
                errorPanel := None, connectRx := Some(profile), connectRequested := true,
                connectIntent := intent, lastProfile := Some(profile));
    assert Inv(b, judge);
    if intent.AutoReconnect? {
      LoggedKeeps(b, judge, Reconnecting);
    }
  }

  lemma AuthorisedGrows(log: seq<Event>, e: Event, sql: Option<string>)
    requires OptionAuthorised(log, sql)
    ensures OptionAuthorised(log + [e], sql)
  {
  }

  lemma StartedQueryHistory(judge: Judge, a: App, sql: string, retrying: bool)
    requires HistorySide(judge, a) && Authorised(a.log, sql)
    ensures HistorySide(judge, StartedQuery(a, sql, retrying))
  {
    hide LogFits, LatestWorker, OptionAuthorised;
    var e := Started(sql, if a.backend then Some(a.workers) else None, retrying);
    var b := StartedQuery(a, sql, retrying);
    assert b.log == a.log + [e];
    assert b.inflight == Some(sql);
    assert b.pendingRetry == if retrying then a.pendingRetry else None;
    assert b.lastFailed == if retrying then a.lastFailed else None;
    StartedLogFits(judge, a.log, e);
    IsAuthorised(a.log, sql);
    NoneAuthorised(b.log);
    AuthorisedGrows(a.log, e, Some(sql));
    AuthorisedGrows(a.log, e, a.pendingRetry);
    AuthorisedGrows(a.log, e, a.lastFailed);
  }

  lemma NoneAuthorised(log: seq<Event>)
    ensures OptionAuthorised(log, None)
  {
  }

  lemma IsAuthorised(log: seq<Event>, sql: string)
    requires Authorised(log, sql)
    ensures OptionAuthorised(log, Some(sql))
  {
  }

  lemma StartedLogFits(judge: Judge, log: seq<Event>, e: Event)
    requires LogFits(judge, log) && e.Started? && Authorised(log, e.sql)
    ensures LogFits(judge, log + [e]) && LatestWorker(log + [e]) == WorkerOf(e)
  {
    assert (log + [e])[..|log|] == log && (log + [e])[|log|] == e;
  }

  lemma StartedQuerySide(judge: Judge, a: App, sql: string, retrying: bool)
    requires LogFits(judge, a.log) && Authorised(a.log, sql) && a.retryAttempts <= QUERY_RETRY_LIMIT
    ensures QuerySide(StartedQuery(a, sql, retrying))
  {
    hide LogFits, LatestWorker, Authorised;
    StartedLogFits(judge, a.log, Started(sql, if a.backend then Some(a.workers) else None, retrying));
  }

  lemma StartedConnectSide(a: App, sql: string, retrying: bool)
    requires a.connectRequested <==> a.connectRx.Some?
    requires a.connectRx.None? ==> a.connectIntent.Manual?
    requires a.reconnectAttempts <= AUTO_RECONNECT_LIMIT
    requires retrying ==> a.pendingRetry.None?
    ensures ConnectSide(StartedQuery(a, sql, retrying))
  {
  }

  lemma StartedGuardSide(a: App, judge: Judge, sql: string, retrying: bool)
    requires GuardSide(a, judge)
    ensures GuardSide(StartedQuery(a, sql, retrying), judge)
  {
  }

  /** Starting authorised SQL, with no replay left waiting behind it. */
  lemma StartedQueryKeeps(a: App, judge: Judge, sql: string, retrying: bool)
    requires GuardSide(a, judge) && HistorySide(judge, a) && Authorised(a.log, sql)
    requires a.connectRequested <==> a.connectRx.Some?
    requires a.connectRx.None? ==> a.connectIntent.Manual?
    requires a.reconnectAttempts <= AUTO_RECONNECT_LIMIT && a.retryAttempts <= QUERY_RETRY_LIMIT
    requires retrying ==> a.pendingRetry.None?
    ensures Inv(StartedQuery(a, sql, retrying), judge)
  {
    hide LogFits, Authorised, HistorySide, GuardSide, QuerySide, ConnectSide, StartedQuery;
    HistoryLogFits(judge, a);
    StartedQueryHistory(judge, a, sql, retrying);
    StartedQuerySide(judge, a, sql, retrying);
    StartedConnectSide(a, sql, retrying);
    StartedGuardSide(a, judge, sql, retrying);
  }

  lemma HistoryLogFits(judge: Judge, a: App)
    requires HistorySide(judge, a)
    ensures LogFits(judge, a.log)
  {
  }

  lemma ConnectedKeeps(a: App, judge: Judge, editor: Option<string>)
    requires Inv(a, judge) && a.connectRx.Some?
    ensures Inv(ConnectSucceeded(a, editor), judge)
  {
    hide LogFits, LatestWorker, Authorised, StartedQuery, GuardSide, HistorySide;
    var b := a.(connectRx := None, connectRequested := false, connectIntent := Manual, reconnectAttempts := 0);
    var c := AppliedProfile(b, a.connectRx.value, editor).(errorPanel := None);
    OtherSidesFramed(a, c, judge);
    if a.connectIntent.AutoReconnect? && a.pendingRetry.Some? {
      OtherSidesFramed(a, c.(pendingRetry := None), judge);
      ReplayIsAuthorised(judge, a);
      StartedQueryKeeps(c.(pendingRetry := None), judge, a.pendingRetry.value, false);
    }
  }

  lemma ReplayIsAuthorised(judge: Judge, a: App)
    requires HistorySide(judge, a)
    ensures a.pendingRetry.Some? ==> Authorised(a.log, a.pendingRetry.value)
  {
  }

  lemma ConnectFailedKeeps(a: App, judge: Judge)
    requires Inv(a, judge) && a.connectRx.Some?
    ensures Inv(ConnectFellThrough(a), judge)
  {
    hide LogFits, LatestWorker, StartedConnect, GuardSide, HistorySide;
    var b := a.(connectRx := None, connectRequested := false, connectIntent := Manual);
    var profile := Or(a.activeProfile, a.lastProfile);
    if a.connectIntent.AutoReconnect? && a.reconnectAttempts < AUTO_RECONNECT_LIMIT && profile.Some? {
      var c := b.(reconnectAttempts := a.reconnectAttempts + 1);
      OtherSidesFramed(a, c, judge);
      RestartedConnectKeeps(c, judge, profile.value);
    } else {
      OtherSidesFramed(a, ConnectFellThrough(a), judge);
    }
  }

  lemma PolledConnectKeeps(a: App, judge: Judge, received: Received<ConnectOutcome>)
    requires Inv(a, judge)
    ensures Inv(PolledConnect(a, received), judge)
  {
    hide Inv, ConnectSucceeded, ConnectFellThrough;
    if a.connectRx.Some? {
      ConnectFailedKeeps(a, judge);
      if received.Value? && received.value.Connected? {
        ConnectedKeeps(a, judge, received.value.editor);
      }
    }
  }

  /** An automatic reconnect may be started while a replay waits and no channel is open. */
  lemma RestartedConnectKeeps(b: App, judge: Judge, profile: Profile)
    requires QuerySide(b) && GuardSide(b, judge) && HistorySide(judge, b)
    requires b.pendingRetry.Some? ==> b.queryRx.None?
    requires b.reconnectAttempts <= AUTO_RECONNECT_LIMIT
    ensures Inv(StartedConnect(b, profile, AutoReconnect), judge)
  {
    hide LogFits, LatestWorker, Authorised;
    LogGrows(judge, b.log, Reconnecting);
  }

  /** While a query channel is open the poller attributes the answer to its worker's SQL:
      the editor text is never used in its place. */
  lemma AuditSqlIsWorkerSql(a: App)
    requires QuerySide(a) && a.queryRx.Some?
    ensures AuditSql(a) == a.queryRx.value.sql
  {
  }

  lemma QuerySucceededKeeps(a: App, judge: Judge)
    requires Inv(a, judge) && a.queryRx.Some?
    ensures Inv(QuerySucceeded(a), judge)
  {
    hide LogFits, LatestWorker, GuardSide, HistorySide;
    var b := a.(queryRx := None, queryCancellation := None, queryRunning := false,
                shown := RowsOf(a.queryRx.value.id), retryAttempts := 0, reconnectAttempts := 0,
                inflight := None, lastFailed := None, cancelRequested := false);
    OtherSidesFramed(a, b, judge);
    LoggedKeeps(b, judge, Installed(a.queryRx.value.id));
  }

  lemma QueryFailedKeeps(a: App, judge: Judge, transient: bool, connectionLost: bool)
    requires Inv(a, judge) && a.queryRx.Some?
    ensures Inv(QueryFailed(a, transient, connectionLost), judge)
  {
    hide LogFits, LatestWorker, Authorised, StartedQuery, StartedConnect, AuditSql;
    AuditSqlIsWorkerSql(a);
    var b := a.(queryRx := None, queryCancellation := None, queryRunning := false);
    var querySql := if AuditSql(a) == "" then None else Some(AuditSql(a));
    var profile := Or(b.activeProfile, b.lastProfile);
    if transient && !b.cancelRequested && b.retryAttempts < QUERY_RETRY_LIMIT && querySql.Some? {
      StartedQueryKeeps(b.(retryAttempts := b.retryAttempts + 1), judge, querySql.value, true);
    } else if connectionLost && !b.cancelRequested && b.reconnectAttempts < AUTO_RECONNECT_LIMIT && profile.Some? {
      var c := b.(pendingRetry := querySql, reconnectAttempts := b.reconnectAttempts + 1);
      RestartedConnectKeeps(c, judge, profile.value);
    }
  }

  lemma PolledQueryKeeps(a: App, judge: Judge, received: Received<QueryOutcome>)
    requires Inv(a, judge)
    ensures Inv(PolledQuery(a, received), judge)
  {
    hide Inv, QuerySucceeded, QueryFailed;
    if a.queryRx.Some? {
      QuerySucceededKeeps(a, judge);
      QueryFailedKeeps(a, judge, false, false);
      if received.Value? && received.value.Failed? {
        QueryFailedKeeps(a, judge, received.value.transient, received.value.connectionLost);
      }
    }
  }

  lemma TickedKeeps(a: App, judge: Judge, connect: Received<ConnectOutcome>, query: Received<QueryOutcome>)
    requires Inv(a, judge)
    ensures Inv(Ticked(a, connect, query), judge)
  {
    hide Inv, PolledQuery, PolledConnect, DemoTicked;
    PolledConnectKeeps(a, judge, connect);
    PolledQueryKeeps(PolledConnect(a, connect), judge, query);
    DemoTickedKeeps(PolledQuery(PolledConnect(a, connect), query), judge);
  }

  lemma DemoTickedKeeps(a: App, judge: Judge)
    requires Inv(a, judge)
    ensures Inv(DemoTicked(a), judge)
  {
    hide LogFits, LatestWorker, GuardSide, HistorySide;
    var b := a.(queryRunning := false, shown := DemoRows, retryAttempts := 0, inflight := None, lastFailed := None);
    if a.queryRunning && !a.backend {
      OtherSidesFramed(a, DemoTicked(a).(log := a.log), judge);
      if a.ticksRemaining == 0 {
        LoggedKeeps(b, judge, Simulated);
      }
    }
  }

  lemma AllowedKeeps(a: App, judge: Judge, sql: string)
    requires Inv(a, judge) && AskedToken(a.guard, judge, sql).None?
    ensures Inv(StartedQuery(Logged(a.(guard := Evaluated(a.guard, judge, sql), pendingConfirmation := None),
                                    Allowed(sql, a.guard.enabled)), sql, false), judge)
  {
    hide LogFits, LatestWorker, Authorised, StartedQuery, TokenText;
    var b := a.(guard := Evaluated(a.guard, judge, sql), pendingConfirmation := None);
    assert Inv(b, judge);
    LoggedKeeps(b, judge, Allowed(sql, a.guard.enabled));
    StartedQueryKeeps(Logged(b, Allowed(sql, a.guard.enabled)), judge, sql, false);
  }

  lemma AskedKeeps(a: App, judge: Judge, sql: string)
    requires Inv(a, judge) && AskedToken(a.guard, judge, sql).Some?
    ensures Inv(Logged(a.(guard := Evaluated(a.guard, judge, sql),
                          pendingConfirmation := Some((AskedToken(a.guard, judge, sql).value, sql)),
                          editorText := sql, pane := QueryEditor),
                       Asked(sql)), judge)
  {
    hide LogFits, LatestWorker, Authorised, TokenText;
    var b := a.(guard := Evaluated(a.guard, judge, sql), pendingConfirmation := None,
                editorText := sql, pane := QueryEditor);
    assert Inv(b, judge);
    LoggedKeeps(b, judge, Asked(sql));
    AskedIsLogged(a.log, sql);
  }

  lemma BlockedKeeps(a: App, judge: Judge, sql: string)
    requires Inv(a, judge)
    ensures Inv(Logged(a.(pendingConfirmation := None), Blocked(sql)), judge)
  {
    hide LogFits, LatestWorker, Authorised, Logged;
    LoggedKeeps(a.(pendingConfirmation := None), judge, Blocked(sql));
  }

  lemma ExecutedWithGuardKeeps(a: App, judge: Judge, sql: string)
    requires Inv(a, judge)
    ensures Inv(ExecutedWithGuard(a, judge, sql), judge)
  {
    hide Inv, StartedQuery, AskedToken, Evaluated, CurrentProfileReadOnly, Logged;
    if CurrentProfileReadOnly(a) && !judge.safe(sql) {
      BlockedKeeps(a, judge, sql);
    } else if AskedToken(a.guard, judge, sql).None? {
      AllowedKeeps(a, judge, sql);
    } else {
      AskedKeeps(a, judge, sql);
    }
  }

  lemma AskedIsLogged(log: seq<Event>, sql: string)
    ensures Asked(sql) in log + [Asked(sql)]
  {
    assert (log + [Asked(sql)])[|log|] == Asked(sql);
  }

  /** Enter on a confirmation never reaches the guard's failure replies. */
  lemma ConfirmationSucceeds(a: App, judge: Judge)
    requires Inv(a, judge) && a.pendingConfirmation.Some?
    ensures var (token, sql) := a.pendingConfirmation.value;
            ConfirmReply(a.guard, judge, token, sql) == ConfirmResult.Confirmed
  {
  }

  lemma SubmittedEditorKeeps(a: App, judge: Judge)
    requires Inv(a, judge)
    ensures Inv(SubmittedEditor(a, judge), judge)
  {
    hide LogFits, LatestWorker, Authorised, StartedQuery, ExecutedWithGuard, Trim;
    match a.pendingConfirmation
    case Some((token, sql)) =>
      ConfirmationSucceeds(a, judge);
      var b := a.(pendingConfirmation := None, guard := Spent(a.guard, token));
      assert Inv(b, judge);
      LoggedKeeps(b, judge, Event.Confirmed(sql));
      StartedQueryKeeps(Logged(b, Event.Confirmed(sql)), judge, sql, false);
    case None =>
      if !a.queryRunning && Trim(a.editorText) != "" {
        ExecutedWithGuardKeeps(a, judge, Trim(a.editorText));
      }
  }

  lemma RanPrimaryErrorActionKeeps(a: App, judge: Judge)
    requires Inv(a, judge)
    ensures Inv(RanPrimaryErrorAction(a), judge)
    ensures Inv(ReconnectedFromPanel(a), judge)
  {
    hide LogFits, LatestWorker, Authorised, StartedQuery, StartedConnect;
    var profile := Or(Or(a.activeProfile, a.lastProfile), a.wizardProfile);
    if !a.connectRequested && profile.Some? {
      StartedConnectKeeps(a.(errorPanel := None, reconnectAttempts := 0), judge, profile.value, Manual);
    }
    if a.errorPanel == Some(QueryError) && a.lastFailed.Some? {
      StartedQueryKeeps(a.(errorPanel := None), judge, a.lastFailed.value, false);
    }
  }

  lemma PanelHandledKeeps(a: App, judge: Judge, m: Msg)
    requires Inv(a, judge)
    ensures Inv(PanelHandled(a, m), judge)
  {
    hide LogFits, LatestWorker, Authorised, Ticked, RanPrimaryErrorAction, ReconnectedFromPanel;
    RanPrimaryErrorActionKeeps(a, judge);
    if m.Tick? {
      TickedKeeps(a, judge, m.connect, m.query);
    }
  }

  lemma InvokedKeeps(a: App, judge: Judge, invocation: Invocation)
    requires Inv(a, judge)
    ensures Inv(Invoked(a, judge, invocation), judge)
  {
    hide LogFits, LatestWorker, Authorised, ExecutedWithGuard;
    if invocation.RunSql? {
      ExecutedWithGuardKeeps(a, judge, invocation.sql);
    }
  }

  lemma ConnectPressedKeeps(a: App, judge: Judge, choice: Option<Profile>)
    requires Inv(a, judge)
    ensures Inv(ConnectPressed(a, choice), judge)
  {
    hide LogFits, LatestWorker, Authorised, StartedConnect;
    var profile := if a.pane.ConnectionWizard? then a.wizardProfile
                   else if a.pane.ProfileBookmarks? then choice else None;
    if !a.connectRequested && profile.Some? {
      StartedConnectKeeps(a, judge, profile.value, Manual);
    }
  }

  lemma CancelPressedKeeps(a: App, judge: Judge)
    requires Inv(a, judge)
    ensures Inv(CancelPressed(a), judge)
  {
    hide LogFits, LatestWorker, Authorised;
  }

  lemma PlainMessagesKeep(a: App, judge: Judge, m: Msg)
    requires Inv(a, judge) && !a.exitConfirmation && a.errorPanel.None?
    requires !(m.Submit? || m.Action? || m.Connect? || m.CancelKey? || m.Tick?)
    ensures Inv(Handled(a, judge, m), judge)
  {
    hide LogFits, LatestWorker, Authorised;
  }

  lemma LeavingKeeps(a: App, judge: Judge)
    requires Inv(a, judge)
    ensures Inv(a.(shouldQuit := true), judge) && Inv(a.(exitConfirmation := false), judge)
  {
    hide LogFits, LatestWorker, Authorised;
  }

  lemma HandledKeeps(a: App, judge: Judge, m: Msg)
    requires Inv(a, judge)
    ensures Inv(Handled(a, judge, m), judge)
  {
    hide Inv, Ticked, PanelHandled, SubmittedEditor, Invoked, ConnectPressed, CancelPressed;
    if a.exitConfirmation && !(m.Quit? || m.Escape? || m.Tick? || m.CancelKey?) {
    } else if a.errorPanel.Some? {
      PanelHandledKeeps(a, judge, m);
    } else {
      match m {
        case Quit => LeavingKeeps(a, judge);
        case Escape => LeavingKeeps(a, judge);
        case Submit => SubmittedEditorKeeps(a, judge);
        case Action(_, invocation) => InvokedKeeps(a, judge, invocation);
        case Connect(choice) => ConnectPressedKeeps(a, judge, choice);
        case CancelKey => CancelPressedKeeps(a, judge);
        case Tick(connect, query) => TickedKeeps(a, judge, connect, query);
        case _ => PlainMessagesKeep(a, judge, m);
      }
    }
  }

  lemma {:induction false} RunKeeps(a: App, judge: Judge, messages: seq<Msg>)
    requires Inv(a, judge)
    ensures Inv(Run(a, judge, messages), judge)
  {
    hide Inv, Handled;
    if messages != [] {
      RunKeeps(a, judge, messages[..|messages| - 1]);
      HandledKeeps(Run(a, judge, messages[..|messages| - 1]), judge, messages[|messages| - 1]);
    }
  }

  lemma NewAppInv(judge: Judge, wizard: Option<Profile>, editorText: string)
    ensures Inv(NewApp(wizard, editorText), judge)
  {
  }

  /** In every reachable state: the query channel is open exactly when its cancellation token is there,
      an open channel means a data backend and an answer attributed to its own worker's SQL, the connect
      flag and the connect channel agree, a replay waits only for an automatic reconnect while no query
      channel is open, and a confirmation on offer will be accepted. */
  lemma ReachableIsCoherent(judge: Judge, wizard: Option<Profile>, editorText: string, messages: seq<Msg>)
    ensures var a := Run(NewApp(wizard, editorText), judge, messages);
            && (a.queryRx.Some? <==> a.queryCancellation.Some?)
            && (a.queryRx.Some? ==> a.backend && AuditSql(a) == a.queryRx.value.sql)
            && (a.connectRequested <==> a.connectRx.Some?)
            && (a.pendingRetry.Some? ==> a.connectRx.Some? && a.connectIntent.AutoReconnect? && a.queryRx.None?)
            && (a.pendingConfirmation.Some? ==>
                  ConfirmReply(a.guard, judge, a.pendingConfirmation.value.0, a.pendingConfirmation.value.1) ==
                    ConfirmResult.Confirmed)
  {
    hide Run, HistorySide, AuditSql, ConfirmReply;
    NewAppInv(judge, wizard, editorText);
    RunKeeps(NewApp(wizard, editorText), judge, messages);
    var a := Run(NewApp(wizard, editorText), judge, messages);
    if a.queryRx.Some? {
      AuditSqlIsWorkerSql(a);
    }
    if a.pendingConfirmation.Some? {
      ConfirmationSucceeds(a, judge);
    }
  }

  // ---------------------------------------------------------------- what the history says

  lemma {:induction false} EventFitsAt(judge: Judge, log: seq<Event>, i: nat)
    requires LogFits(judge, log) && i < |log|
    ensures EventFits(judge, log[..i], log[i])
  {
    hide EventFits;
    if i < |log| - 1 {
      var front := log[..|log| - 1];
      EventFitsAt(judge, front, i);
      assert front[..i] == log[..i] && front[i] == log[i];
    }
  }

  lemma ReachableLogFits(judge: Judge, wizard: Option<Profile>, editorText: string, messages: seq<Msg>)
    ensures LogFits(judge, Run(NewApp(wizard, editorText), judge, messages).log)
  {
    hide Run, LogFits, QuerySide, ConnectSide, GuardSide;
    NewAppInv(judge, wizard, editorText);
    RunKeeps(NewApp(wizard, editorText), judge, messages);
  }

  /** A start in a fitting history, and the event that authorised it. */
  lemma StartAuthorisedAt(judge: Judge, log: seq<Event>, i: nat) returns (j: nat)
    requires LogFits(judge, log) && i < |log| && log[i].Started?
    ensures j < i && (log[j].Allowed? || log[j].Confirmed?) && log[j].sql == log[i].sql
  {
    hide LogFits;
    EventFitsAt(judge, log, i);
    var e :| e in log[..i] && (e.Allowed? || e.Confirmed?) && e.sql == log[i].sql;
    j :| 0 <= j < i && log[..i][j] == e;
  }

  /** A confirmation in a fitting history, and the question it answers. */
  lemma ConfirmationAskedAt(judge: Judge, log: seq<Event>, j: nat) returns (k: nat)
    requires LogFits(judge, log) && j < |log| && log[j].Confirmed?
    ensures k < j && log[k] == Asked(log[j].sql)
  {
    hide LogFits;
    EventFitsAt(judge, log, j);
    k :| 0 <= k < j && log[..j][k] == Asked(log[j].sql);
  }

  lemma AllowedIsSafe(judge: Judge, log: seq<Event>, j: nat)
    requires LogFits(judge, log) && j < |log| && log[j].Allowed? && log[j].guarded
    ensures judge.safe(log[j].sql)
  {
    hide LogFits;
    EventFitsAt(judge, log, j);
  }

  /** In every run, each SQL text that reaches execution, resubmissions and replays included, was
      let through by the guard or confirmed by the user before. */
  lemma SubmittedWasAuthorised(judge: Judge, wizard: Option<Profile>, editorText: string, messages: seq<Msg>, i: nat)
    requires i < |Run(NewApp(wizard, editorText), judge, messages).log|
    requires Run(NewApp(wizard, editorText), judge, messages).log[i].Started?
    ensures var log := Run(NewApp(wizard, editorText), judge, messages).log;
            exists j :: 0 <= j < i && (log[j].Allowed? || log[j].Confirmed?) && log[j].sql == log[i].sql
  {
    hide Run, LogFits;
    ReachableLogFits(judge, wizard, editorText, messages);
    var j := StartAuthorisedAt(judge, Run(NewApp(wizard, editorText), judge, messages).log, i);
  }

  lemma RiskyStartAt(judge: Judge, log: seq<Event>, i: nat) returns (j: nat, k: nat)
    requires LogFits(judge, log) && i < |log| && log[i].Started? && !judge.safe(log[i].sql)
    requires forall n :: 0 <= n < i && log[n].Allowed? ==> log[n].guarded
    ensures k < j < i && log[k] == Asked(log[i].sql) && log[j] == Event.Confirmed(log[i].sql)
  {
    hide LogFits;
    j := StartAuthorisedAt(judge, log, i);
    if log[j].Allowed? {
      AllowedIsSafe(judge, log, j);
    }
    k := ConfirmationAskedAt(judge, log, j);
  }

  /** SQL that the assessment calls risky runs under an enabled guard only after the guard asked for
      this very text and the user confirmed it. */
  lemma RiskySqlWasConfirmed(judge: Judge, wizard: Option<Profile>, editorText: string, messages: seq<Msg>, i: nat)
    requires i < |Run(NewApp(wizard, editorText), judge, messages).log|
    requires var log := Run(NewApp(wizard, editorText), judge, messages).log;
             log[i].Started? && !judge.safe(log[i].sql)
    requires var log := Run(NewApp(wizard, editorText), judge, messages).log;
             forall k :: 0 <= k < i && log[k].Allowed? ==> log[k].guarded
    ensures var log := Run(NewApp(wizard, editorText), judge, messages).log;
            exists j, k :: 0 <= k < j < i && log[k] == Asked(log[i].sql) && log[j] == Event.Confirmed(log[i].sql)
  {
    hide Run, LogFits;
    ReachableLogFits(judge, wizard, editorText, messages);
    var j, k := RiskyStartAt(judge, Run(NewApp(wizard, editorText), judge, messages).log, i);
  }

  lemma {:induction false} LatestWorkerAt(log: seq<Event>) returns (i: nat)
    requires LatestWorker(log).Some?
    ensures i < |log| && log[i].Started? && WorkerOf(log[i]) == LatestWorker(log)
    ensures forall j :: i < j < |log| ==> !log[j].Started?
  {
    if log[|log| - 1].Started? {
      i := |log| - 1;
    } else {
      var front := log[..|log| - 1];
      i := LatestWorkerAt(front);
      assert forall j :: i < j < |log| - 1 ==> log[j] == front[j];
    }
  }

  lemma InstallerAt(judge: Judge, log: seq<Event>, i: nat) returns (j: nat)
    requires LogFits(judge, log) && i < |log| && log[i].Installed?
    ensures j < i && log[j].Started? && log[j].worker == Some(log[i].from)
    ensures forall k :: j < k < i ==> !log[k].Started?
  {
    hide LogFits, LatestWorker;
    EventFitsAt(judge, log, i);
    j := LatestWorkerAt(log[..i]);
    assert forall k :: j < k < i ==> log[k] == log[..i][k];
  }

  /** Installed results always come from the worker of the latest submission, never a superseded one. */
  lemma InstalledIsLatest(judge: Judge, wizard: Option<Profile>, editorText: string, messages: seq<Msg>, i: nat)
    requires i < |Run(NewApp(wizard, editorText), judge, messages).log|
    requires Run(NewApp(wizard, editorText), judge, messages).log[i].Installed?
    ensures var log := Run(NewApp(wizard, editorText), judge, messages).log;
            exists j :: 0 <= j < i && log[j].Started? && log[j].worker == Some(log[i].from)
                        && forall k :: j < k < i ==> !log[k].Started?
  {
    hide Run, LogFits;
    ReachableLogFits(judge, wizard, editorText, messages);
    var j := InstallerAt(judge, Run(NewApp(wizard, editorText), judge, messages).log, i);
  }

  /** Whatever worker the query channel is open to, it is the one of the latest start, and runs its SQL. */
  lemma RunningIsLatest(judge: Judge, wizard: Option<Profile>, editorText: string, messages: seq<Msg>)
    returns (i: nat)
    requires Run(NewApp(wizard, editorText), judge, messages).queryRx.Some?
    ensures var a := Run(NewApp(wizard, editorText), judge, messages);
            && i < |a.log| && a.log[i].Started?
            && a.log[i].sql == a.queryRx.value.sql && a.log[i].worker == Some(a.queryRx.value.id)
            && forall k :: i < k < |a.log| ==> !a.log[k].Started?
  {
    hide Run, LogFits, LatestWorker;
    NewAppInv(judge, wizard, editorText);
    RunKeeps(NewApp(wizard, editorText), judge, messages);
    i := LatestWorkerAt(Run(NewApp(wizard, editorText), judge, messages).log);
  }
}
