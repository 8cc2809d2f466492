/** What is on screen is what the history says. */
module RuntimeScreen {
  import opened Text
  import opened ConfirmationGuard
  import opened Runtime
  import opened RuntimeSafety

  /** The event empties the screen or puts something on it. */
  predicate Shows(e: Event) {
    (e.Started? && e.worker.Some?) || e.Installed? || e.Simulated?
  }

  function ShownBy(e: Event): Shown
    requires Shows(e)
  {
    match e
    case Installed(from) => RowsOf(from)
    case Simulated => DemoRows
    case _ => NoRows
  }

  /** Nothing at first; then what the latest such event leaves on the screen. */
  function ScreenOf(log: seq<Event>): Shown {
    if log == [] then NoRows
    else if Shows(log[|log| - 1]) then ShownBy(log[|log| - 1])
    else ScreenOf(log[..|log| - 1])
  }

  lemma ScreenAfter(log: seq<Event>, e: Event)
    ensures ScreenOf(log + [e]) == if Shows(e) then ShownBy(e) else ScreenOf(log)
  {
    assert (log + [e])[|log|] == e && (log + [e])[..|log|] == log;
  }

  predicate OnScreen(a: App) {
    a.shown == ScreenOf(a.log)
  }

  // ---------------------------------------------------------------- every step keeps it

  lemma StartShows(a: App, sql: string, retrying: bool)
    requires OnScreen(a)
    ensures OnScreen(StartedQuery(a, sql, retrying))
  {
    hide ScreenOf;
    ScreenAfter(a.log, Started(sql, Some(a.workers), retrying));
    ScreenAfter(a.log, Started(sql, None, retrying));
  }

  lemma ConnectShows(a: App, profile: Profile, intent: ConnectIntent)
    requires OnScreen(a)
    ensures OnScreen(StartedConnect(a, profile, intent))
  {
    hide ScreenOf;
    ScreenAfter(a.log, Reconnecting);
  }

  lemma ConnectedShows(a: App, editor: Option<string>)
    requires OnScreen(a) && a.connectRx.Some?
    ensures OnScreen(ConnectSucceeded(a, editor))
  {
    hide ScreenOf, StartedQuery;
    var b := a.(connectRx := None, connectRequested := false, connectIntent := Manual, reconnectAttempts := 0);
    var c := AppliedProfile(b, a.connectRx.value, editor).(errorPanel := None);
    if a.pendingRetry.Some? {
      StartShows(c.(pendingRetry := None), a.pendingRetry.value, false);
    }
  }

  lemma FellThroughShows(a: App)
    requires OnScreen(a)
    ensures OnScreen(ConnectFellThrough(a))
  {
    hide ScreenOf, StartedConnect;
    var b := a.(connectRx := None, connectRequested := false, connectIntent := Manual);
    var profile := Or(a.activeProfile, a.lastProfile);
    if profile.Some? {
      ConnectShows(b.(reconnectAttempts := a.reconnectAttempts + 1), profile.value, AutoReconnect);
    }
  }

  lemma ConnectPollShows(a: App, received: Received<ConnectOutcome>)
    requires OnScreen(a)
    ensures OnScreen(PolledConnect(a, received))
  {
    hide OnScreen, ConnectSucceeded, ConnectFellThrough;
    FellThroughShows(a);
    if a.connectRx.Some? && received.Value? && received.value.Connected? {
      ConnectedShows(a, received.value.editor);
    }
  }

  lemma SuccessShows(a: App)
    requires a.queryRx.Some?
    ensures OnScreen(QuerySucceeded(a)) && QuerySucceeded(a).shown == RowsOf(a.queryRx.value.id)
  {
    hide ScreenOf;
    ScreenAfter(a.log, Installed(a.queryRx.value.id));
  }

  lemma FailureShows(a: App, transient: bool, connectionLost: bool)
    requires OnScreen(a)
    ensures OnScreen(QueryFailed(a, transient, connectionLost))
  {
    hide ScreenOf, StartedQuery, StartedConnect, AuditSql;
    var b := a.(queryRx := None, queryCancellation := None, queryRunning := false);
    var sql := if AuditSql(a) == "" then None else Some(AuditSql(a));
    var profile := Or(b.activeProfile, b.lastProfile);
    StartShows(b.(retryAttempts := b.retryAttempts + 1), AuditSql(a), true);
    if profile.Some? {
      ConnectShows(b.(pendingRetry := sql, reconnectAttempts := b.reconnectAttempts + 1), profile.value, AutoReconnect);
    }
  }

  lemma QueryPollShows(a: App, received: Received<QueryOutcome>)
    requires OnScreen(a)
    ensures OnScreen(PolledQuery(a, received))
  {
    hide OnScreen, QuerySucceeded, QueryFailed;
    if a.queryRx.Some? {
      SuccessShows(a);
      FailureShows(a, false, false);
      if received.Value? && received.value.Failed? {
        FailureShows(a, received.value.transient, received.value.connectionLost);
      }
    }
  }

  lemma DemoShows(a: App)
    requires OnScreen(a)
    ensures OnScreen(DemoTicked(a))
  {
    hide ScreenOf;
    ScreenAfter(a.log, Simulated);
  }

  lemma TickShows(a: App, connect: Received<ConnectOutcome>, query: Received<QueryOutcome>)
    requires OnScreen(a)
    ensures OnScreen(Ticked(a, connect, query))
  {
    hide OnScreen, PolledConnect, PolledQuery, DemoTicked;
    ConnectPollShows(a, connect);
    QueryPollShows(PolledConnect(a, connect), query);
    DemoShows(PolledQuery(PolledConnect(a, connect), query));
  }

  lemma ExecutionShows(a: App, judge: Judge, sql: string)
    requires OnScreen(a)
    ensures OnScreen(ExecutedWithGuard(a, judge, sql))
  {
    hide ScreenOf, StartedQuery, AskedToken, Evaluated, CurrentProfileReadOnly;
    ScreenAfter(a.log, Blocked(sql));
    ScreenAfter(a.log, Asked(sql));
    ScreenAfter(a.log, Allowed(sql, a.guard.enabled));
    StartShows(Logged(a.(guard := Evaluated(a.guard, judge, sql), pendingConfirmation := None),
                      Allowed(sql, a.guard.enabled)), sql, false);
  }

  lemma SubmissionShows(a: App, judge: Judge)
    requires OnScreen(a)
    ensures OnScreen(SubmittedEditor(a, judge))
  {
    hide ScreenOf, StartedQuery, ExecutedWithGuard, ConfirmReply, Spent, Trim;
    ExecutionShows(a, judge, Trim(a.editorText));
    if a.pendingConfirmation.Some? {
      var (token, sql) := a.pendingConfirmation.value;
      ScreenAfter(a.log, Event.Confirmed(sql));
      StartShows(Logged(a.(pendingConfirmation := None, guard := Spent(a.guard, token)), Event.Confirmed(sql)),
                 sql, false);
    }
  }

  lemma ReconnectShows(a: App)
    requires OnScreen(a)
    ensures OnScreen(ReconnectedFromPanel(a))
  {
    hide ScreenOf, StartedConnect;
    var profile := Or(Or(a.activeProfile, a.lastProfile), a.wizardProfile);
    if profile.Some? {
      ConnectShows(a.(errorPanel := None, reconnectAttempts := 0), profile.value, Manual);
    }
  }

  lemma PrimaryShows(a: App)
    requires OnScreen(a)
    ensures OnScreen(RanPrimaryErrorAction(a))
  {
    hide ScreenOf, StartedQuery, ReconnectedFromPanel;
    ReconnectShows(a);
    if a.lastFailed.Some? {
      StartShows(a.(errorPanel := None), a.lastFailed.value, false);
    }
  }

  lemma PanelShows(a: App, m: Msg)
    requires OnScreen(a)
    ensures OnScreen(PanelHandled(a, m))
  {
    hide ScreenOf, RanPrimaryErrorAction, ReconnectedFromPanel, Ticked;
    PrimaryShows(a);
    ReconnectShows(a);
    if m.Tick? {
      TickShows(a, m.connect, m.query);
    }
  }

  lemma InvocationShows(a: App, judge: Judge, invocation: Invocation)
    requires OnScreen(a)
    ensures OnScreen(Invoked(a, judge, invocation))
  {
    hide ScreenOf, ExecutedWithGuard;
    if invocation.RunSql? {
      ExecutionShows(a, judge, invocation.sql);
    }
  }

  lemma ConnectPressShows(a: App, choice: Option<Profile>)
    requires OnScreen(a)
    ensures OnScreen(ConnectPressed(a, choice))
  {
    hide ScreenOf, StartedConnect;
    var profile := if a.pane.ConnectionWizard? then a.wizardProfile
                   else if a.pane.ProfileBookmarks? then choice else None;
    if profile.Some? {
      ConnectShows(a, profile.value, Manual);
    }
  }

  lemma StepShows(a: App, judge: Judge, m: Msg)
    requires OnScreen(a)
    ensures OnScreen(Handled(a, judge, m))
  {
    hide ScreenOf, Ticked, PanelHandled, SubmittedEditor, Invoked, ConnectPressed;
    PanelShows(a, m);
    match m {
      case Submit => SubmissionShows(a, judge);
      case Action(_, invocation) => InvocationShows(a, judge, invocation);
      case Connect(choice) => ConnectPressShows(a, choice);
      case Tick(connect, query) => TickShows(a, connect, query);
      case _ =>
    }
  }

  lemma {:induction false} RunKeepsScreen(a: App, judge: Judge, messages: seq<Msg>)
    requires OnScreen(a)
    ensures OnScreen(Run(a, judge, messages))
  {
    hide OnScreen, Handled;
    if messages != [] {
      RunKeepsScreen(a, judge, messages[..|messages| - 1]);
      StepShows(Run(a, judge, messages[..|messages| - 1]), judge, messages[|messages| - 1]);
    }
  }

  // ---------------------------------------------------------------- what the history says

  /** The latest event that the screen goes by. */
  predicate LatestShown(log: seq<Event>, i: nat) {
    i < |log| && Shows(log[i]) && forall k :: i < k < |log| ==> !Shows(log[k])
  }

  /** Either nothing has been shown, or there is a latest such event and the screen is what it leaves. */
  lemma {:induction false} ScreenIs(log: seq<Event>) returns (i: nat)
    ensures i <= |log| && forall k :: i < k < |log| ==> !Shows(log[k])
    ensures i < |log| ==> Shows(log[i]) && ScreenOf(log) == ShownBy(log[i])
    ensures i == |log| ==> ScreenOf(log) == NoRows && forall k :: 0 <= k < |log| ==> !Shows(log[k])
  {
    hide Shows, ShownBy;
    if log == [] {
      i := 0;
    } else {
      var front, last := log[..|log| - 1], |log| - 1;
      if Shows(log[last]) {
        i := last;
      } else {
        i := ScreenIs(front);
        assert forall k :: 0 <= k < last ==> log[k] == front[k];
        if i == last {
          i := |log|;
        }
      }
    }
  }

  lemma LatestIsOnly(log: seq<Event>, i: nat, j: nat)
    requires LatestShown(log, i) && j <= |log|
    requires forall k :: j < k < |log| ==> !Shows(log[k])
    requires if j < |log| then Shows(log[j]) else forall k :: 0 <= k < |log| ==> !Shows(log[k])
    ensures i == j
  {
  }

  /** In every run the screen shows what the history says. A worker's rows are on screen exactly when their
      installation is the latest event that the screen goes by: no query was started at a worker since, and no
      simulated query has ended. The screen is empty from every start at a worker to its answer. */
  lemma ShownIsHistory(judge: Judge, wizard: Option<Profile>, editorText: string, messages: seq<Msg>)
    ensures var a := Run(NewApp(wizard, editorText), judge, messages);
            && a.shown == ScreenOf(a.log)
            && (forall id: nat ::
                  a.shown == RowsOf(id) <==> exists i: nat :: LatestShown(a.log, i) && a.log[i] == Installed(id))
            && (a.shown == DemoRows <==> exists i: nat :: LatestShown(a.log, i) && a.log[i].Simulated?)
            && (forall i: nat :: LatestShown(a.log, i) && a.log[i].Started? ==> a.shown == NoRows)
  {
    hide Run, ScreenOf, LatestShown;
    NewShows(wizard, editorText);
    RunKeepsScreen(NewApp(wizard, editorText), judge, messages);
    var log := Run(NewApp(wizard, editorText), judge, messages).log;
    var j := ScreenIs(log);
    if j < |log| {
      IsLatest(log, j);
    }
    forall i: nat | LatestShown(log, i)
      ensures i == j && i < |log|
    {
      LatestIsIndex(log, i);
      LatestIsOnly(log, i, j);
    }
  }

  lemma IsLatest(log: seq<Event>, i: nat)
    requires i < |log| && Shows(log[i]) && forall k :: i < k < |log| ==> !Shows(log[k])
    ensures LatestShown(log, i)
  {
  }

  lemma NewShows(wizard: Option<Profile>, editorText: string)
    ensures OnScreen(NewApp(wizard, editorText))
  {
  }

  /** Rows on screen come from the worker of the latest submission before they were installed, never from a
      superseded one. */
  lemma ShownIsLatest(judge: Judge, wizard: Option<Profile>, editorText: string, messages: seq<Msg>, id: nat)
    returns (j: nat, i: nat)
    requires Run(NewApp(wizard, editorText), judge, messages).shown == RowsOf(id)
    ensures var log := Run(NewApp(wizard, editorText), judge, messages).log;
            && j < i < |log| && log[i] == Installed(id) && LatestShown(log, i)
            && log[j].Started? && log[j].worker == Some(id) && forall k :: j < k < i ==> !log[k].Started?
  {
    hide Run, ScreenOf, LogFits;
    ShownIsHistory(judge, wizard, editorText, messages);
    var log := Run(NewApp(wizard, editorText), judge, messages).log;
    i :| LatestShown(log, i) && log[i] == Installed(id);
    LatestIsIndex(log, i);
    ReachableLogFits(judge, wizard, editorText, messages);
    j := InstallerAt(judge, log, i);
  }

  lemma LatestIsIndex(log: seq<Event>, i: nat)
    requires LatestShown(log, i)
    ensures i < |log|
  {
  }
}
