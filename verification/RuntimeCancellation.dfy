/** The cancellation token of the open worker. */
module RuntimeCancellation {
  import opened Text
  import opened ConfirmationGuard
  import opened Runtime
  import opened RuntimeSafety

  function CancelledToken(id: nat): Option<Cancellation> {
    Some(Cancellation(id, true))
  }

  /** A step leaves the open worker its token, which only the cancel key may cancel, or closes the channel, or opens
      one to a worker that is new, with a token that is not cancelled. */
  predicate Follows(a: App, b: App, key: bool) {
    && b.workers >= a.workers
    && (b.queryRx.Some? ==>
          || (b.queryRx == a.queryRx
              && (b.queryCancellation == a.queryCancellation
                  || (key && b.queryCancellation == CancelledToken(a.queryRx.value.id))))
          || (a.workers <= b.queryRx.value.id < b.workers
              && b.queryCancellation == Some(Cancellation(b.queryRx.value.id, false))))
  }

  lemma FollowsThen(a: App, b: App, c: App)
    requires Follows(a, b, false) && Follows(b, c, false)
    ensures Follows(a, c, false)
  {
  }

  lemma StartFollows(a: App, sql: string, retrying: bool)
    ensures Follows(a, StartedQuery(a, sql, retrying), false)
  {
  }

  /** Nothing but these fields matters. */
  lemma SameWorker(a: App, b: App, c: App, key: bool)
    requires Follows(b, c, key)
    requires b.queryRx == a.queryRx && b.queryCancellation == a.queryCancellation && b.workers == a.workers
    ensures Follows(a, c, key)
  {
  }

  lemma ConnectFollows(a: App, profile: Profile, intent: ConnectIntent)
    ensures Follows(a, StartedConnect(a, profile, intent), false)
    ensures StartedConnect(a, profile, intent).queryRx == a.queryRx
    ensures StartedConnect(a, profile, intent).queryCancellation == a.queryCancellation
  {
  }

  lemma ConnectedFollows(a: App, editor: Option<string>)
    requires a.connectRx.Some?
    ensures Follows(a, ConnectSucceeded(a, editor), false)
  {
    hide StartedQuery, Follows;
    var b := a.(connectRx := None, connectRequested := false, connectIntent := Manual, reconnectAttempts := 0);
    var c := AppliedProfile(b, a.connectRx.value, editor).(errorPanel := None);
    if a.connectIntent.AutoReconnect? && a.pendingRetry.Some? {
      StartFollows(c.(pendingRetry := None), a.pendingRetry.value, false);
      SameWorker(a, c.(pendingRetry := None), ConnectSucceeded(a, editor), false);
    } else {
      NothingFollows(a, c);
    }
  }

  lemma NothingFollows(a: App, b: App)
    requires b.queryRx == a.queryRx || b.queryRx == None
    requires b.queryCancellation == a.queryCancellation || b.queryRx == None
    requires b.workers == a.workers
    ensures Follows(a, b, false) && Follows(a, b, true)
  {
  }

  lemma FellThroughFollows(a: App)
    ensures Follows(a, ConnectFellThrough(a), false)
    ensures ConnectFellThrough(a).queryRx == a.queryRx
    ensures ConnectFellThrough(a).queryCancellation == a.queryCancellation
  {
    hide StartedConnect;
    var b := a.(connectRx := None, connectRequested := false, connectIntent := Manual);
    var profile := Or(a.activeProfile, a.lastProfile);
    if profile.Some? {
      ConnectFollows(b.(reconnectAttempts := a.reconnectAttempts + 1), profile.value, AutoReconnect);
    }
  }

  lemma ConnectPollFollows(a: App, received: Received<ConnectOutcome>)
    ensures Follows(a, PolledConnect(a, received), false)
  {
    hide ConnectSucceeded, ConnectFellThrough, Follows;
    NothingFollows(a, a);
    FellThroughFollows(a);
    if a.connectRx.Some? && received.Value? && received.value.Connected? {
      ConnectedFollows(a, received.value.editor);
    }
  }

  lemma FailureFollows(a: App, transient: bool, connectionLost: bool)
    ensures Follows(a, QueryFailed(a, transient, connectionLost), false)
  {
    hide StartedQuery, StartedConnect, AuditSql;
    var b := a.(queryRx := None, queryCancellation := None, queryRunning := false);
    var sql := if AuditSql(a) == "" then None else Some(AuditSql(a));
    var profile := Or(b.activeProfile, b.lastProfile);
    StartFollows(b.(retryAttempts := b.retryAttempts + 1), AuditSql(a), true);
    if profile.Some? {
      ConnectFollows(b.(pendingRetry := sql, reconnectAttempts := b.reconnectAttempts + 1), profile.value,
                     AutoReconnect);
    }
  }

  lemma QueryPollFollows(a: App, received: Received<QueryOutcome>)
    ensures Follows(a, PolledQuery(a, received), false)
  {
    hide QueryFailed, Follows;
    NothingFollows(a, a);
    FailureFollows(a, false, false);
    if received.Value? && received.value.Failed? {
      FailureFollows(a, received.value.transient, received.value.connectionLost);
    }
    if a.queryRx.Some? {
      NothingFollows(a, QuerySucceeded(a));
    }
  }

  lemma TickFollows(a: App, connect: Received<ConnectOutcome>, query: Received<QueryOutcome>)
    ensures Follows(a, Ticked(a, connect, query), false)
  {
    hide Follows, PolledConnect, PolledQuery;
    ConnectPollFollows(a, connect);
    QueryPollFollows(PolledConnect(a, connect), query);
    var c := PolledQuery(PolledConnect(a, connect), query);
    FollowsThen(a, PolledConnect(a, connect), c);
    NothingFollows(c, DemoTicked(c));
    FollowsThen(a, c, DemoTicked(c));
  }

  lemma ExecutionFollows(a: App, judge: Judge, sql: string)
    ensures Follows(a, ExecutedWithGuard(a, judge, sql), false)
  {
    hide Follows, StartedQuery, AskedToken, Evaluated, CurrentProfileReadOnly;
    var b := Logged(a.(guard := Evaluated(a.guard, judge, sql), pendingConfirmation := None),
                    Allowed(sql, a.guard.enabled));
    StartFollows(b, sql, false);
    SameWorker(a, b, StartedQuery(b, sql, false), false);
    NothingFollows(a, Logged(a.(pendingConfirmation := None), Blocked(sql)));
    if AskedToken(a.guard, judge, sql).Some? {
      NothingFollows(a, GuardedStart(a, judge, sql));
    }
  }

  lemma SubmissionFollows(a: App, judge: Judge)
    ensures Follows(a, SubmittedEditor(a, judge), false)
  {
    hide Follows, StartedQuery, ExecutedWithGuard, ConfirmReply, Spent, Trim;
    NothingFollows(a, a);
    ExecutionFollows(a, judge, Trim(a.editorText));
    if a.pendingConfirmation.Some? {
      var (token, sql) := a.pendingConfirmation.value;
      var b := a.(pendingConfirmation := None, guard := Spent(a.guard, token));
      NothingFollows(a, b);
      StartFollows(Logged(b, Event.Confirmed(sql)), sql, false);
      SameWorker(a, Logged(b, Event.Confirmed(sql)), StartedQuery(Logged(b, Event.Confirmed(sql)), sql, false), false);
    }
  }

  lemma ReconnectFollows(a: App)
    ensures Follows(a, ReconnectedFromPanel(a), false)
  {
    hide StartedConnect;
    var profile := Or(Or(a.activeProfile, a.lastProfile), a.wizardProfile);
    if profile.Some? {
      ConnectFollows(a.(errorPanel := None, reconnectAttempts := 0), profile.value, Manual);
    }
  }

  lemma PrimaryFollows(a: App)
    ensures Follows(a, RanPrimaryErrorAction(a), false)
  {
    hide Follows, StartedQuery, ReconnectedFromPanel;
    ReconnectFollows(a);
    if a.lastFailed.Some? {
      StartFollows(a.(errorPanel := None), a.lastFailed.value, false);
      SameWorker(a, a.(errorPanel := None), StartedQuery(a.(errorPanel := None), a.lastFailed.value, false), false);
    }
  }

  lemma PanelFollows(a: App, m: Msg)
    ensures Follows(a, PanelHandled(a, m), false)
  {
    hide RanPrimaryErrorAction, ReconnectedFromPanel, Ticked;
    PrimaryFollows(a);
    ReconnectFollows(a);
    if m.Tick? {
      TickFollows(a, m.connect, m.query);
    }
  }

  lemma InvocationFollows(a: App, judge: Judge, invocation: Invocation)
    ensures Follows(a, Invoked(a, judge, invocation), false)
  {
    hide ExecutedWithGuard;
    if invocation.RunSql? {
      ExecutionFollows(a, judge, invocation.sql);
    }
  }

  lemma ConnectPressFollows(a: App, choice: Option<Profile>)
    ensures Follows(a, ConnectPressed(a, choice), false)
  {
    hide StartedConnect;
    var profile := if a.pane.ConnectionWizard? then a.wizardProfile
                   else if a.pane.ProfileBookmarks? then choice else None;
    if profile.Some? {
      ConnectFollows(a, profile.value, Manual);
    }
  }

  lemma CancelFollows(a: App)
    requires QuerySide(a)
    ensures Follows(a, CancelPressed(a), true)
  {
    hide LatestWorker;
  }

  lemma StepFollows(a: App, judge: Judge, m: Msg)
    requires QuerySide(a)
    ensures Follows(a, Handled(a, judge, m), m.CancelKey?)
  {
    hide Ticked, PanelHandled, SubmittedEditor, Invoked, ConnectPressed, CancelPressed, QuerySide;
    PanelFollows(a, m);
    match m {
      case Submit => SubmissionFollows(a, judge);
      case Action(_, invocation) => InvocationFollows(a, judge, invocation);
      case Connect(choice) => ConnectPressFollows(a, choice);
      case Tick(connect, query) => TickFollows(a, connect, query);
      case CancelKey => CancelFollows(a);
      case _ =>
    }
  }

  // ---------------------------------------------------------------- what cancelling does

  /** The cancel key cancels the token of the open worker, and leaves its channel open; the cancel action leaves the
      token as it is. Both mark the query as withdrawn. */
  lemma CancelKeyCancels(a: App, judge: Judge)
    requires Inv(a, judge) && a.queryRunning && a.queryRx.Some? && a.errorPanel.None? && !a.exitConfirmation
    ensures var b := Handled(a, judge, CancelKey);
            && b.queryRx == a.queryRx && b.queryCancellation == CancelledToken(a.queryRx.value.id)
            && b.queryRunning && b.cancelRequested
    ensures var c := Handled(a, judge, Action(false, CancelAction));
            && c.queryRx == a.queryRx && c.queryCancellation == a.queryCancellation
            && !c.queryRunning && c.cancelRequested
  {
    hide ConnectSide, GuardSide, HistorySide, LatestWorker;
  }

  predicate Numbered(a: App) {
    a.queryRx.Some? ==> a.queryRx.value.id < a.workers
  }

  lemma {:induction false} RunFollows(a: App, judge: Judge, messages: seq<Msg>)
    requires Inv(a, judge) && Numbered(a)
    ensures var b := Run(a, judge, messages);
            && Inv(b, judge) && Numbered(b) && b.workers >= a.workers
            && (b.queryRx.Some? ==> b.queryRx == a.queryRx || b.queryRx.value.id >= a.workers)
  {
    hide Inv, Handled;
    if messages != [] {
      var front, m := messages[..|messages| - 1], messages[|messages| - 1];
      RunFollows(a, judge, front);
      var b := Run(a, judge, front);
      InvQuerySide(b, judge);
      StepFollows(b, judge, m);
      HandledKeeps(b, judge, m);
    }
  }

  lemma InvQuerySide(a: App, judge: Judge)
    requires Inv(a, judge)
    ensures QuerySide(a)
  {
  }

  /** A cancelled token stays cancelled for as long as its worker's channel is open, whatever happens. */
  lemma {:induction false} CancelledStaysWithWorker(a: App, judge: Judge, messages: seq<Msg>)
    requires Inv(a, judge) && Numbered(a)
    requires a.queryRx.Some? && a.queryCancellation == CancelledToken(a.queryRx.value.id)
    ensures var b := Run(a, judge, messages);
            b.queryRx.Some? && b.queryRx.value.id == a.queryRx.value.id ==>
              b.queryRx == a.queryRx && b.queryCancellation == a.queryCancellation
  {
    hide Inv, Handled;
    if messages != [] {
      var front, m := messages[..|messages| - 1], messages[|messages| - 1];
      CancelledStaysWithWorker(a, judge, front);
      RunFollows(a, judge, front);
      var b := Run(a, judge, front);
      InvQuerySide(b, judge);
      StepFollows(b, judge, m);
    }
  }

  predicate Silent(m: Msg) {
    m.Tick? && m.query.Empty?
  }

  lemma SilentConnect(a: App, received: Received<ConnectOutcome>)
    requires ConnectSide(a) && a.queryRx.Some?
    ensures PolledConnect(a, received).queryRx == a.queryRx
    ensures PolledConnect(a, received).queryCancellation == a.queryCancellation
  {
    hide StartedQuery, ConnectFellThrough;
    FellThroughFollows(a);
  }

  lemma SilentRest(b: App)
    ensures PolledQuery(b, Empty) == b
    ensures DemoTicked(b).queryRx == b.queryRx && DemoTicked(b).queryCancellation == b.queryCancellation
  {
  }

  lemma SilentTick(a: App, judge: Judge, m: Msg)
    requires ConnectSide(a) && a.queryRx.Some? && Silent(m)
    ensures var b := Handled(a, judge, m);
            b.queryRx == a.queryRx && b.queryCancellation == a.queryCancellation
  {
    hide PolledConnect, PolledQuery, DemoTicked, ConnectSide;
    SilentConnect(a, m.connect);
    SilentRest(PolledConnect(a, m.connect));
  }

  lemma InvConnectSide(a: App, judge: Judge)
    requires Inv(a, judge)
    ensures ConnectSide(a)
  {
  }

  /** Until its worker answers, the channel stays open and keeps its token, over any number of ticks. */
  lemma {:induction false} TokenStaysUntilAnswer(a: App, judge: Judge, messages: seq<Msg>)
    requires Inv(a, judge) && a.queryRx.Some? && forall m :: m in messages ==> Silent(m)
    ensures var b := Run(a, judge, messages);
            Inv(b, judge) && b.queryRx == a.queryRx && b.queryCancellation == a.queryCancellation
  {
    hide Inv, Handled;
    if messages != [] {
      var front, m := messages[..|messages| - 1], messages[|messages| - 1];
      TokenStaysUntilAnswer(a, judge, front);
      InvConnectSide(Run(a, judge, front), judge);
      SilentTick(Run(a, judge, front), judge, m);
      HandledKeeps(Run(a, judge, front), judge, m);
    }
  }

  /** In every run a token is cancelled only because the cancel key was pressed after its worker's start. */
  lemma {:induction false} CancelledByKey(judge: Judge, start: App, messages: seq<Msg>) returns (k: nat)
    requires Inv(start, judge) && start.queryRx.None?
    requires var a := Run(start, judge, messages);
             a.queryRx.Some? && a.queryCancellation == CancelledToken(a.queryRx.value.id)
    ensures k < |messages| && messages[k].CancelKey?
    ensures Run(start, judge, messages[..k]).queryRx == Run(start, judge, messages).queryRx
  {
    hide Inv, Handled;
    var front, m := messages[..|messages| - 1], messages[|messages| - 1];
    RunFollows(start, judge, front);
    var b := Run(start, judge, front);
    InvQuerySide(b, judge);
    StepFollows(b, judge, m);
    if b.queryRx.Some? && b.queryCancellation == CancelledToken(b.queryRx.value.id) {
      k := CancelledByKey(judge, start, front);
      assert front[..k] == messages[..k];
    } else {
      k := |messages| - 1;
    }
  }
}
