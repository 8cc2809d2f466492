/** The application and its guard object: each message is one step of the protocol. */
module RuntimeApp {
  import opened Text
  import opened SqlLexer
  import opened ConfirmationGuard
  import opened SafeMode
  import opened Runtime
  import opened RuntimeSafety

  /** The guard is an object of its own, with a state of its own; the record shows it as it is. */
  class TuiApp {
    const safeModeGuard: SafeModeGuard
    var state: App

    ghost predicate Valid()
      reads this, safeModeGuard
    {
      state.guard == safeModeGuard.View()
    }

    constructor (guard: SafeModeGuard, wizard: Option<Profile>, editorText: string)
      requires guard.View() == NewGuard(true)
      ensures Valid() && state == NewApp(wizard, editorText) && safeModeGuard == guard
      ensures Inv(state, guard.Judgement())
    {
      hide Inv, SqlJudge;
      safeModeGuard := guard;
      state := NewApp(wizard, editorText);
      NewAppInv(guard.Judgement(), wizard, editorText);
    }

    method ShowGuard()
      modifies this`state
      ensures Valid() && state == old(state).(guard := safeModeGuard.View())
    {
      state := state.(guard := Guard(safeModeGuard.enabled, safeModeGuard.nonce, safeModeGuard.pendingConfirmations));
    }

    /** The guard's answer decides between starting the query and asking. */
    method EvaluateAndStart(sql: string)
      requires Valid()
      modifies this, safeModeGuard
      ensures Valid() && state == GuardedStart(old(state), safeModeGuard.Judgement(), sql)
    {
      hide StartedQuery, Assess, Evaluated, AskedToken, Normalize, SqlJudge;
      var guarded := safeModeGuard.enabled;
      var decision := safeModeGuard.Evaluate(sql);
      ShowGuard();
      match decision
      case Allow(_) =>
        state := state.(pendingConfirmation := None);
        state := Logged(state, Allowed(sql, guarded));
        StartKeepsGuard(state, sql);
        state := StartedQuery(state, sql, false);
      case RequireConfirmation(token, _) =>
        state := state.(pendingConfirmation := Some((token, sql)), editorText := sql, pane := QueryEditor);
        state := Logged(state, Asked(sql));
    }

    method ExecuteSqlWithGuard(sql: string)
      requires Valid()
      modifies this, safeModeGuard
      ensures Valid() && state == ExecutedWithGuard(old(state), safeModeGuard.Judgement(), sql)
    {
      hide Assess, GuardedStart, Normalize;
      JudgesByAssessment(safeModeGuard.fingerprint, sql);
      if CurrentProfileReadOnly(state) {
        var assessment := AssessSqlSafety(sql);
        if !assessment.IsSafeReadOnly() {
          state := state.(pendingConfirmation := None);
          state := Logged(state, Blocked(sql));
          return;
        }
      }
      EvaluateAndStart(sql);
    }

    /** Enter in the query editor spends the token on offer, or submits the text. */
    method SubmitEditor()
      requires Valid()
      modifies this, safeModeGuard
      ensures Valid() && state == SubmittedEditor(old(state), safeModeGuard.Judgement())
    {
      hide StartedQuery, ExecutedWithGuard, Trim, ConfirmReply, Spent, SqlJudge;
      if state.pendingConfirmation.Some? {
        var (token, sql) := state.pendingConfirmation.value;
        state := state.(pendingConfirmation := None);
        var reply := safeModeGuard.Confirm(token, sql);
        ShowGuard();
        if reply == ConfirmResult.Confirmed {
          state := Logged(state, Event.Confirmed(sql));
          StartKeepsGuard(state, sql);
          state := StartedQuery(state, sql, false);
        }
        return;
      }
      if !state.queryRunning && Trim(state.editorText) != "" {
        ExecuteSqlWithGuard(Trim(state.editorText));
      }
    }

    method ToggleSafeMode()
      requires Valid()
      modifies this, safeModeGuard
      ensures Valid()
      ensures var a := old(state);
              state == a.(guard := Switched(a.guard, !a.guard.enabled), pendingConfirmation := None)
    {
      safeModeGuard.SetEnabled(!safeModeGuard.enabled);
      ShowGuard();
      state := state.(pendingConfirmation := None);
    }

    /** One message is one step of the protocol, and what every run keeps is kept. Only these three kinds
        of message reach the guard object. */
    method Handle(m: Msg)
      requires Valid()
      modifies this, safeModeGuard
      ensures Valid() && state == Handled(old(state), safeModeGuard.Judgement(), m)
      ensures Inv(old(state), safeModeGuard.Judgement()) ==> Inv(state, safeModeGuard.Judgement())
    {
      hide Handled, ExecutedWithGuard, SubmittedEditor, Inv, SqlJudge;
      if Inv(state, safeModeGuard.Judgement()) {
        HandledKeeps(state, safeModeGuard.Judgement(), m);
      }
      if !ReachesGuard(state, m) {
        OthersKeepGuard(state, safeModeGuard.Judgement(), m);
        state := Handled(state, safeModeGuard.Judgement(), m);
        return;
      }
      ReachedSteps(state, safeModeGuard.Judgement(), m);
      match m
      case Submit => SubmitEditor();
      case ToggleSafeMode => ToggleSafeMode();
      case Action(_, invocation) => ExecuteSqlWithGuard(invocation.sql);
    }
  }

  /** The messages whose step evaluates or confirms SQL, or switches the guard. */
  predicate ReachesGuard(a: App, m: Msg) {
    && !a.exitConfirmation && a.errorPanel.None?
    && match m
       case Submit => a.pane.QueryEditor?
       case ToggleSafeMode => true
       case Action(_, invocation) => invocation.RunSql? && !a.queryRunning
       case _ => false
  }

  lemma StartKeepsGuard(a: App, sql: string)
    ensures StartedQuery(a, sql, false).guard == a.guard && StartedQuery(a, sql, true).guard == a.guard
  {
  }

  lemma ConnectKeepsGuard(a: App, profile: Profile, intent: ConnectIntent)
    ensures StartedConnect(a, profile, intent).guard == a.guard
  {
  }

  lemma SuccessKeepsGuard(a: App, editor: Option<string>)
    requires a.connectRx.Some?
    ensures ConnectSucceeded(a, editor).guard == a.guard
  {
    hide StartedQuery;
    var b := a.(connectRx := None, connectRequested := false, connectIntent := Manual, reconnectAttempts := 0);
    var c := AppliedProfile(b, a.connectRx.value, editor).(errorPanel := None);
    if a.pendingRetry.Some? {
      StartKeepsGuard(c.(pendingRetry := None), a.pendingRetry.value);
    }
  }

  lemma FallThroughKeepsGuard(a: App)
    ensures ConnectFellThrough(a).guard == a.guard
  {
    hide StartedConnect;
    var b := a.(connectRx := None, connectRequested := false, connectIntent := Manual);
    if Or(a.activeProfile, a.lastProfile).Some? {
      ConnectKeepsGuard(b.(reconnectAttempts := a.reconnectAttempts + 1),
                        Or(a.activeProfile, a.lastProfile).value, AutoReconnect);
    }
  }

  lemma ConnectAnswerKeepsGuard(a: App, received: Received<ConnectOutcome>)
    ensures PolledConnect(a, received).guard == a.guard
  {
    hide ConnectSucceeded, ConnectFellThrough;
    FallThroughKeepsGuard(a);
    if a.connectRx.Some? && received.Value? && received.value.Connected? {
      SuccessKeepsGuard(a, received.value.editor);
    }
  }

  lemma FailureKeepsGuard(a: App, transient: bool, connectionLost: bool)
    ensures QueryFailed(a, transient, connectionLost).guard == a.guard
  {
    hide StartedQuery, StartedConnect, AuditSql;
    var b := a.(queryRx := None, queryCancellation := None, queryRunning := false);
    var querySql := if AuditSql(a) == "" then None else Some(AuditSql(a));
    StartKeepsGuard(b.(retryAttempts := b.retryAttempts + 1), AuditSql(a));
    if Or(b.activeProfile, b.lastProfile).Some? {
      ConnectKeepsGuard(b.(pendingRetry := querySql, reconnectAttempts := b.reconnectAttempts + 1),
                        Or(b.activeProfile, b.lastProfile).value, AutoReconnect);
    }
  }

  lemma QueryAnswerKeepsGuard(a: App, received: Received<QueryOutcome>)
    ensures PolledQuery(a, received).guard == a.guard
  {
    hide QueryFailed;
    FailureKeepsGuard(a, false, false);
    if received.Value? && received.value.Failed? {
      FailureKeepsGuard(a, received.value.transient, received.value.connectionLost);
    }
  }

  lemma TickKeepsGuard(a: App, connect: Received<ConnectOutcome>, query: Received<QueryOutcome>)
    ensures Ticked(a, connect, query).guard == a.guard
  {
    hide PolledConnect, PolledQuery;
    ConnectAnswerKeepsGuard(a, connect);
    QueryAnswerKeepsGuard(PolledConnect(a, connect), query);
  }

  lemma ReconnectKeepsGuard(a: App)
    ensures ReconnectedFromPanel(a).guard == a.guard
  {
    hide StartedConnect;
    var profile := Or(Or(a.activeProfile, a.lastProfile), a.wizardProfile);
    if profile.Some? {
      ConnectKeepsGuard(a.(errorPanel := None, reconnectAttempts := 0), profile.value, Manual);
    }
  }

  lemma PrimaryKeepsGuard(a: App)
    ensures RanPrimaryErrorAction(a).guard == a.guard
  {
    hide StartedQuery, ReconnectedFromPanel;
    ReconnectKeepsGuard(a);
    if a.lastFailed.Some? {
      StartKeepsGuard(a.(errorPanel := None), a.lastFailed.value);
    }
  }

  lemma PanelKeepsGuard(a: App, m: Msg)
    ensures PanelHandled(a, m).guard == a.guard
  {
    hide ReconnectedFromPanel, RanPrimaryErrorAction, Ticked;
    if m.Tick? {
      TickKeepsGuard(a, m.connect, m.query);
    }
    PrimaryKeepsGuard(a);
    ReconnectKeepsGuard(a);
  }

  lemma ConnectPressedKeepsGuard(a: App, choice: Option<Profile>)
    ensures ConnectPressed(a, choice).guard == a.guard
  {
    hide StartedConnect;
    var profile := if a.pane.ConnectionWizard? then a.wizardProfile
                   else if a.pane.ProfileBookmarks? then choice else None;
    if profile.Some? {
      ConnectKeepsGuard(a, profile.value, Manual);
    }
  }

  /** A message that does not reach the guard leaves it as it is. */
  lemma OthersKeepGuard(a: App, judge: Judge, m: Msg)
    requires !ReachesGuard(a, m)
    ensures Handled(a, judge, m).guard == a.guard
  {
    hide SubmittedEditor, ExecutedWithGuard, PanelHandled, Ticked, ConnectPressed;
    PanelKeepsGuard(a, m);
    if m.Tick? {
      TickKeepsGuard(a, m.connect, m.query);
    }
    if m.Connect? {
      ConnectPressedKeepsGuard(a, m.choice);
    }
  }

  lemma ReachedSteps(a: App, judge: Judge, m: Msg)
    requires ReachesGuard(a, m)
    ensures m.Submit? ==> Handled(a, judge, m) == SubmittedEditor(a, judge)
    ensures m.ToggleSafeMode? ==>
              Handled(a, judge, m) == a.(guard := Switched(a.guard, !a.guard.enabled), pendingConfirmation := None)
    ensures m.Action? ==> Handled(a, judge, m) == ExecutedWithGuard(a, judge, m.invocation.sql)
  {
    hide SubmittedEditor, ExecutedWithGuard;
  }
}
