/** The query and connection runtime: messages, ticks and worker outcomes over one-shot channels. */
module Runtime {
  import opened Text
  import opened ConfirmationGuard

  const QUERY_DURATION_TICKS: nat := 10
  const QUERY_RETRY_LIMIT: nat := 1
  const AUTO_RECONNECT_LIMIT: nat := 2

  datatype Pane = ConnectionWizard | SchemaExplorer | Results | QueryEditor | ProfileBookmarks

  datatype Profile = Profile(name: string, readOnly: bool)

  datatype ConnectIntent = Manual | AutoReconnect

  datatype ErrorKind = ConnectionError | QueryError

  /** What a one-shot receiver yields when it is polled. */
  datatype Received<+T> = Value(value: T) | Empty | Disconnected

  /** A successful connect may put the selected table's query into the editor. */
  datatype ConnectOutcome = Connected(editor: Option<string>) | ConnectFailed

  /** A failure is known by the two classifications of its message. */
  datatype QueryOutcome = Succeeded(wasCancelled: bool) | Failed(transient: bool, connectionLost: bool)

  /** The receiving end of a running query's channel. */
  datatype Worker = Worker(id: nat, sql: string)

  datatype Cancellation = Cancellation(id: nat, cancelled: bool)

  datatype Shown = NoRows | DemoRows | RowsOf(worker: nat)

  /** The history that the properties speak about; it has no effect on the application. */
  datatype Event =
    | Allowed(sql: string, guarded: bool)
    | Asked(sql: string)
    | Confirmed(sql: string)
    | Blocked(sql: string)
    | Started(sql: string, worker: Option<nat>, resubmitted: bool)
    | Reconnecting
    | Installed(from: nat)
    | Simulated

  datatype App = App(
    pane: Pane,
    editorText: string,
    wizardProfile: Option<Profile>,
    exitConfirmation: bool,
    shouldQuit: bool,
    backend: bool,
    queryRunning: bool,
    ticksRemaining: nat,
    guard: Guard,
    pendingConfirmation: Option<(string, string)>,
    shown: Shown,
    cancelRequested: bool,
    connectRequested: bool,
    connectIntent: ConnectIntent,
    connectRx: Option<Profile>,
    queryRx: Option<Worker>,
    queryCancellation: Option<Cancellation>,
    activeProfile: Option<Profile>,
    lastProfile: Option<Profile>,
    pendingRetry: Option<string>,
    reconnectAttempts: nat,
    retryAttempts: nat,
    inflight: Option<string>,
    lastFailed: Option<string>,
    errorPanel: Option<ErrorKind>,
    workers: nat,
    log: seq<Event>)

  function NewApp(wizard: Option<Profile>, editorText: string): App {
    App(ConnectionWizard, editorText, wizard, false, false, false, false, 0, NewGuard(true), None, NoRows,
        false, false, Manual, None, None, None, None, None, None, 0, 0, None, None, None, 0, [])
  }

  function Logged(a: App, e: Event): App {
    a.(log := a.log + [e])
  }

  function Or<T>(a: Option<T>, b: Option<T>): Option<T> {
    if a.Some? then a else b
  }

  // ---------------------------------------------------------------- connecting

  function StartedConnect(a: App, profile: Profile, intent: ConnectIntent): App {
    var b := a.(reconnectAttempts := if intent.Manual? then 0 else a.reconnectAttempts,
                errorPanel := None, connectRx := Some(profile), connectRequested := true,
                connectIntent := intent, lastProfile := Some(profile));
    if intent.AutoReconnect? then Logged(b, Reconnecting) else b
  }

  function AppliedProfile(a: App, profile: Profile, editor: Option<string>): App {
    a.(activeProfile := Some(profile), lastProfile := Some(profile), wizardProfile := Some(profile),
       backend := true, pane := SchemaExplorer, editorText := if editor.Some? then editor.value else a.editorText)
  }

  function ConnectSucceeded(a: App, editor: Option<string>): App
    requires a.connectRx.Some?
  {
    var b := a.(connectRx := None, connectRequested := false, connectIntent := Manual, reconnectAttempts := 0);
    var c := AppliedProfile(b, a.connectRx.value, editor).(errorPanel := None);
    if a.connectIntent.AutoReconnect? && a.pendingRetry.Some? then
      StartedQuery(c.(pendingRetry := None), a.pendingRetry.value, false)
    else c
  }

  function ConnectFellThrough(a: App): App {
    var b := a.(connectRx := None, connectRequested := false, connectIntent := Manual);
    var profile := Or(a.activeProfile, a.lastProfile);
    if a.connectIntent.AutoReconnect? && a.reconnectAttempts < AUTO_RECONNECT_LIMIT && profile.Some? then
      StartedConnect(b.(reconnectAttempts := a.reconnectAttempts + 1), profile.value, AutoReconnect)
    else b.(pendingRetry := None, reconnectAttempts := 0, errorPanel := Some(ConnectionError))
  }

  function PolledConnect(a: App, received: Received<ConnectOutcome>): App {
    if a.connectRx.None? || received.Empty? then a
    else if received.Value? && received.value.Connected? then ConnectSucceeded(a, received.value.editor)
    else ConnectFellThrough(a)
  }

  // ---------------------------------------------------------------- querying

  function StartedQuery(a: App, sql: string, retrying: bool): App {
    var b := if retrying then a
             else a.(retryAttempts := 0, lastFailed := None, pendingRetry := None, reconnectAttempts := 0);
    var c := b.(inflight := Some(sql), editorText := sql, pane := Results, errorPanel := None,
                cancelRequested := false, queryCancellation := None, queryRx := None, queryRunning := true);
    if c.backend then
      Logged(c.(ticksRemaining := 0, shown := NoRows, queryRx := Some(Worker(c.workers, sql)),
                queryCancellation := Some(Cancellation(c.workers, false)), workers := c.workers + 1),
             Started(sql, Some(c.workers), retrying))
    else
      Logged(c.(ticksRemaining := QUERY_DURATION_TICKS), Started(sql, None, retrying))
  }

  /** The SQL that the poller attributes to the worker that answered. */
  function AuditSql(a: App): string {
    if a.inflight.Some? then a.inflight.value
    else if Trim(a.editorText) != "" then a.editorText else ""
  }

  function QuerySucceeded(a: App): App
    requires a.queryRx.Some?
  {
    Logged(a.(queryRx := None, queryCancellation := None, queryRunning := false,
              shown := RowsOf(a.queryRx.value.id), retryAttempts := 0, reconnectAttempts := 0,
              inflight := None, lastFailed := None, cancelRequested := false),
           Installed(a.queryRx.value.id))
  }

  function Resubmitted(b: App, sql: string): App {
    StartedQuery(b.(retryAttempts := b.retryAttempts + 1), sql, true)
  }

  function ReconnectedForReplay(b: App, sql: Option<string>, profile: Profile): App {
    StartedConnect(b.(pendingRetry := sql, reconnectAttempts := b.reconnectAttempts + 1),
                   profile, AutoReconnect).(cancelRequested := false)
  }

  function FailureReported(b: App, sql: Option<string>): App {
    b.(retryAttempts := 0, reconnectAttempts := 0, inflight := None, lastFailed := sql,
       pendingRetry := None, errorPanel := Some(QueryError), cancelRequested := false)
  }

  function QueryFailed(a: App, transient: bool, connectionLost: bool): App {
    var b := a.(queryRx := None, queryCancellation := None, queryRunning := false);
    var querySql := if AuditSql(a) == "" then None else Some(AuditSql(a));
    var profile := Or(b.activeProfile, b.lastProfile);
    if transient && !b.cancelRequested && b.retryAttempts < QUERY_RETRY_LIMIT && querySql.Some? then
      Resubmitted(b, querySql.value)
    else if connectionLost && !b.cancelRequested && b.reconnectAttempts < AUTO_RECONNECT_LIMIT && profile.Some? then
      ReconnectedForReplay(b, querySql, profile.value)
    else FailureReported(b, querySql)
  }

  function PolledQuery(a: App, received: Received<QueryOutcome>): App {
    if a.queryRx.None? || received.Empty? then a
    else if received.Value? && received.value.Succeeded? then QuerySucceeded(a)
    else if received.Value? then QueryFailed(a, received.value.transient, received.value.connectionLost)
    else QueryFailed(a, false, false)
  }

  /** Without a backend a query is simulated for some ticks. */
  function DemoTicked(a: App): App {
    if !(a.queryRunning && !a.backend) then a
    else if a.ticksRemaining == 0 then
      Logged(a.(queryRunning := false, shown := DemoRows, retryAttempts := 0, inflight := None, lastFailed := None),
             Simulated)
    else a.(ticksRemaining := a.ticksRemaining - 1)
  }

  function Ticked(a: App, connect: Received<ConnectOutcome>, query: Received<QueryOutcome>): App {
    DemoTicked(PolledQuery(PolledConnect(a, connect), query))
  }

  // ---------------------------------------------------------------- the gate to execution

  predicate CurrentProfileReadOnly(a: App) {
    var profile := Or(a.activeProfile, a.lastProfile);
    profile.Some? && profile.value.readOnly
  }

  function GuardedStart(a: App, judge: Judge, sql: string): App {
    match AskedToken(a.guard, judge, sql)
    case None =>
      StartedQuery(Logged(a.(guard := Evaluated(a.guard, judge, sql), pendingConfirmation := None),
                          Allowed(sql, a.guard.enabled)),
                   sql, false)
    case Some(token) =>
      Logged(a.(guard := Evaluated(a.guard, judge, sql), pendingConfirmation := Some((token, sql)),
                editorText := sql, pane := QueryEditor),
             Asked(sql))
  }

  function ExecutedWithGuard(a: App, judge: Judge, sql: string): App {
    if CurrentProfileReadOnly(a) && !judge.safe(sql) then
      Logged(a.(pendingConfirmation := None), Blocked(sql))
    else GuardedStart(a, judge, sql)
  }

  /** Enter in the query editor. */
  function SubmittedEditor(a: App, judge: Judge): App {
    match a.pendingConfirmation
    case Some((token, sql)) =>
      var b := a.(pendingConfirmation := None, guard := Spent(a.guard, token));
      if ConfirmReply(a.guard, judge, token, sql) == ConfirmResult.Confirmed then
        StartedQuery(Logged(b, Event.Confirmed(sql)), sql, false)
      else b
    case None =>
      if !a.queryRunning && Trim(a.editorText) != "" then ExecutedWithGuard(a, judge, Trim(a.editorText)) else a
  }

  // ---------------------------------------------------------------- messages

  /** An enabled action. Actions that build SQL text, page queries included, are known by that text. */
  datatype Invocation =
    | RunSql(sql: string)
    | CancelAction
    | Diagnostics(panel: Option<ErrorKind>)
    | Edit(editorText: string, pane: Pane)

  datatype Msg =
    | Quit
    | Escape
    | Submit
    | Action(primary: bool, invocation: Invocation)
    | Connect(choice: Option<Profile>)
    | CancelKey
    | ToggleSafeMode
    | GoConnectionWizard
    | LoadProfile(profile: Profile)
    | RenameProfile(oldName: string, updated: Profile)
    | Other(editorText: string, pane: Pane, wizard: Option<Profile>)
    | Tick(connect: Received<ConnectOutcome>, query: Received<QueryOutcome>)

  function Invoked(a: App, judge: Judge, invocation: Invocation): App {
    match invocation
    case RunSql(sql) => if a.queryRunning then a else ExecutedWithGuard(a, judge, sql)
    case CancelAction =>
      if !a.queryRunning then a
      else a.(queryRunning := false, ticksRemaining := 0, cancelRequested := true)
    case Diagnostics(panel) =>
      if a.queryRunning then a
      else a.(errorPanel := if !a.backend then Some(ConnectionError) else panel)
    case Edit(editorText, pane) => a.(editorText := editorText, pane := pane)
  }

  function CancelPressed(a: App): App {
    if !a.queryRunning then
      if a.exitConfirmation then a.(shouldQuit := true) else a.(exitConfirmation := true)
    else if a.queryCancellation.Some? then
      a.(cancelRequested := true, queryCancellation := Some(a.queryCancellation.value.(cancelled := true)))
    else
      a.(cancelRequested := true, queryRunning := false, ticksRemaining := 0)
  }

  function ReconnectedFromPanel(a: App): App {
    var profile := Or(Or(a.activeProfile, a.lastProfile), a.wizardProfile);
    if a.connectRequested || profile.None? then a
    else StartedConnect(a.(errorPanel := None, reconnectAttempts := 0), profile.value, Manual)
  }

  function RanPrimaryErrorAction(a: App): App {
    if a.errorPanel == Some(QueryError) && a.lastFailed.Some? then
      StartedQuery(a.(errorPanel := None), a.lastFailed.value, false)
    else ReconnectedFromPanel(a)
  }

  function PanelHandled(a: App, m: Msg): App {
    match m
    case Tick(connect, query) => Ticked(a, connect, query)
    case Escape => a.(errorPanel := None)
    case Submit => RanPrimaryErrorAction(a)
    case Action(primary, _) => if primary then RanPrimaryErrorAction(a) else a
    case Connect(_) => ReconnectedFromPanel(a)
    case GoConnectionWizard => a.(errorPanel := None, pane := ConnectionWizard)
    case Quit => a.(shouldQuit := true)
    case _ => a
  }

  function ConnectPressed(a: App, choice: Option<Profile>): App {
    var profile := if a.pane.ConnectionWizard? then a.wizardProfile
                   else if a.pane.ProfileBookmarks? then choice else None;
    if a.connectRequested || profile.None? then a else StartedConnect(a, profile.value, Manual)
  }

  function Renamed(p: Option<Profile>, oldName: string, updated: Profile): Option<Profile> {
    if p.Some? && p.value.name == oldName then Some(updated) else p
  }

  function Handled(a: App, judge: Judge, m: Msg): App {
    if a.exitConfirmation && !(m.Quit? || m.Escape? || m.Tick? || m.CancelKey?) then a
    else if a.errorPanel.Some? then PanelHandled(a, m)
    else
      match m
      case Quit => a.(shouldQuit := true)
      case Escape => a.(exitConfirmation := false)
      case Submit => if a.pane.QueryEditor? then SubmittedEditor(a, judge) else a
      case Action(_, invocation) => Invoked(a, judge, invocation)
      case Connect(choice) => ConnectPressed(a, choice)
      case CancelKey => CancelPressed(a)
      case ToggleSafeMode => a.(guard := Switched(a.guard, !a.guard.enabled), pendingConfirmation := None)
      case GoConnectionWizard => a.(pane := ConnectionWizard)
      case LoadProfile(profile) =>
        a.(wizardProfile := Some(profile), lastProfile := Some(profile), pane := ConnectionWizard)
      case RenameProfile(oldName, updated) =>
        a.(activeProfile := Renamed(a.activeProfile, oldName, updated),
           lastProfile := Renamed(a.lastProfile, oldName, updated))
      case Other(editorText, pane, wizard) => a.(editorText := editorText, pane := pane, wizardProfile := wizard)
      case Tick(connect, query) => Ticked(a, connect, query)
  }

  function Run(a: App, judge: Judge, messages: seq<Msg>): App {
    if messages == [] then a
    else Handled(Run(a, judge, messages[..|messages| - 1]), judge, messages[|messages| - 1])
  }
}
