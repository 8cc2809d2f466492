/** Runs without user input: retries, reconnects and replays come to an end, cancellation holds,
    and the one kind of query that never ends. */
module RuntimeFailures {
  import opened Text
  import opened ConfirmationGuard
  import opened Runtime
  import opened RuntimeSafety

  predicate OnlyTicks(messages: seq<Msg>) {
    forall m :: m in messages ==> m.Tick?
  }

  /** Nothing the workers deliver is a success. */
  predicate FailingTick(m: Msg) {
    && m.Tick?
    && (m.connect.Value? ==> m.connect.value.ConnectFailed?)
    && (m.query.Value? ==> m.query.value.Failed?)
  }

  predicate OnlyFailures(messages: seq<Msg>) {
    forall m :: m in messages ==> FailingTick(m)
  }

  lemma TickIsTicked(a: App, judge: Judge, m: Msg)
    requires m.Tick?
    ensures Handled(a, judge, m) == Ticked(a, m.connect, m.query)
  {
    hide Ticked;
  }

  // ---------------------------------------------------------------- the measure

  function QueryBudget(a: App): nat
    requires a.retryAttempts <= QUERY_RETRY_LIMIT
  {
    if a.queryRx.Some? then 1 + QUERY_RETRY_LIMIT - a.retryAttempts else 0
  }

  function ConnectBudget(a: App): nat
    requires a.reconnectAttempts <= AUTO_RECONNECT_LIMIT
  {
    if a.connectRx.Some? then 1 + AUTO_RECONNECT_LIMIT - a.reconnectAttempts else 0
  }

  function DemoBudget(a: App): nat {
    if a.queryRunning && !a.backend then 1 + a.ticksRemaining else 0
  }

  predicate Below(b: App, a: App)
    requires a.retryAttempts <= QUERY_RETRY_LIMIT && b.retryAttempts <= QUERY_RETRY_LIMIT
    requires a.reconnectAttempts <= AUTO_RECONNECT_LIMIT && b.reconnectAttempts <= AUTO_RECONNECT_LIMIT
  {
    || QueryBudget(b) < QueryBudget(a)
    || (QueryBudget(b) == QueryBudget(a) && ConnectBudget(b) < ConnectBudget(a))
    || (QueryBudget(b) == QueryBudget(a) && ConnectBudget(b) == ConnectBudget(a) && DemoBudget(b) < DemoBudget(a))
  }

  predicate BelowOrSame(b: App, a: App)
    requires a.retryAttempts <= QUERY_RETRY_LIMIT && b.retryAttempts <= QUERY_RETRY_LIMIT
    requires a.reconnectAttempts <= AUTO_RECONNECT_LIMIT && b.reconnectAttempts <= AUTO_RECONNECT_LIMIT
  {
    b == a || Below(b, a)
  }

  predicate AttemptsAgain(a: App) {
    && a.connectIntent.AutoReconnect? && a.reconnectAttempts < AUTO_RECONNECT_LIMIT
    && (a.activeProfile.Some? || a.lastProfile.Some?)
  }

  predicate SameQueryFields(a: App, b: App) {
    && b.queryRx == a.queryRx && b.retryAttempts == a.retryAttempts && b.backend == a.backend
    && b.queryRunning == a.queryRunning && b.cancelRequested == a.cancelRequested
    && b.lastFailed == a.lastFailed && b.shown == a.shown
  }

  lemma FellAgain(a: App)
    requires AttemptsAgain(a)
    ensures SameQueryFields(a, ConnectFellThrough(a)) && Reattempted(a, ConnectFellThrough(a))
  {
  }

  lemma FellFinally(a: App)
    requires !AttemptsAgain(a)
    ensures SameQueryFields(a, ConnectFellThrough(a)) && GaveUp(a, ConnectFellThrough(a))
  {
  }

  /** A failed connect makes another attempt, or leaves none in flight. */
  lemma FellThrough(a: App)
    requires a.connectRx.Some?
    ensures SameQueryFields(a, ConnectFellThrough(a))
    ensures ConnectFellThrough(a).connectRx.Some? ==> Reattempted(a, ConnectFellThrough(a))
    ensures ConnectFellThrough(a).connectRx.None? ==> GaveUp(a, ConnectFellThrough(a))
  {
    hide ConnectFellThrough, AttemptsAgain, SameQueryFields;
    if AttemptsAgain(a) {
      FellAgain(a);
    } else {
      FellFinally(a);
    }
  }

  predicate Reattempted(a: App, b: App) {
    && a.connectIntent.AutoReconnect? && b.connectIntent.AutoReconnect?
    && a.reconnectAttempts < AUTO_RECONNECT_LIMIT && b.reconnectAttempts == a.reconnectAttempts + 1
    && b.connectRx.Some? && b.lastProfile.Some? && b.pendingRetry == a.pendingRetry && b.log == a.log + [Reconnecting]
  }

  predicate GaveUp(a: App, b: App) {
    && (a.connectIntent.AutoReconnect? && a.lastProfile.Some? ==> a.reconnectAttempts >= AUTO_RECONNECT_LIMIT)
    && b.connectRx.None? && b.reconnectAttempts == 0 && b.errorPanel == Some(ConnectionError)
    && b.pendingRetry.None? && b.log == a.log
  }

  lemma ConnectFailureBudgets(a: App, received: Received<ConnectOutcome>)
    requires a.retryAttempts <= QUERY_RETRY_LIMIT && a.reconnectAttempts <= AUTO_RECONNECT_LIMIT
    requires received.Value? ==> received.value.ConnectFailed?
    ensures PolledConnect(a, received).retryAttempts == a.retryAttempts
    ensures PolledConnect(a, received).reconnectAttempts <= AUTO_RECONNECT_LIMIT
    ensures BelowOrSame(PolledConnect(a, received), a)
    ensures a.connectRx.Some? && !received.Empty? ==> Below(PolledConnect(a, received), a)
    ensures PolledConnect(a, received).queryRx == a.queryRx
  {
    hide ConnectSucceeded, ConnectFellThrough;
    if a.connectRx.Some? {
      FellThrough(a);
    }
  }

  lemma ConnectFailureDescends(a: App, judge: Judge, received: Received<ConnectOutcome>)
    requires Inv(a, judge) && (received.Value? ==> received.value.ConnectFailed?)
    ensures Inv(PolledConnect(a, received), judge)
    ensures BelowOrSame(PolledConnect(a, received), a)
    ensures a.connectRx.Some? && !received.Empty? ==> Below(PolledConnect(a, received), a)
    ensures PolledConnect(a, received).queryRx == a.queryRx
  {
    hide GuardSide, HistorySide, LatestWorker, PolledConnect, BelowOrSame, Below;
    ConnectFailureBudgets(a, received);
    PolledConnectKeeps(a, judge, received);
  }

  lemma QueryFailureDescends(a: App, judge: Judge, received: Received<QueryOutcome>)
    requires Inv(a, judge) && (received.Value? ==> received.value.Failed?)
    ensures Inv(PolledQuery(a, received), judge)
    ensures BelowOrSame(PolledQuery(a, received), a)
    ensures a.queryRx.Some? && !received.Empty? ==> QueryBudget(PolledQuery(a, received)) < QueryBudget(a)
  {
    hide GuardSide, HistorySide, LatestWorker, Trim;
    PolledQueryKeeps(a, judge, received);
  }

  lemma DemoDescends(a: App, judge: Judge)
    requires Inv(a, judge)
    ensures Inv(DemoTicked(a), judge)
    ensures BelowOrSame(DemoTicked(a), a)
    ensures a.queryRunning && !a.backend ==> Below(DemoTicked(a), a)
  {
    hide GuardSide, HistorySide, LatestWorker;
    DemoTickedKeeps(a, judge);
  }

  predicate Limited(a: App) {
    a.retryAttempts <= QUERY_RETRY_LIMIT && a.reconnectAttempts <= AUTO_RECONNECT_LIMIT
  }

  lemma InvIsLimited(a: App, judge: Judge)
    requires Inv(a, judge)
    ensures Limited(a)
  {
    hide GuardSide, HistorySide, LatestWorker;
  }

  lemma DescentsAdd(a: App, b: App, c: App)
    requires Limited(a) && Limited(b) && Limited(c)
    requires BelowOrSame(b, a) && BelowOrSame(c, b)
    ensures BelowOrSame(c, a)
    ensures c == a <==> b == a && c == b
  {
    hide QueryBudget, ConnectBudget, DemoBudget;
  }

  lemma BelowIsOther(b: App, a: App)
    requires Limited(a) && Limited(b)
    ensures Below(b, a) ==> b != a
  {
    hide QueryBudget, ConnectBudget, DemoBudget;
  }

  /** A tick on which the workers only fail lowers the measure, or does nothing at all; it does
      nothing exactly when no answer was waiting on an open channel and no simulated query runs. */
  lemma FailingTickDescends(a: App, judge: Judge, m: Msg)
    requires Inv(a, judge) && FailingTick(m)
    ensures Inv(Handled(a, judge, m), judge)
    ensures BelowOrSame(Handled(a, judge, m), a)
    ensures Handled(a, judge, m) == a <==>
            && (a.connectRx.None? || m.connect.Empty?)
            && (a.queryRx.None? || m.query.Empty?)
            && !(a.queryRunning && !a.backend)
  {
    hide Handled, PolledConnect, PolledQuery, DemoTicked, Inv, BelowOrSame, Below, QueryBudget;
    TickIsTicked(a, judge, m);
    var b := PolledConnect(a, m.connect);
    var c := PolledQuery(b, m.query);
    InvIsLimited(a, judge);
    ConnectFailureDescends(a, judge, m.connect);
    InvIsLimited(b, judge);
    QueryFailureDescends(b, judge, m.query);
    InvIsLimited(c, judge);
    DemoDescends(c, judge);
    InvIsLimited(DemoTicked(c), judge);
    BelowIsOther(b, a);
    BelowIsOther(DemoTicked(c), c);
    DescentsAdd(a, b, c);
    DescentsAdd(a, c, DemoTicked(c));
    NothingReceived(a, b, m);
    IdleDemo(c);
  }

  lemma IdleDemo(c: App)
    ensures !(c.queryRunning && !c.backend) ==> DemoTicked(c) == c
  {
  }

  lemma NothingReceived(a: App, b: App, m: Msg)
    requires m.Tick?
    ensures a.connectRx.None? || m.connect.Empty? ==> PolledConnect(a, m.connect) == a
    ensures b.queryRx.None? || m.query.Empty? ==> PolledQuery(b, m.query) == b
    ensures !(b.queryRunning && !b.backend) ==> DemoTicked(b) == b
  {
  }

  // ---------------------------------------------------------------- a fresh query that keeps failing

  function Resubmissions(log: seq<Event>): nat {
    if log == [] then 0
    else Resubmissions(log[..|log| - 1]) + (if log[|log| - 1].Started? then 1 else 0)
  }

  function Reconnections(log: seq<Event>): nat {
    if log == [] then 0
    else Reconnections(log[..|log| - 1]) + (if log[|log| - 1].Reconnecting? then 1 else 0)
  }

  lemma CountsGrow(log: seq<Event>, e: Event)
    ensures Resubmissions(log + [e]) == Resubmissions(log) + if e.Started? then 1 else 0
    ensures Reconnections(log + [e]) == Reconnections(log) + if e.Reconnecting? then 1 else 0
  {
    assert (log + [e])[..|log|] == log && (log + [e])[|log|] == e;
  }

  /** A query has just been given to a worker and no connect is in flight. */
  predicate Fresh(a: App, sql: string) {
    && a.queryRx.Some? && a.queryRx.value.sql == sql
    && a.retryAttempts == 0 && a.reconnectAttempts == 0 && !a.cancelRequested
    && a.connectRx.None? && a.lastFailed.None? && a.pendingRetry.None?
  }

  datatype Phase = Querying | ReconnectingForReplay | Stopped

  function Retryable(sql: string): Option<string> {
    if sql == "" then None else Some(sql)
  }

  /** What holds while the submission of `sql` made at log length `from` fails again and again. */
  predicate FailingPhase(a: App, sql: string, start: App, phase: Phase) {
    && a.backend
    && Resubmissions(a.log) - Resubmissions(start.log) <= QUERY_RETRY_LIMIT
    && Reconnections(a.log) - Reconnections(start.log) <= AUTO_RECONNECT_LIMIT
    && match phase
       case Querying =>
         && a.queryRx.Some? && a.queryRx.value.sql == sql && a.connectRx.None? && !a.cancelRequested
         && a.lastFailed.None? && a.pendingRetry.None?
         && a.retryAttempts == Resubmissions(a.log) - Resubmissions(start.log)
         && a.reconnectAttempts == 0 && Reconnections(a.log) == Reconnections(start.log)
       case ReconnectingForReplay =>
         && a.queryRx.None? && a.connectRx.Some? && a.connectIntent.AutoReconnect? && !a.queryRunning
         && a.pendingRetry == Retryable(sql) && a.lastFailed.None?
         && 1 <= a.reconnectAttempts <= AUTO_RECONNECT_LIMIT && a.lastProfile.Some?
         && a.reconnectAttempts == Reconnections(a.log) - Reconnections(start.log)
       case Stopped =>
         && a.queryRx.None? && a.connectRx.None? && !a.queryRunning && a.pendingRetry.None?
         && (a.errorPanel == Some(QueryError) || a.errorPanel == Some(ConnectionError))
         && (a.errorPanel == Some(QueryError) ==> a.lastFailed == Retryable(sql))
  }

  /** How many more answers the run can take. */
  function Remaining(a: App, phase: Phase): int {
    match phase
    case Querying => 1 + QUERY_RETRY_LIMIT - a.retryAttempts + AUTO_RECONNECT_LIMIT
    case ReconnectingForReplay => 1 + AUTO_RECONNECT_LIMIT - a.reconnectAttempts
    case Stopped => 0
  }

  /** An open channel yields something on this tick. */
  predicate Answers(a: App, m: Msg) {
    m.Tick? && ((a.connectRx.Some? && !m.connect.Empty?) || (a.queryRx.Some? && !m.query.Empty?))
  }

  /** The ticks of a run on which an open channel yields something. */
  function Answered(a: App, judge: Judge, messages: seq<Msg>): nat {
    if messages == [] then 0
    else
      var front := messages[..|messages| - 1];
      Answered(a, judge, front) + (if Answers(Run(a, judge, front), messages[|messages| - 1]) then 1 else 0)
  }

  lemma QueryFailedStep(a: App, sql: string, start: App, transient: bool, connectionLost: bool) returns (phase: Phase)
    requires QuerySide(a) && FailingPhase(a, sql, start, Querying)
    ensures FailingPhase(QueryFailed(a, transient, connectionLost), sql, start, phase)
    ensures Remaining(QueryFailed(a, transient, connectionLost), phase) < Remaining(a, Querying)
  {
    hide Resubmissions, Reconnections, AuditSql, LatestWorker, Or;
    AuditSqlIsWorkerSql(a);
    CountsGrow(a.log, Started(sql, Some(a.workers), true));
    CountsGrow(a.log, Reconnecting);
    var b := QueryFailed(a, transient, connectionLost);
    if transient && a.retryAttempts < QUERY_RETRY_LIMIT && sql != "" {
      phase := Querying;
    } else if connectionLost && Or(a.activeProfile, a.lastProfile).Some? {
      phase := ReconnectingForReplay;
    } else {
      phase := Stopped;
    }
  }

  lemma QueryingStep(a: App, sql: string, start: App, query: Received<QueryOutcome>) returns (phase: Phase)
    requires QuerySide(a) && FailingPhase(a, sql, start, Querying) && (query.Value? ==> query.value.Failed?)
    ensures FailingPhase(PolledQuery(a, query), sql, start, phase)
    ensures Remaining(PolledQuery(a, query), phase) <= Remaining(a, Querying) - if query.Empty? then 0 else 1
  {
    hide Resubmissions, Reconnections, QueryFailed, QuerySucceeded, LatestWorker;
    if query.Empty? {
      phase := Querying;
    } else if query.Value? {
      phase := QueryFailedStep(a, sql, start, query.value.transient, query.value.connectionLost);
    } else {
      phase := QueryFailedStep(a, sql, start, false, false);
    }
  }

  lemma ReconnectingStep(a: App, sql: string, start: App, connect: Received<ConnectOutcome>) returns (phase: Phase)
    requires FailingPhase(a, sql, start, ReconnectingForReplay)
    requires connect.Value? ==> connect.value.ConnectFailed?
    ensures FailingPhase(PolledConnect(a, connect), sql, start, phase) && !phase.Querying?
    ensures Remaining(PolledConnect(a, connect), phase) <=
            Remaining(a, ReconnectingForReplay) - if connect.Empty? then 0 else 1
  {
    hide Resubmissions, Reconnections, ConnectFellThrough, ConnectSucceeded;
    FellThrough(a);
    CountsGrow(a.log, Reconnecting);
    phase := if PolledConnect(a, connect).connectRx.Some? then ReconnectingForReplay else Stopped;
  }

  lemma FailingStep(a: App, judge: Judge, sql: string, start: App, phase: Phase, m: Msg) returns (next: Phase)
    requires Inv(a, judge) && FailingPhase(a, sql, start, phase) && FailingTick(m)
    ensures FailingPhase(Handled(a, judge, m), sql, start, next)
    ensures Remaining(Handled(a, judge, m), next) <= Remaining(a, phase) - if Answers(a, m) then 1 else 0
  {
    TickIsTicked(a, judge, m);
    hide GuardSide, HistorySide, LatestWorker, Resubmissions, Reconnections, Handled;
    match phase
    case Querying =>
      next := QueryingStep(a, sql, start, m.query);
    case ReconnectingForReplay =>
      next := ReconnectingStep(a, sql, start, m.connect);
    case Stopped =>
      next := Stopped;
  }

  lemma {:induction false} FailingRun(a: App, judge: Judge, sql: string, messages: seq<Msg>) returns (phase: Phase)
    requires Inv(a, judge) && Fresh(a, sql) && OnlyFailures(messages)
    ensures Inv(Run(a, judge, messages), judge)
    ensures FailingPhase(Run(a, judge, messages), sql, a, phase)
    ensures Remaining(Run(a, judge, messages), phase) <= Remaining(a, Querying) - Answered(a, judge, messages)
  {
    hide Inv, Handled, FailingTick, Answers;
    if messages == [] {
      hide *;
      phase := Querying;
      FreshIsQuerying(a, judge, sql);
      RunOfNothing(a, judge);
    } else {
      var front, last := messages[..|messages| - 1], messages[|messages| - 1];
      var before := FailingRun(a, judge, sql, front);
      FailingTickDescends(Run(a, judge, front), judge, last);
      phase := FailingStep(Run(a, judge, front), judge, sql, a, before, last);
    }
  }

  lemma RunOfNothing(a: App, judge: Judge)
    ensures Run(a, judge, []) == a && Answered(a, judge, []) == 0
  {
  }

  lemma FreshIsQuerying(a: App, judge: Judge, sql: string)
    requires Inv(a, judge) && Fresh(a, sql)
    ensures FailingPhase(a, sql, a, Querying)
  {
  }

  lemma StoppedStays(a: App, judge: Judge, sql: string, start: App, m: Msg)
    requires FailingPhase(a, sql, start, Stopped) && m.Tick?
    ensures Handled(a, judge, m) == a
  {
    TickIsTicked(a, judge, m);
    hide Handled;
  }

  /** Where a failing query stands: it waits on exactly one open channel, or it is over, the application is
      idle under an error panel, and further ticks change nothing. */
  predicate WaitsOrIsOver(b: App, judge: Judge, more: Msg) {
    || (b.queryRx.Some? && b.connectRx.None?)
    || (b.queryRx.None? && b.connectRx.Some?)
    || (b.queryRx.None? && b.connectRx.None? && !b.queryRunning && b.errorPanel.Some? && Handled(b, judge, more) == b)
  }

  /** A freshly submitted query whose answers are all failures is resubmitted at most QUERY_RETRY_LIMIT times
      and causes at most AUTO_RECONNECT_LIMIT reconnects. It always waits on one channel until it is over, the
      open channels answer at most once for each of these and once for the query itself, and it is over by the
      last of these answers. */
  lemma FreshFailuresEnd(a: App, judge: Judge, sql: string, messages: seq<Msg>, more: Msg)
    requires Inv(a, judge) && Fresh(a, sql) && OnlyFailures(messages) && more.Tick?
    ensures var b := Run(a, judge, messages); var most := 1 + QUERY_RETRY_LIMIT + AUTO_RECONNECT_LIMIT;
            && Resubmissions(b.log) - Resubmissions(a.log) <= QUERY_RETRY_LIMIT
            && Reconnections(b.log) - Reconnections(a.log) <= AUTO_RECONNECT_LIMIT
            && WaitsOrIsOver(b, judge, more)
            && Answered(a, judge, messages) <= most
            && (Answered(a, judge, messages) == most ==> b.queryRx.None? && b.connectRx.None?)
  {
    var phase := FailingRun(a, judge, sql, messages);
    hide Run, Handled, Inv, Resubmissions, Reconnections, Answered;
    if phase == Stopped {
      StoppedStays(Run(a, judge, messages), judge, sql, a, more);
    }
  }

  lemma ReplayStarts(b: App, sql: string, start: App, editor: Option<string>)
    requires FailingPhase(b, sql, start, ReconnectingForReplay) && sql != ""
    ensures var c := ConnectSucceeded(b, editor);
            && c.log == b.log + [Started(sql, Some(b.workers), false)]
            && c.queryRx == Some(Worker(b.workers, sql)) && Fresh(c, sql) && c.backend
  {
    hide Resubmissions, Reconnections;
  }

  /** When a reconnect made for the replay succeeds, the SQL that failed, and no other, is given to
      a new worker, which starts with full budgets again. */
  lemma ReplayRunsTheFailedSql(a: App, judge: Judge, sql: string, messages: seq<Msg>, editor: Option<string>)
    requires Inv(a, judge) && Fresh(a, sql) && sql != "" && OnlyFailures(messages)
    requires Run(a, judge, messages).connectRx.Some?
    ensures var b := Run(a, judge, messages); var c := Handled(b, judge, Tick(Value(Connected(editor)), Empty));
            && c.log == b.log + [Started(sql, Some(b.workers), false)]
            && c.queryRx == Some(Worker(b.workers, sql)) && Fresh(c, sql)
  {
    var phase := FailingRun(a, judge, sql, messages);
    hide Run, Inv, Resubmissions, Reconnections, LatestWorker, ConnectSucceeded, ConnectFellThrough, Fresh;
    var b := Run(a, judge, messages);
    assert phase == ReconnectingForReplay;
    TickIsTicked(b, judge, Tick(Value(Connected(editor)), Empty));
    hide Handled;
    ReplayStarts(b, sql, a, editor);
  }

  // ---------------------------------------------------------------- cancellation

  /** The open query, if any, has been cancelled and nothing waits to be replayed. */
  predicate Withdrawn(a: App) {
    (a.queryRx.Some? ==> a.cancelRequested) && a.pendingRetry.None?
  }

  lemma CancelWithdraws(a: App, judge: Judge)
    requires Inv(a, judge) && a.queryRunning && a.queryRx.Some?
    ensures Withdrawn(CancelPressed(a)) && Withdrawn(Invoked(a, judge, CancelAction))
  {
    hide HistorySide, GuardSide;
  }

  lemma WithdrawnConnect(a: App, received: Received<ConnectOutcome>)
    requires Withdrawn(a)
    ensures Withdrawn(PolledConnect(a, received))
    ensures Resubmissions(PolledConnect(a, received).log) == Resubmissions(a.log)
  {
    hide ConnectFellThrough, StartedQuery, Resubmissions;
    if a.connectRx.Some? {
      FellThrough(a);
      CountsGrow(a.log, Reconnecting);
    }
  }

  lemma WithdrawnQuery(a: App, received: Received<QueryOutcome>)
    requires Withdrawn(a)
    ensures Withdrawn(PolledQuery(a, received))
    ensures Resubmissions(PolledQuery(a, received).log) == Resubmissions(a.log)
  {
    hide StartedQuery, StartedConnect, Resubmissions, AuditSql;
    if a.queryRx.Some? {
      CountsGrow(a.log, Installed(a.queryRx.value.id));
    }
  }

  lemma WithdrawnDemo(a: App)
    requires Withdrawn(a)
    ensures Withdrawn(DemoTicked(a)) && Resubmissions(DemoTicked(a).log) == Resubmissions(a.log)
  {
    hide Resubmissions;
    CountsGrow(a.log, Simulated);
  }

  /** No tick resubmits, whatever the workers deliver. */
  lemma WithdrawnStep(a: App, judge: Judge, m: Msg)
    requires Withdrawn(a) && m.Tick?
    ensures Withdrawn(Handled(a, judge, m))
    ensures Resubmissions(Handled(a, judge, m).log) == Resubmissions(a.log)
  {
    hide Handled, PolledConnect, PolledQuery, DemoTicked, Withdrawn, Resubmissions;
    TickIsTicked(a, judge, m);
    WithdrawnConnect(a, m.connect);
    var b := PolledConnect(a, m.connect);
    WithdrawnQuery(b, m.query);
    WithdrawnDemo(PolledQuery(b, m.query));
  }

  /** A cancelled query is never submitted again by the runtime. */
  lemma {:induction false} CancelledStaysCancelled(a: App, judge: Judge, messages: seq<Msg>)
    requires Withdrawn(a) && OnlyTicks(messages)
    ensures Withdrawn(Run(a, judge, messages))
    ensures Resubmissions(Run(a, judge, messages).log) == Resubmissions(a.log)
  {
    hide Handled, Withdrawn, Resubmissions;
    if messages != [] {
      CancelledStaysCancelled(a, judge, messages[..|messages| - 1]);
      WithdrawnStep(Run(a, judge, messages[..|messages| - 1]), judge, messages[|messages| - 1]);
    }
  }

  // ---------------------------------------------------------------- the query that never ends

  /** A simulated query is shown as running although a data backend is now present. */
  predicate Stalled(a: App) {
    a.queryRunning && a.backend && a.queryRx.None? && a.pendingRetry.None?
  }

  /** A connect that succeeds while a simulated query runs leaves it stalled. */
  lemma ConnectStallsDemo(a: App, judge: Judge, editor: Option<string>, query: Received<QueryOutcome>)
    requires a.queryRunning && !a.backend && a.queryRx.None? && a.pendingRetry.None? && a.connectRx.Some?
    ensures Stalled(Handled(a, judge, Tick(Value(Connected(editor)), query)))
  {
    TickIsTicked(a, judge, Tick(Value(Connected(editor)), query));
    hide Handled;
  }

  lemma StalledStep(a: App, judge: Judge, m: Msg)
    requires Stalled(a) && m.Tick?
    ensures Stalled(Handled(a, judge, m)) && Handled(a, judge, m).shown == a.shown
  {
    TickIsTicked(a, judge, m);
    hide Handled, PolledConnect;
    StalledConnect(a, m.connect);
  }

  lemma StalledConnect(a: App, received: Received<ConnectOutcome>)
    requires Stalled(a)
    ensures Stalled(PolledConnect(a, received)) && PolledConnect(a, received).shown == a.shown
  {
    hide StartedQuery, ConnectFellThrough;
    if a.connectRx.Some? {
      FellThrough(a);
    }
  }

  /** No number of ticks, whatever the workers deliver, ends a stalled query. */
  lemma {:induction false} StalledForever(a: App, judge: Judge, messages: seq<Msg>)
    requires Stalled(a) && OnlyTicks(messages)
    ensures Stalled(Run(a, judge, messages)) && Run(a, judge, messages).shown == a.shown
  {
    hide Stalled, Handled;
    if messages != [] {
      StalledForever(a, judge, messages[..|messages| - 1]);
      StalledStep(Run(a, judge, messages[..|messages| - 1]), judge, messages[|messages| - 1]);
    }
  }

  /** Left alone, a simulated query with no connect in flight ends after its ticks have passed. */
  lemma {:induction false} DemoEnds(a: App, judge: Judge, messages: seq<Msg>)
    requires a.queryRunning && !a.backend && a.queryRx.None? && a.connectRx.None? && OnlyTicks(messages)
    ensures Run(a, judge, messages) ==
            if |messages| <= a.ticksRemaining then a.(ticksRemaining := a.ticksRemaining - |messages|)
            else a.(ticksRemaining := 0, queryRunning := false, shown := DemoRows, retryAttempts := 0,
                    inflight := None, lastFailed := None, log := a.log + [Simulated])
  {
    if messages != [] {
      var b, m := Run(a, judge, messages[..|messages| - 1]), messages[|messages| - 1];
      DemoEnds(a, judge, messages[..|messages| - 1]);
      TickIsTicked(b, judge, m);
      hide Handled;
    }
  }
}
