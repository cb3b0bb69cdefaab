/** One diagnosis run in the database, and everyone who writes to it: the API that queues it, any number
    of workers that execute it (a task may be delivered twice), and the stale-run scanner. Each database
    session is one atomic transaction, rolled back as a whole when it fails. */
module RunLifecycle {
  import opened Domain

  datatype Status =
    | PENDING | DISPATCH_FAILED | QUEUED | RUNNING
    | COLLECTING_EVIDENCE | GENERATING_REPORT | VALIDATING
    | SUCCEEDED | NEEDS_DATA | FAILED | CANCELLED

  function AllowedTransitions(from: Status): set<Status> {
    match from
    case PENDING => {DISPATCH_FAILED, QUEUED, CANCELLED}
    case DISPATCH_FAILED => {QUEUED, CANCELLED}
    case QUEUED => {RUNNING, FAILED, CANCELLED}
    case RUNNING => {SUCCEEDED, NEEDS_DATA, COLLECTING_EVIDENCE, FAILED, CANCELLED}
    case COLLECTING_EVIDENCE => {GENERATING_REPORT, FAILED, CANCELLED}
    case GENERATING_REPORT => {VALIDATING, FAILED, CANCELLED}
    case VALIDATING => {SUCCEEDED, NEEDS_DATA, FAILED, CANCELLED}
    case _ => {}
  }

  predicate CanTransition(from: Status, to: Status) {
    from == to || to in AllowedTransitions(from)
  }

  predicate Terminal(s: Status) {
    s in {SUCCEEDED, NEEDS_DATA, FAILED, CANCELLED}
  }

  predicate Completed(s: Status) {
    s == SUCCEEDED || s == NEEDS_DATA
  }

  /** States the scanner considers active. */
  predicate Active(s: Status) {
    s in {RUNNING, QUEUED, COLLECTING_EVIDENCE, GENERATING_REPORT, VALIDATING}
  }

  const STALE_SECONDS: int := 600

  datatype RunRow = RunRow(status: Status, startedAt: Option<int>, finishedAt: Option<int>, updatedAt: int)

  datatype EventKind =
    | RunQueued | RunStarted | RunFailed | RunRetrying | DispatchFailed | HarnessRouted | ToolCompleted
    | RunCompleted(status: Status)

  /** The rows of one run: its own row, its reports, its tool executions (by call id) and its events. */
  datatype Rows = Rows(run: RunRow, reports: seq<Status>, toolCalls: set<string>, events: seq<EventKind>)

  function Fresh(now: int): Rows {
    Rows(RunRow(PENDING, None, None, now), [], {}, [])
  }

  // ----- The service operations --------------------------------------------------------------------

  /** A status change: `started_at` and `finished_at` are set once and never moved. */
  function Moved(run: RunRow, to: Status, now: int): RunRow {
    RunRow(to,
           if to == RUNNING && run.startedAt == None then Some(now) else run.startedAt,
           if Terminal(to) && run.finishedAt == None then Some(now) else run.finishedAt,
           now)
  }

  /** One database session over the rows of a run. */
  class Session {
    var rows: Rows

    constructor (rows: Rows)
      ensures this.rows == rows
    {
      this.rows := rows;
    }

    method UpdateRunStatus(to: Status, now: int) returns (ok: bool)
      modifies this
      ensures ok <==> CanTransition(old(rows).run.status, to)
      ensures rows == if ok then old(rows).(run := Moved(old(rows).run, to, now)) else old(rows)
    {
      if !CanTransition(rows.run.status, to) {
        return false;
      }
      var run := rows.run.(status := to);
      if to == RUNNING && run.startedAt.None? {
        run := run.(startedAt := Some(now));
      }
      if Terminal(to) && run.finishedAt.None? {
        run := run.(finishedAt := Some(now));
      }
      rows := rows.(run := run.(updatedAt := now));
      ok := true;
    }

    method WriteEvent(kind: EventKind)
      modifies this
      ensures rows == old(rows).(events := old(rows).events + [kind])
    {
      rows := rows.(events := rows.events + [kind]);
    }

    /** Tool executions are unique per run, tool and call id: a repeated call id fails the insert. */
    method PersistExecutionTrace(calls: seq<string>) returns (ok: bool)
      modifies this
      ensures ok <==> FreshCalls(calls, old(rows).toolCalls)
      ensures ok ==> rows == Traced(old(rows), calls)
    {
      for i := 0 to |calls|
        invariant FreshCalls(calls[..i], old(rows).toolCalls)
        invariant rows == Traced(old(rows), calls[..i])
      {
        assert calls[..i + 1] == calls[..i] + [calls[i]];
        if calls[i] in rows.toolCalls {
          NotFresh(calls, i, old(rows).toolCalls);
          return false;
        }
        rows := rows.(toolCalls := rows.toolCalls + {calls[i]});
        WriteEvent(ToolCompleted);
        assert ToolEvents(i + 1) == ToolEvents(i) + [ToolCompleted];
      }
      assert calls[..|calls|] == calls;
      ok := true;
    }

    /** One report per run. */
    method PersistReport(status: Status) returns (ok: bool)
      modifies this
      ensures ok <==> old(rows).reports == []
      ensures rows == if ok then old(rows).(reports := [status]) else old(rows)
    {
      if rows.reports != [] {
        return false;
      }
      rows := rows.(reports := [status]);
      ok := true;
    }

    // ----- The transactions -------------------------------------------------------------------------

    /** The API commits QUEUED before it dispatches the worker job. */
    method QueueRun(now: int)
      requires rows.run.status == PENDING
      modifies this
      ensures rows == Queued(old(rows), now)
    {
      var ok := UpdateRunStatus(QUEUED, now);
      WriteEvent(RunQueued);
    }

    /** A worker loads the run: terminal runs and runs another worker started recently are skipped. */
    method WorkerLoad(now: int, incidentExists: bool) returns (started: bool)
      modifies this
      ensures started <==> MayStart(old(rows).run, now) && incidentExists
      ensures rows == Loaded(old(rows), now, incidentExists)
    {
      var before := rows;
      if Terminal(rows.run.status) {
        return false;
      }
      if rows.run.status == RUNNING && rows.run.startedAt.Some? && rows.run.startedAt.value > now - STALE_SECONDS {
        return false;
      }
      if !incidentExists {
        var ok := UpdateRunStatus(FAILED, now);
        if ok {
          WriteEvent(RunFailed);
        } else {
          rows := before;
        }
        return false;
      }
      started := UpdateRunStatus(RUNNING, now);
      if started {
        WriteEvent(RunStarted);
      } else {
        rows := before;
      }
    }

    /** The orchestrator failed for good. */
    method WorkerFail(now: int)
      modifies this
      ensures rows == FailedBy(old(rows), now)
    {
      var ok := UpdateRunStatus(FAILED, now);
      if ok {
        WriteEvent(RunFailed);
      }
    }

    /** Publishing: status, events, trace and report commit together or not at all. */
    method WorkerPersist(now: int, final: Status, routed: bool, calls: seq<string>) returns (published: bool)
      requires Completed(final)
      modifies this
      ensures published <==> MayPublish(old(rows), final, calls)
      ensures rows == Persisted(old(rows), now, final, routed, calls)
    {
      var before := rows;
      published := UpdateRunStatus(final, now);
      if published {
        if routed {
          WriteEvent(HarnessRouted);
        }
        WriteEvent(RunCompleted(final));
        published := PersistExecutionTrace(calls);
        if published {
          published := PersistReport(final);
        }
      }
      if !published {
        rows := before;
      }
    }

    /** A transient error is only logged; the worker job is retried later. */
    method WorkerLogRetry()
      modifies this
      ensures rows == old(rows).(events := old(rows).events + [RunRetrying])
    {
      WriteEvent(RunRetrying);
    }

    /** The dispatch failed. The API still holds the row as it last committed it, so the state machine
        judges that cached status, not the one in the table. */
    method ApiDispatchFailed(cached: Status, now: int)
      modifies this
      ensures rows == DispatchFailedBy(old(rows), cached, now)
    {
      if CanTransition(cached, DISPATCH_FAILED) {
        rows := rows.(run := rows.run.(status := DISPATCH_FAILED, updatedAt := now));
        WriteEvent(DispatchFailed);
      }
    }

    /** The dispatch succeeded: the API attaches the job id and touches the row. */
    method ApiAttachTask(now: int)
      modifies this
      ensures rows == Touched(old(rows), now)
    {
      rows := rows.(run := rows.run.(updatedAt := now));
    }

    /** The scanner force-fails an active run that nobody has updated for ten minutes. */
    method Scan(now: int) returns (fixed: nat)
      modifies this
      ensures rows == Scanned(old(rows), now)
      ensures fixed == if Stale(old(rows).run, now) then 1 else 0
    {
      fixed := 0;
      if Active(rows.run.status) && rows.run.updatedAt < now - STALE_SECONDS {
        rows := rows.(run := rows.run.(status := FAILED, finishedAt := Some(now), updatedAt := now));
        fixed := fixed + 1;
      }
    }
  }

  // ----- The transactions as functions -----------------------------------------------------------------

  function Queued(s: Rows, now: int): Rows {
    s.(run := Moved(s.run, QUEUED, now), events := s.events + [RunQueued])
  }

  predicate RecentlyStarted(run: RunRow, now: int) {
    run.status == RUNNING && run.startedAt.Some? && run.startedAt.value > now - STALE_SECONDS
  }

  predicate MayStart(run: RunRow, now: int) {
    !Terminal(run.status) && !RecentlyStarted(run, now) && CanTransition(run.status, RUNNING)
  }

  function Loaded(s: Rows, now: int, incidentExists: bool): Rows {
    if Terminal(s.run.status) || RecentlyStarted(s.run, now) then s
    else
      var to := if incidentExists then RUNNING else FAILED;
      if !CanTransition(s.run.status, to) then s
      else s.(run := Moved(s.run, to, now),
              events := s.events + [if incidentExists then RunStarted else RunFailed])
  }

  function FailedBy(s: Rows, now: int): Rows {
    if CanTransition(s.run.status, FAILED)
    then s.(run := Moved(s.run, FAILED, now), events := s.events + [RunFailed]) else s
  }

  function DispatchFailedBy(s: Rows, cached: Status, now: int): Rows {
    if CanTransition(cached, DISPATCH_FAILED)
    then s.(run := s.run.(status := DISPATCH_FAILED, updatedAt := now), events := s.events + [DispatchFailed]) else s
  }

  predicate FreshCalls(calls: seq<string>, existing: set<string>) {
    && (forall i, j :: 0 <= i < j < |calls| ==> calls[i] != calls[j])
    && (forall c :: c in calls ==> c !in existing)
  }

  lemma NotFresh(calls: seq<string>, i: nat, existing: set<string>)
    requires i < |calls| && (calls[i] in existing || calls[i] in calls[..i])
    ensures !FreshCalls(calls, existing)
  {
    if calls[i] in calls[..i] {
      var j :| 0 <= j < i && calls[..i][j] == calls[i];
      assert calls[j] == calls[i];
    }
  }

  function ToolEvents(n: nat): seq<EventKind> { seq(n, _ => ToolCompleted) }

  function Traced(s: Rows, calls: seq<string>): Rows {
    s.(toolCalls := s.toolCalls + (set c | c in calls), events := s.events + ToolEvents(|calls|))
  }

  predicate MayPublish(s: Rows, final: Status, calls: seq<string>) {
    CanTransition(s.run.status, final) && FreshCalls(calls, s.toolCalls) && s.reports == []
  }

  function Persisted(s: Rows, now: int, final: Status, routed: bool, calls: seq<string>): Rows {
    if !MayPublish(s, final, calls) then s
    else
      var events := s.events + (if routed then [HarnessRouted] else []) + [RunCompleted(final)];
      Traced(s.(run := Moved(s.run, final, now), events := events), calls).(reports := [final])
  }

  function Touched(s: Rows, now: int): Rows {
    s.(run := s.run.(updatedAt := now))
  }

  predicate Stale(run: RunRow, now: int) {
    Active(run.status) && run.updatedAt < now - STALE_SECONDS
  }

  function Scanned(s: Rows, now: int): Rows {
    if Stale(s.run, now) then s.(run := RunRow(FAILED, s.run.startedAt, Some(now), now)) else s
  }

  // ----- Every interleaving -------------------------------------------------------------------------------

  datatype Transaction =
    | ApiQueue(now: int)
    | ApiDispatchFails(now: int)
    | ApiAttach(now: int)
    | Load(now: int, incidentExists: bool)
    | LogRetry
    | Fail(now: int)
    | Persist(now: int, final: Status, routed: bool, calls: seq<string>)
    | ScanStale(now: int)

  predicate Enabled(s: Rows, t: Transaction) {
    match t
    case ApiQueue(_) => s.run.status == PENDING  // only the call that created the run queues it
    case Persist(_, final, _, _) => Completed(final)  // a report is SUCCEEDED or NEEDS_DATA
    case _ => true
  }

  function Commit(s: Rows, t: Transaction): Rows {
    if !Enabled(s, t) then s
    else
      match t
      case ApiQueue(now) => Queued(s, now)
      case ApiDispatchFails(now) => DispatchFailedBy(s, QUEUED, now)  // QUEUED is what the API committed
      case ApiAttach(now) => Touched(s, now)
      case Load(now, incidentExists) => Loaded(s, now, incidentExists)
      case LogRetry => s.(events := s.events + [RunRetrying])
      case Fail(now) => FailedBy(s, now)
      case Persist(now, final, routed, calls) => Persisted(s, now, final, routed, calls)
      case ScanStale(now) => Scanned(s, now)
  }

  function History(s: Rows, ts: seq<Transaction>): Rows {
    if ts == [] then s else Commit(History(s, ts[..|ts| - 1]), ts[|ts| - 1])
  }

  function Completions(events: seq<EventKind>): nat {
    if events == [] then 0
    else Completions(events[..|events| - 1]) + (if events[|events| - 1].RunCompleted? then 1 else 0)
  }

  /** Status, finish time, report and completion event agree, and only these statuses ever occur. */
  ghost predicate Together(s: Rows) {
    && s.run.status in {PENDING, QUEUED, RUNNING, SUCCEEDED, NEEDS_DATA, FAILED}
    && (s.run.finishedAt.Some? <==> Terminal(s.run.status))
    && s.reports == (if Completed(s.run.status) then [s.run.status] else [])
    && (s.reports == [] ==> s.toolCalls == {})
    && Completions(s.events) == |s.reports|
    && (s.run.status == RUNNING ==> s.run.startedAt.Some?)
    && (s.run.status in {PENDING, QUEUED} ==> s.run.startedAt.None?)
  }

  lemma CompletionsAppend(events: seq<EventKind>, e: EventKind)
    ensures Completions(events + [e]) == Completions(events) + (if e.RunCompleted? then 1 else 0)
  {
    assert (events + [e])[..|events|] == events;
  }

  lemma {:induction false} CompletionsAfterTools(events: seq<EventKind>, n: nat)
    ensures Completions(events + ToolEvents(n)) == Completions(events)
  {
    if n == 0 {
      assert events + ToolEvents(0) == events;
    } else {
      assert events + ToolEvents(n) == (events + ToolEvents(n - 1)) + [ToolCompleted];
      CompletionsAppend(events + ToolEvents(n - 1), ToolCompleted);
      CompletionsAfterTools(events, n - 1);
    }
  }

  /** Publishing writes exactly one completion event. */
  lemma CompletionsOfPublish(events: seq<EventKind>, routed: bool, final: Status, n: nat)
    ensures Completions(events + (if routed then [HarnessRouted] else []) + [RunCompleted(final)] + ToolEvents(n)) ==
              Completions(events) + 1
  {
    var e1 := events + (if routed then [HarnessRouted] else []);
    if routed {
      CompletionsAppend(events, HarnessRouted);
    } else {
      assert e1 == events;
    }
    CompletionsAppend(e1, RunCompleted(final));
    CompletionsAfterTools(e1 + [RunCompleted(final)], n);
  }

  lemma PersistKeepsTogether(s: Rows, now: int, final: Status, routed: bool, calls: seq<string>)
    requires Together(s) && Completed(final)
    ensures Together(Persisted(s, now, final, routed, calls))
  {
    if MayPublish(s, final, calls) {
      CompletionsOfPublish(s.events, routed, final, |calls|);
    }
  }

  /** Any legal move to QUEUED, RUNNING or FAILED, with the event that reports it. */
  lemma MoveKeepsTogether(s: Rows, to: Status, now: int, e: EventKind)
    requires Together(s) && CanTransition(s.run.status, to)
    requires to in {QUEUED, RUNNING, FAILED} && !e.RunCompleted?
    ensures Together(s.(run := Moved(s.run, to, now), events := s.events + [e]))
  {
    CompletionsAppend(s.events, e);
  }

  lemma LoadKeepsTogether(s: Rows, now: int, incidentExists: bool)
    requires Together(s)
    ensures Together(Loaded(s, now, incidentExists))
  {
    var to := if incidentExists then RUNNING else FAILED;
    if CanTransition(s.run.status, to) {
      MoveKeepsTogether(s, to, now, if incidentExists then RunStarted else RunFailed);
    }
  }

  lemma FailKeepsTogether(s: Rows, now: int)
    requires Together(s)
    ensures Together(FailedBy(s, now))
  {
    if CanTransition(s.run.status, FAILED) {
      MoveKeepsTogether(s, FAILED, now, RunFailed);
    }
  }

  lemma ScanKeepsTogether(s: Rows, now: int)
    requires Together(s)
    ensures Together(Scanned(s, now))
  {
  }

  lemma ApiKeepsTogether(s: Rows, now: int)
    requires Together(s)
    ensures s.run.status == PENDING ==> Together(Queued(s, now))
    ensures DispatchFailedBy(s, QUEUED, now) == s && Together(Touched(s, now))
  {
    if s.run.status == PENDING {
      MoveKeepsTogether(s, QUEUED, now, RunQueued);
    }
  }

  lemma RetryKeepsTogether(s: Rows)
    requires Together(s)
    ensures Together(s.(events := s.events + [RunRetrying]))
  {
    CompletionsAppend(s.events, RunRetrying);
  }

  lemma CommitKeepsTogether(s: Rows, t: Transaction)
    requires Together(s)
    ensures Together(Commit(s, t))
  {
    match t
    case ApiQueue(now) => ApiKeepsTogether(s, now);
    case ApiDispatchFails(now) => ApiKeepsTogether(s, now);
    case ApiAttach(now) => ApiKeepsTogether(s, now);
    case Load(now, incidentExists) => LoadKeepsTogether(s, now, incidentExists);
    case LogRetry => RetryKeepsTogether(s);
    case Fail(now) => FailKeepsTogether(s, now);
    case Persist(now, final, routed, calls) =>
      if Completed(final) {
        PersistKeepsTogether(s, now, final, routed, calls);
      }
    case ScanStale(now) => ScanKeepsTogether(s, now);
  }

  /** Terminal statuses absorb: no transaction changes the status, the finish time, the report or the
      trace of a finished run. */
  lemma TerminalAbsorbs(s: Rows, t: Transaction)
    requires Together(s) && Terminal(s.run.status)
    ensures var s' := Commit(s, t);
            && s'.run.status == s.run.status && s'.run.finishedAt == s.run.finishedAt
            && s'.reports == s.reports && s'.toolCalls == s.toolCalls
  {
  }

  /** Over any interleaving of the API, duplicate workers and the scanner: a finish time exactly in the
      terminal states, and SUCCEEDED or NEEDS_DATA exactly with one report row of that same status. */
  lemma {:induction false} StatusAndReportMoveTogether(created: int, ts: seq<Transaction>)
    ensures Together(History(Fresh(created), ts))
  {
    if ts != [] {
      StatusAndReportMoveTogether(created, ts[..|ts| - 1]);
      CommitKeepsTogether(History(Fresh(created), ts[..|ts| - 1]), ts[|ts| - 1]);
    }
  }

  /** ... and once terminal at some point of the history, the run keeps its outcome for good. */
  lemma {:induction false} OutcomeIsFinal(created: int, ts: seq<Transaction>, n: nat)
    requires n <= |ts| && Terminal(History(Fresh(created), ts[..n]).run.status)
    ensures var earlier, latest := History(Fresh(created), ts[..n]), History(Fresh(created), ts);
            && latest.run.status == earlier.run.status && latest.run.finishedAt == earlier.run.finishedAt
            && latest.reports == earlier.reports && latest.toolCalls == earlier.toolCalls
    decreases |ts|
  {
    if n == |ts| {
      assert ts[..n] == ts;
    } else {
      var init := ts[..|ts| - 1];
      assert init[..n] == ts[..n];
      OutcomeIsFinal(created, init, n);
      StatusAndReportMoveTogether(created, init);
      TerminalAbsorbs(History(Fresh(created), init), ts[|ts| - 1]);
    }
  }

  /** A publish commits exactly when the run is still RUNNING and its call ids are new: a worker overtaken
      by the scanner, or a duplicate of one that already published, leaves no trace at all. */
  lemma PublishesOnlyWhileRunning(created: int, ts: seq<Transaction>, now: int, final: Status, routed: bool,
                                  calls: seq<string>)
    requires Completed(final)
    ensures var s := History(Fresh(created), ts);
            && (MayPublish(s, final, calls) <==> s.run.status == RUNNING && FreshCalls(calls, {}))
            && (s.run.status != RUNNING ==> Commit(s, Persist(now, final, routed, calls)) == s)
  {
    StatusAndReportMoveTogether(created, ts);
  }

  /** A failed dispatch never shows: the run stays as it was and DISPATCH_FAILED is never reached. */
  lemma DispatchFailureIsInvisible(created: int, ts: seq<Transaction>, now: int)
    ensures Commit(History(Fresh(created), ts), ApiDispatchFails(now)) == History(Fresh(created), ts)
    ensures History(Fresh(created), ts).run.status != DISPATCH_FAILED
  {
    StatusAndReportMoveTogether(created, ts);
  }

  /** A worker starts exactly on a queued run, or on a running one that was started ten minutes ago or
      more. In particular a retry that re-enters sooner, as a task retried after a transient error does,
      executes nothing and leaves the run unchanged. */
  lemma WorkerStartsExactly(created: int, ts: seq<Transaction>, now: int)
    ensures var s := History(Fresh(created), ts);
            && (MayStart(s.run, now) <==>
                  s.run.status == QUEUED
                  || (s.run.status == RUNNING && s.run.startedAt.Some?
                      && s.run.startedAt.value <= now - STALE_SECONDS))
            && (s.run.status == RUNNING && !MayStart(s.run, now) ==> Commit(s, Load(now, true)) == s)
  {
    StatusAndReportMoveTogether(created, ts);
  }

  // ----- What each transaction leaves behind --------------------------------------------------------------

  /** The legal moves by where they lead. */
  lemma MovesInto(from: Status)
    ensures CanTransition(from, PENDING) <==> from == PENDING
    ensures CanTransition(from, DISPATCH_FAILED) <==> from in {PENDING, DISPATCH_FAILED}
    ensures CanTransition(from, QUEUED) <==> from in {PENDING, DISPATCH_FAILED, QUEUED}
    ensures CanTransition(from, RUNNING) <==> from in {QUEUED, RUNNING}
    ensures CanTransition(from, COLLECTING_EVIDENCE) <==> from in {RUNNING, COLLECTING_EVIDENCE}
    ensures CanTransition(from, GENERATING_REPORT) <==> from in {COLLECTING_EVIDENCE, GENERATING_REPORT}
    ensures CanTransition(from, VALIDATING) <==> from in {GENERATING_REPORT, VALIDATING}
    ensures CanTransition(from, SUCCEEDED) <==> from in {RUNNING, VALIDATING, SUCCEEDED}
    ensures CanTransition(from, NEEDS_DATA) <==> from in {RUNNING, VALIDATING, NEEDS_DATA}
    ensures CanTransition(from, FAILED) <==> from !in {PENDING, DISPATCH_FAILED, SUCCEEDED, NEEDS_DATA, CANCELLED}
    ensures CanTransition(from, CANCELLED) <==> from !in {SUCCEEDED, NEEDS_DATA, FAILED}
  {
  }

  /** A failure is always recorded: over every history the orchestrator's failure fails a queued or running run,
      with its finish time and an event. A run that failed before gets another event; any other is left alone. */
  lemma FailureIsRecorded(created: int, ts: seq<Transaction>, now: int)
    ensures var s := History(Fresh(created), ts);
            Commit(s, Fail(now)) ==
              if s.run.status == QUEUED || s.run.status == RUNNING then
                Rows(RunRow(FAILED, s.run.startedAt, Some(now), now), s.reports, s.toolCalls, s.events + [RunFailed])
              else if s.run.status == FAILED then
                Rows(RunRow(FAILED, s.run.startedAt, s.run.finishedAt, now), s.reports, s.toolCalls,
                     s.events + [RunFailed])
              else s
  {
    StatusAndReportMoveTogether(created, ts);
  }

  /** A worker that finds its incident starts a queued run, or restarts one started ten minutes ago or more; one
      that does not find it fails the run instead. Any other run is left alone. */
  lemma LoadIsRecorded(created: int, ts: seq<Transaction>, now: int, incidentExists: bool)
    ensures var s := History(Fresh(created), ts);
            var due := s.run.status == QUEUED
                       || (s.run.status == RUNNING && s.run.startedAt.Some? && s.run.startedAt.value <= now - 600);
            Commit(s, Load(now, incidentExists)) ==
              if !due then s
              else if incidentExists then
                Rows(RunRow(RUNNING, Some(if s.run.status == QUEUED then now else s.run.startedAt.value), None, now),
                     s.reports, s.toolCalls, s.events + [RunStarted])
              else
                Rows(RunRow(FAILED, s.run.startedAt, Some(now), now), s.reports, s.toolCalls, s.events + [RunFailed])
  {
    StatusAndReportMoveTogether(created, ts);
  }

  /** The API queues a new run; later it only touches it, and a failed dispatch changes nothing. */
  lemma ApiIsRecorded(created: int, ts: seq<Transaction>, now: int)
    ensures var s := History(Fresh(created), ts);
            && Commit(s, ApiQueue(now)) ==
                 (if s.run.status == PENDING
                  then Rows(RunRow(QUEUED, None, None, now), s.reports, s.toolCalls, s.events + [RunQueued]) else s)
            && Commit(s, ApiAttach(now)) ==
                 Rows(RunRow(s.run.status, s.run.startedAt, s.run.finishedAt, now), s.reports, s.toolCalls, s.events)
            && Commit(s, ApiDispatchFails(now)) == s
            && Commit(s, LogRetry) == Rows(s.run, s.reports, s.toolCalls, s.events + [RunRetrying])
  {
    StatusAndReportMoveTogether(created, ts);
  }

  /** Publishing turns a running run into its report: status, finish time, report, one execution and one event per
      call, after the routing event if there is one and the completion event. Otherwise nothing happens. */
  lemma PublicationIsRecorded(created: int, ts: seq<Transaction>, now: int, final: Status, routed: bool,
                              calls: seq<string>)
    requires final == SUCCEEDED || final == NEEDS_DATA
    ensures var s := History(Fresh(created), ts);
            Commit(s, Persist(now, final, routed, calls)) ==
              if s.run.status == RUNNING && forall i, j :: 0 <= i < j < |calls| ==> calls[i] != calls[j] then
                Rows(RunRow(final, s.run.startedAt, Some(now), now), [final], (set c | c in calls),
                     s.events + (if routed then [HarnessRouted] else []) + [RunCompleted(final)]
                     + seq(|calls|, _ => ToolCompleted))
              else s
  {
    StatusAndReportMoveTogether(created, ts);
    var s := History(Fresh(created), ts);
    if s.run.status == RUNNING {
      assert s.toolCalls == {};
      assert {} + (set c | c in calls) == (set c | c in calls);
    }
  }

  /** The scanner fails a queued or running run that nobody updated for ten minutes, without an event. */
  lemma ScanIsRecorded(created: int, ts: seq<Transaction>, now: int)
    ensures var s := History(Fresh(created), ts);
            Commit(s, ScanStale(now)) ==
              if (s.run.status == QUEUED || s.run.status == RUNNING) && s.run.updatedAt < now - 600 then
                Rows(RunRow(FAILED, s.run.startedAt, Some(now), now), s.reports, s.toolCalls, s.events)
              else s
  {
    StatusAndReportMoveTogether(created, ts);
  }

  lemma StartTimeKept(s: Rows, t: Transaction)
    requires Together(s) && s.run.startedAt.Some?
    ensures Commit(s, t).run.startedAt == s.run.startedAt
  {
  }

  /** Once set, the start time never moves. */
  lemma {:induction false} StartTimeNeverMoves(created: int, ts: seq<Transaction>, n: nat)
    requires n <= |ts| && History(Fresh(created), ts[..n]).run.startedAt.Some?
    ensures History(Fresh(created), ts).run.startedAt == History(Fresh(created), ts[..n]).run.startedAt
    decreases |ts|
  {
    if n == |ts| {
      assert ts[..n] == ts;
    } else {
      var init := ts[..|ts| - 1];
      assert init[..n] == ts[..n];
      StartTimeNeverMoves(created, init, n);
      StatusAndReportMoveTogether(created, init);
      StartTimeKept(History(Fresh(created), init), ts[|ts| - 1]);
    }
  }
}
