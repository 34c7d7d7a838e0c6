/** The three tables and the transactions on them, each one atomic step (internal/store). */
module Tables {
  import opened Prelude
  import opened Workflow
  import opened History
  import opened Engine
  import opened Commands
  import opened Tracking

  /** `history` holds the rows of each run in the order of their unique key (run, sequence). */
  datatype Db = Db(
    runs: map<RunId, RunRecord>,
    history: map<RunId, seq<Event>>,
    tasks: map<TaskId, TaskRecord>)

  const EMPTY := Db(map[], map[], map[])

  // ------------------------------------------------------------------ rows

  function HistoryOf(history: map<RunId, seq<Event>>, runId: RunId): seq<Event> {
    if runId in history then history[runId] else []
  }

  predicate HasSequence(rows: seq<Event>, n: nat) {
    exists i :: 0 <= i < |rows| && rows[i].sequence == n
  }

  function InsertOrdered(rows: seq<Event>, e: Event): seq<Event> {
    if |rows| == 0 || rows[|rows| - 1].sequence < e.sequence then rows + [e]
    else InsertOrdered(rows[..|rows| - 1], e) + [rows[|rows| - 1]]
  }

  /** The primary key (run, sequence) refuses a second row. */
  function InsertEvent(history: map<RunId, seq<Event>>, e: Event): Result<map<RunId, seq<Event>>, Error> {
    var rows := HistoryOf(history, e.runId);
    if HasSequence(rows, e.sequence) then Err(DuplicateKey)
    else Ok(history[e.runId := InsertOrdered(rows, e)])
  }

  function InsertEvents(history: map<RunId, seq<Event>>, events: seq<Event>): Result<map<RunId, seq<Event>>, Error> {
    if |events| == 0 then Ok(history)
    else
      var before :- InsertEvents(history, events[..|events| - 1]);
      InsertEvent(before, events[|events| - 1])
  }

  /** `COALESCE(MAX(sequence), 0) + 1`. */
  function NextSequence(rows: seq<Event>): nat {
    if |rows| == 0 then 1 else rows[|rows| - 1].sequence + 1
  }

  function MutateTable(tasks: map<TaskId, TaskRecord>, m: Mutation): Result<map<TaskId, TaskRecord>, Error> {
    if m.Insert? && m.task.id in tasks then Err(DuplicateKey) else Ok(MutateRows(tasks, m))
  }

  function MutateTables(tasks: map<TaskId, TaskRecord>, mutations: seq<Mutation>): Result<map<TaskId, TaskRecord>,
                        Error> {
    if |mutations| == 0 then Ok(tasks)
    else
      var before :- MutateTables(tasks, mutations[..|mutations| - 1]);
      MutateTable(before, mutations[|mutations| - 1])
  }

  /** The columns of a run row that an append writes. */
  function RunColumns(row: RunRecord, run: RunRecord): RunRecord {
    row.(status := run.status, input := run.input, output := run.output, failure := run.failure,
         cancelReason := run.cancelReason, updatedAt := run.updatedAt, completedAt := run.completedAt,
             version := run.version)
  }

  // ------------------------------------------------------------------ transactions

  function CreateRun(db: Db, run: RunRecord, events: seq<Event>, mutations: seq<Mutation>): Result<Db, Error> {
    if run.id in db.runs then Err(DuplicateKey)
    else
      var history :- InsertEvents(db.history, events);
      var tasks :- MutateTables(db.tasks, mutations);
      Ok(Db(db.runs[run.id := run], history, tasks))
  }

  /** The version compare is the only protection of a command against writers that came in between. */
  function AppendRunChanges(db: Db, run: RunRecord, expectedVersion: nat, events: seq<Event>,
                            mutations: seq<Mutation>): Result<Db, Error> {
    if run.id !in db.runs || db.runs[run.id].version != expectedVersion then Err(VersionConflict)
    else
      var history :- InsertEvents(db.history, events);
      var tasks :- MutateTables(db.tasks, mutations);
      Ok(Db(db.runs[run.id := RunColumns(db.runs[run.id], run)], history, tasks))
  }

  /** Appends `payload` under the next sequence number of the run and makes that number the run's version. */
  function AppendNumbered(db: Db, runId: RunId, stepId: StepId, taskId: TaskId, payload: Payload,
                          now: Time): Result<Db, Error> {
    var n := NextSequence(HistoryOf(db.history, runId));
    var history :- InsertEvent(db.history, Event(runId, n, stepId, Some(taskId), payload, now));
    Ok(db.(history := history,
           runs := if runId in db.runs
                   then db.runs[runId := db.runs[runId].(version := n, updatedAt := now)]
                   else db.runs))
  }

  function LeasedRow(row: TaskRecord, worker: string, expiresAt: Time, now: Time): TaskRecord {
    row.(status := Leased, leaseOwner := worker, leaseExpiresAt := Some(expiresAt), heartbeatAt := Some(now),
         updatedAt := now)
  }

  /** One turn of the leasing loop; a row that is no longer available is passed over. */
  function LeaseOne(db: Db, id: TaskId, worker: string, ttl: int, now: Time): Result<Db, Error> {
    if id !in db.tasks || !db.tasks[id].status.Available? then Ok(db)
    else
      var row := db.tasks[id];
      AppendNumbered(db.(tasks := db.tasks[id := LeasedRow(row, worker, now + ttl, now)]), row.runId, row.stepId, id,
                     TaskLeased(id, row.stepId, worker, row.attempt, now + ttl), now)
  }

  function LeaseTasks(db: Db, ids: seq<TaskId>, worker: string, ttl: int, now: Time): Result<Db, Error> {
    if |ids| == 0 then Ok(db)
    else
      var before :- LeaseTasks(db, ids[..|ids| - 1], worker, ttl, now);
      LeaseOne(before, ids[|ids| - 1], worker, ttl, now)
  }

  /** What the leasing query may select. How the two backends compare times differs by less than a second. */
  predicate Selectable(db: Db, queue: string, id: TaskId, now: Time) {
    && id in db.tasks
    && db.tasks[id].queue == queue && db.tasks[id].kind.Activity? && db.tasks[id].status.Available?
    && db.tasks[id].availableAt < now + SECOND
  }

  predicate Selected(db: Db, queue: string, ids: seq<TaskId>, limit: int, now: Time) {
    && NoDup(ids) && |ids| <= (if limit <= 0 then 1 else limit)
    && forall i :: 0 <= i < |ids| ==> Selectable(db, queue, ids[i], now)
  }

  /** Renews a lease, for the worker that holds it. */
  function HeartbeatTask(db: Db, id: TaskId, worker: string, extendBy: int, now: Time): Result<Db, Error> {
    if id !in db.tasks || db.tasks[id].runId !in db.runs then Err(TaskNotFound)
    else
      var row := db.tasks[id];
      if !row.status.Leased? || row.leaseOwner != worker then Err(TaskLeaseLost)
      else
        var row' := row.(heartbeatAt := Some(now), leaseExpiresAt := Some(now + extendBy), updatedAt := now);
        AppendNumbered(db.(tasks := db.tasks[id := row']), row.runId, row.stepId, id,
                       TaskHeartbeat(id, worker, now + extendBy), now)
  }

  /** What a heartbeat tells the worker about its run. */
  function CancelSignal(db: Db, id: TaskId): bool
    requires id in db.tasks && db.tasks[id].runId in db.runs
  {
    db.tasks[id].phase.Forward?
      && (db.runs[db.tasks[id].runId].status.Cancelling? || db.runs[db.tasks[id].runId].status.Cancelled?)
  }

  // ------------------------------------------------------------------ what one run sees

  function RowsOf(tasks: map<TaskId, TaskRecord>, runId: RunId): map<TaskId, TaskRecord> {
    map id | id in tasks && tasks[id].runId == runId :: tasks[id]
  }

  /** The rows of one run in the three tables. */
  datatype View = View(run: RunRecord, history: seq<Event>, tasks: map<TaskId, TaskRecord>)

  function ViewOf(db: Db, runId: RunId): View
    requires runId in db.runs
  {
    View(db.runs[runId], HistoryOf(db.history, runId), RowsOf(db.tasks, runId))
  }
}
