/** The whole store: commands, leases and heartbeats on many runs, each one atomic. */
module System {
  import opened Prelude
  import opened Workflow
  import opened History
  import opened Engine
  import opened Reducer
  import opened Invariant
  import opened Chronicle
  import opened Commands
  import opened Tracking
  import opened Settled
  import opened CommandProofs
  import opened CancelProofs
  import opened Tables
  import opened Runs

  // ------------------------------------------------------------------ transactions seen from one run

  lemma {:induction false} InsertedEvents(history: map<RunId, seq<Event>>, runId: RunId, events: seq<Event>)
    requires Numbered(HistoryOf(history, runId)) && OfRun(events, runId)
    requires forall i :: 0 <= i < |events| ==> events[i].sequence == |HistoryOf(history, runId)| + i + 1
    ensures InsertEvents(history, events).Ok?
    ensures events != [] ==> InsertEvents(history, events).value == history[runId := HistoryOf(history, runId) + events]
    ensures events == [] ==> InsertEvents(history, events).value == history
  {
    var rows := HistoryOf(history, runId);
    if events != [] {
      var init, e := events[..|events| - 1], events[|events| - 1];
      InsertedEvents(history, runId, init);
      var before := InsertEvents(history, init).value;
      assert HistoryOf(before, runId) == rows + init;
      assert Numbered(rows + init);
      assert !HasSequence(rows + init, e.sequence);
      assert InsertOrdered(rows + init, e) == (rows + init) + [e];
      assert (rows + init) + [e] == rows + events;
    }
  }

  /** The rows of run `runId` are `rows`, and the rows of the other runs are those of `before`. */
  ghost predicate OnlyRun(before: map<TaskId, TaskRecord>, after: map<TaskId, TaskRecord>, runId: RunId,
                          rows: map<TaskId, TaskRecord>) {
    && (forall id :: id in rows
         ==> id in after && after[id] == rows[id] && rows[id].runId == runId && rows[id].id == id)
    && (forall id :: id in after && id !in rows
         ==> id in before && after[id] == before[id] && before[id].runId != runId)
    && (forall id :: id in before && before[id].runId != runId ==> id in after && after[id] == before[id])
  }

  lemma {:induction false} MutatedTables(tasks: map<TaskId, TaskRecord>, env: Env, mutations: seq<Mutation>)
    requires OnlyRun(tasks, tasks, env.runId, RowsOf(tasks, env.runId))
    requires forall k: nat :: env.Id(k) !in tasks
    requires AllProper(RowsOf(tasks, env.runId), env, mutations)
    ensures MutateTables(tasks, mutations).Ok?
    ensures OnlyRun(tasks, MutateTables(tasks, mutations).value, env.runId,
                    Mutated(RowsOf(tasks, env.runId), mutations))
  {
    if mutations != [] {
      var init, m := mutations[..|mutations| - 1], mutations[|mutations| - 1];
      MutatedTables(tasks, env, init);
      MutatedOnce(tasks, MutateTables(tasks, init).value, Mutated(RowsOf(tasks, env.runId), init), env,
                  m) by { hide OnlyRun, RowsOf; }
    }
  }

  lemma MutatedOnce(tasks: map<TaskId, TaskRecord>, after: map<TaskId, TaskRecord>, rows: map<TaskId, TaskRecord>,
                    env: Env, m: Mutation)
    requires OnlyRun(tasks, after, env.runId, rows) && Proper(rows, env, m)
    requires forall k: nat :: env.Id(k) !in tasks
    ensures MutateTable(after, m).Ok? && OnlyRun(tasks, MutateTable(after, m).value, env.runId, MutateRows(rows, m))
  {
    if m.Insert? {
      assert m.task.id !in tasks;
    }
  }

  lemma OnlyRunRows(before: map<TaskId, TaskRecord>, after: map<TaskId, TaskRecord>, runId: RunId,
                    rows: map<TaskId, TaskRecord>)
    requires OnlyRun(before, after, runId, rows)
    ensures RowsOf(after, runId) == rows
    ensures forall q :: q != runId ==> RowsOf(after, q) == RowsOf(before, q)
  {
    forall id ensures id in RowsOf(after, runId) <==> id in rows {
    }
    forall q | q != runId ensures RowsOf(after, q) == RowsOf(before, q) {
      forall id ensures id in RowsOf(after, q) <==> id in RowsOf(before, q) {
      }
    }
  }

  // ------------------------------------------------------------------ the invariant of the store

  ghost predicate RunOk(defs: Definitions, db: Db, runId: RunId)
    requires runId in db.runs
  {
    && db.runs[runId].id == runId
    && db.runs[runId].workflowName in defs
    && ViewOk(defs[db.runs[runId].workflowName], ViewOf(db, runId))
  }

  ghost predicate DbOk(defs: Definitions, db: Db) {
    && (forall r {:trigger RunOk(defs, db, r)} :: r in db.runs ==> RunOk(defs, db, r))
    && (forall id :: id in db.tasks ==> db.tasks[id].runId in db.runs && db.tasks[id].id == id)
    && (forall r :: r !in db.runs ==> r !in db.history)
  }

  /** Only run `runId` has changed. */
  ghost predicate Frames(db: Db, db': Db, runId: RunId) {
    && db'.runs.Keys == db.runs.Keys + {runId}
    && (forall r {:trigger db'.runs[r]} :: r in db.runs && r != runId ==> ViewOf(db', r) == ViewOf(db, r))
    && (forall id :: id in db'.tasks ==> db'.tasks[id].runId in db'.runs && db'.tasks[id].id == id)
    && (forall r :: r !in db'.runs ==> r !in db'.history)
  }

  lemma FramesKeepsDbOk(defs: Definitions, db: Db, db': Db, runId: RunId)
    requires DbOk(defs, db) && Frames(db, db', runId) && RunOk(defs, db', runId)
    ensures DbOk(defs, db')
  {
    hide ViewOk;
    forall r | r in db'.runs ensures RunOk(defs, db', r) {
      if r != runId {
        assert RunOk(defs, db, r);
        assert ViewOf(db', r) == ViewOf(db, r);
      }
    }
  }

  // ------------------------------------------------------------------ requests to the engine

  datatype Request =
    | CompleteRequest(worker: string, task: TaskId, output: Json)
    | FailRequest(worker: string, task: TaskId, error: string, retryable: bool)
    | FireRequest(task: TaskId)
    | CancelRequest(run: RunId, reason: string)

  function Execute(env: Env, ld: Loaded, req: Request): Outcome {
    match req
    case CompleteRequest(worker, task, output) => CompleteTask(env, ld, worker, task, output)
    case FailRequest(worker, task, error, retryable) => FailTask(env, ld, worker, task, error, retryable)
    case FireRequest(task) => FireTimer(env, ld, task)
    case CancelRequest(_, reason) => CancelRun(env, ld, reason)
  }

  /** The run a request is about; for a task that is what its row says. */
  function Locate(db: Db, req: Request): Result<RunId, Error> {
    if req.CancelRequest? then Ok(req.run)
    else if req.task in db.tasks then Ok(db.tasks[req.task].runId)
    else Err(TaskNotFound)
  }

  /** Workers complete and fail activities only. */
  predicate Admissible(db: Db, req: Request) {
    (req.CompleteRequest? || req.FailRequest?) && req.task in db.tasks ==> db.tasks[req.task].kind.Activity?
  }

  function Load(defs: Definitions, db: Db, runId: RunId, listing: seq<TaskId>): Result<Loaded, Error> {
    if runId !in db.runs then Err(RunNotFound)
    else LoadFrom(defs, db.runs[runId], HistoryOf(db.history, runId), listing, RowsOf(db.tasks, runId))
  }

  /** What the outcome of a command does to the store, if the version it read is still current. */
  function Write(db: Db, expectedVersion: nat, outcome: Outcome): Result<Db, Error> {
    match outcome
    case Rejected(error) => Err(error)
    case Unchanged => Ok(db)
    case Append(run, events, mutations) => AppendRunChanges(db, run, expectedVersion, events, mutations)
  }

  /** A command as one atomic step. */
  function Command(defs: Definitions, db: Db, req: Request, listing: seq<TaskId>, now: Time,
                   uuid: nat -> TaskId): Result<Db, Error> {
    var runId :- Locate(db, req);
    var ld :- Load(defs, db, runId, listing);
    Write(db, ld.run.version, Execute(Env(runId, now, uuid), ld, req))
  }

  /** Identifiers drawn now are distinct and belong to no task of any run. */
  ghost predicate NewIds(db: Db, uuid: nat -> TaskId) {
    var env := Env(0, 0, uuid);
    && (forall k: nat :: env.Id(k) !in db.tasks)
    && (forall j: nat, k: nat :: j < k ==> env.Id(j) != env.Id(k))
  }

  // ------------------------------------------------------------------ every command commits a legal continuation

  /** The work behind an outcome, and how much of its summary the run row takes over. */
  ghost predicate Commits(env: Env, ld: Loaded, outcome: Outcome, w: Work) {
    && outcome.Append? && Final(BaseOf(ld), env, w)
    && outcome.events == w.events && outcome.mutations == w.mutations
    && SummaryMatches(outcome.run, w.state.run) && outcome.run.version == |ld.events| + |w.events|
    && outcome.run.id == w.state.run.id && outcome.run.failure == w.state.run.failure
    && (w.state.run.completedAt.Some? || !w.state.run.status.Terminal() ==>
          outcome.run.completedAt == w.state.run.completedAt)
    && outcome.run.input == w.state.run.input && outcome.run.updatedAt == env.now
    && HasWork(outcome.events)
  }

  lemma CloseCommits(env: Env, ld: Loaded, w: Work)
    requires Final(BaseOf(ld), env, w) && HasWork(w.events)
    ensures Commits(env, ld, Close(env, ld, Ok(w)), w)
    ensures Commits(env, ld, CloseRetry(env, ld, Ok(w)), w)
  {
    hide Final;
  }

  lemma CompleteCommits(env: Env, ld: Loaded, worker: string, id: TaskId, output: Json) returns (w: Work)
    requires LoadedOk(env, ld) && CompleteTask(env, ld, worker, id, output).Append?
    requires id in ld.state.core.tasks ==> ld.state.core.tasks[id].kind.Activity?
    ensures Commits(env, ld, CompleteTask(env, ld, worker, id, output), w)
  {
    hide LoadedOk, Final, Commits, CompleteWork;
    CompleteWorkFinal(env, ld, worker, id, output);
    w := CompleteWork(env, ld, worker, id, output).value;
    CompleteEmits(env, ld, worker, id, output);
    CloseCommits(env, ld, w) by { hide Close, CloseRetry, HasWork; }
  }

  lemma CompleteEmits(env: Env, ld: Loaded, worker: string, id: TaskId, output: Json)
    requires id in ld.state.core.tasks && CompleteWork(env, ld, worker, id, output).Ok?
    ensures HasWork(CompleteWork(env, ld, worker, id, output).value.events)
  {
    hide ApplyCore, ApplyRun, PostProcess;
    var t := ld.state.core.tasks[id];
    var w := EmitAndUpdate(env, ld, Begin(ld), t.stepId, id,
                           TaskCompleted(id, t.stepId, worker, NormalizeJson(output), t.phase.Compensation?)).value;
    assert IsWork(w.events[0].payload);
    PostProcessExtends(env, ld.def.order, w);
    WorkStays(w.events, CompleteWork(env, ld, worker, id, output).value.events);
  }

  /** Later stages of a command only add events. */
  lemma PostProcessExtends(env: Env, order: seq<StepId>, w: Work)
    requires PostProcess(env, order, w).Ok?
    ensures w.events <= PostProcess(env, order, w).value.events
  {
    hide ApplyCore, ApplyRun, NextCompensation, HasOpen, AllForwardCompleted, RunOutput;
    if !w.state.core.compensating {
      ReadyExtends(env, w, order);
    } else {
      hide NewTask;
    }
  }

  lemma {:induction false} ReadyExtends(env: Env, w: Work, list: seq<StepId>)
    requires ScheduleForwardReady(env, w, list).Ok?
    ensures w.events <= ScheduleForwardReady(env, w, list).value.events
  {
    hide ApplyCore, ApplyRun, Ready, NewTask;
    if list != [] {
      ReadyExtends(env, w, list[..|list| - 1]);
    }
  }

  lemma BeginExtends(env: Env, w: Work)
    requires BeginCompensationOrFinish(env, w).Ok?
    ensures w.events <= BeginCompensationOrFinish(env, w).value.events
  {
    hide ApplyCore, ApplyRun, NextCompensation, NewTask;
  }

  lemma FireCommits(env: Env, ld: Loaded, id: TaskId) returns (w: Work)
    requires LoadedOk(env, ld) && FireTimer(env, ld, id).Append?
    ensures Commits(env, ld, FireTimer(env, ld, id), w)
  {
    hide LoadedOk, Final, Commits, FireWork;
    FireWorkFinal(env, ld, id) by { hide TimerDue; }
    w := FireWork(env, ld, id).value;
    FireEmits(env, ld, id);
    CloseCommits(env, ld, w) by { hide Close, CloseRetry, HasWork; }
  }

  lemma FireEmits(env: Env, ld: Loaded, id: TaskId)
    requires id in ld.state.core.tasks && FireWork(env, ld, id).Ok?
    ensures HasWork(FireWork(env, ld, id).value.events)
  {
    hide ApplyCore, ApplyRun, PostProcess;
    var stepId := ld.state.core.tasks[id].stepId;
    var w := EmitAndUpdate(env, ld, Begin(ld), stepId, id, TimerFired(id, stepId)).value;
    assert IsWork(w.events[0].payload);
    PostProcessExtends(env, ld.def.order, w);
    WorkStays(w.events, FireWork(env, ld, id).value.events);
  }

  lemma FailCommits(env: Env, ld: Loaded, worker: string, id: TaskId, error: string, retryable: bool) returns (w: Work)
    requires LoadedOk(env, ld) && FailTask(env, ld, worker, id, error, retryable).Append?
    requires id in ld.state.core.tasks ==> ld.state.core.tasks[id].kind.Activity?
    ensures Commits(env, ld, FailTask(env, ld, worker, id, error, retryable), w)
  {
    hide LoadedOk, Final, Commits, FailEvent, RetryWork, FinalFailureWork;
    FinalFailureFinal(env, ld, worker, id, error) by { hide Retries; }
    var w1 := FailEvent(env, ld, worker, id, error).value;
    if Retries(ld, id, w1.state.core.cancelRequested, retryable) {
      RetryFinal(env, ld, worker, id, error);
      w := RetryWork(env, ld, w1, id, error).value;
      RetryEmits(env, ld, worker, id, error) by { hide LeaseCheck; }
    } else {
      w := FinalFailureWork(env, ld, w1, id, error).value;
      FinalFailureEmits(env, ld, worker, id, error) by { hide LeaseCheck, Retries; }
    }
    CloseCommits(env, ld, w) by { hide Close, CloseRetry, LeaseCheck, Retries; }
  }

  lemma RetryEmits(env: Env, ld: Loaded, worker: string, id: TaskId, error: string)
    requires id in ld.state.core.tasks && ld.state.core.tasks[id].stepId in ld.def.steps
    requires FailEvent(env, ld, worker, id, error).Ok?
    requires RetryWork(env, ld, FailEvent(env, ld, worker, id, error).value, id, error).Ok?
    ensures HasWork(RetryWork(env, ld, FailEvent(env, ld, worker, id, error).value, id, error).value.events)
  {
    hide ApplyCore, ApplyRun, BackoffForAttempt;
    var w := FailEvent(env, ld, worker, id, error).value;
    assert IsWork(w.events[0].payload);
    WorkStays(w.events, RetryWork(env, ld, w, id, error).value.events);
  }

  lemma FinalFailureEmits(env: Env, ld: Loaded, worker: string, id: TaskId, error: string)
    requires id in ld.state.core.tasks && FailEvent(env, ld, worker, id, error).Ok?
    requires FinalFailureWork(env, ld, FailEvent(env, ld, worker, id, error).value, id, error).Ok?
    ensures HasWork(FinalFailureWork(env, ld, FailEvent(env, ld, worker, id, error).value, id, error).value.events)
  {
    hide BeginCompensationOrFinish, ApplyCore, ApplyRun;
    var w := FailEvent(env, ld, worker, id, error).value;
    assert IsWork(w.events[0].payload);
    var t := ld.state.core.tasks[id];
    var m := UpdateOf(env, ld, w, id).value;
    var failure := if t.phase.Compensation? then CompensationFailure(t.stepId, error) else error;
    BeginExtends(env, Mutate(w, m).(state := w.state.(run := w.state.run.(failure := failure))));
    WorkStays(w.events, FinalFailureWork(env, ld, w, id, error).value.events);
  }

  lemma CancelCommits(env: Env, ld: Loaded, reason: string) returns (w: Work)
    requires LoadedOk(env, ld) && CancelRun(env, ld, reason).Append?
    ensures Commits(env, ld, CancelRun(env, ld, reason), w)
  {
    hide LoadedOk, Final, Commits, CancelWork;
    CancelWorkFinal(env, ld, reason);
    w := CancelWork(env, ld, reason).value;
    CancelEmits(env, ld, reason);
    CloseCommits(env, ld, w) by { hide Close, CloseRetry, HasWork; }
  }

  /** A run that can still be cancelled has an open task, which is revoked. */
  lemma CancelEmits(env: Env, ld: Loaded, reason: string)
    requires LoadedOk(env, ld) && !ld.run.status.Terminal() && CancelWork(env, ld, reason).Ok?
    ensures HasWork(CancelWork(env, ld, reason).value.events)
  {
    var id := OpenListed(env, ld);
    hide LoadedOk, ApplyCore, CancelTasks, BeginCompensationOrFinish;
    var w := Emit(env, Begin(ld), "", None, RunCancelRequested(reason)).value;
    var w' := CancelTasks(env, ld, w, ld.listing, reason).value;
    assert w.state.core.tasks == ld.state.core.tasks by { CancelRequestKeepsTasks(env, ld, reason); }
    CancelTasksWork(env, ld, w, ld.listing, reason);
    BeginExtends(env, w');
    WorkStays(w'.events, CancelWork(env, ld, reason).value.events);
  }

  lemma CancelRequestKeepsTasks(env: Env, ld: Loaded, reason: string)
    requires Emit(env, Begin(ld), "", None, RunCancelRequested(reason)).Ok?
    ensures Emit(env, Begin(ld), "", None, RunCancelRequested(reason)).value.state.core.tasks == ld.state.core.tasks
  {
  }

  lemma OpenListed(env: Env, ld: Loaded) returns (id: TaskId)
    requires LoadedOk(env, ld) && !ld.run.status.Terminal()
    ensures id in ld.listing && Open(ld.state.core, id)
  {
    hide Inv, Committed, Fresh, ValidDefinition;
    NoDeadlock(ld.def, ld.state.run.status, ld.state.core);
    id :| Open(ld.state.core, id);
  }

  lemma {:induction false} CancelTasksWork(env: Env, ld: Loaded, w: Work, list: seq<TaskId>, reason: string)
    requires CancelTasks(env, ld, w, list, reason).Ok?
    ensures var w' := CancelTasks(env, ld, w, list, reason).value;
            w.events <= w'.events
              && (HasWork(w'.events) || (w' == w && forall i :: 0 <= i < |list| ==> !Open(w.state.core, list[i])))
  {
    hide CancelOne, Open;
    if list != [] {
      var init, id := list[..|list| - 1], list[|list| - 1];
      CancelTasksWork(env, ld, w, init, reason);
      var w1 := CancelTasks(env, ld, w, init, reason).value;
      CancelOneWork(env, ld, w1, id, reason);
      if HasWork(w1.events) {
        WorkStays(w1.events, CancelOne(env, ld, w1, id, reason).value.events);
      }
    }
  }

  lemma CancelOneWork(env: Env, ld: Loaded, w: Work, id: TaskId, reason: string)
    requires CancelOne(env, ld, w, id, reason).Ok?
    ensures var w' := CancelOne(env, ld, w, id, reason).value;
            w.events <= w'.events && (HasWork(w'.events) || (w' == w && !Open(w.state.core, id)))
  {
    hide ApplyCore, ApplyRun;
    if Open(w.state.core, id) {
      var w' := CancelOne(env, ld, w, id, reason).value;
      assert IsWork(w'.events[|w.events|].payload);
    }
  }

  /** Whatever a request appends continues the history legally and leaves a committed state. */
  lemma ExecuteCommits(env: Env, ld: Loaded, req: Request) returns (w: Work)
    requires LoadedOk(env, ld) && Execute(env, ld, req).Append?
    requires (req.CompleteRequest? || req.FailRequest?) && req.task in ld.state.core.tasks ==>
               ld.state.core.tasks[req.task].kind.Activity?
    ensures Commits(env, ld, Execute(env, ld, req), w)
  {
    hide LoadedOk, Commits, CompleteTask, FailTask, FireTimer, CancelRun;
    match req
    case CompleteRequest(worker, task, output) => w := CompleteCommits(env, ld, worker, task, output);
    case FailRequest(worker, task, error, retryable) => w := FailCommits(env, ld, worker, task, error, retryable);
    case FireRequest(task) => w := FireCommits(env, ld, task);
    case CancelRequest(_, reason) => w := CancelCommits(env, ld, reason);
  }

  // ------------------------------------------------------------------ commands keep the store's invariant

  /** Run `runId` alone has moved on: more history, no task forgotten, a higher version. */
  ghost predicate Advances(defs: Definitions, db: Db, db': Db, runId: RunId) {
    && runId in db.runs && runId in db'.runs
    && Frames(db, db', runId) && RunOk(defs, db', runId)
    && db.runs[runId].version < db'.runs[runId].version
    && HistoryOf(db.history, runId) <= HistoryOf(db'.history, runId)
    && RowsOf(db.tasks, runId).Keys <= RowsOf(db'.tasks, runId).Keys
    && db'.runs[runId].workflowName == db.runs[runId].workflowName
  }

  ghost predicate Enabled(db: Db, req: Request, listing: seq<TaskId>, uuid: nat -> TaskId) {
    && Admissible(db, req) && NewIds(db, uuid)
    && (Locate(db, req).Ok? ==> Lists(listing, RowsOf(db.tasks, Locate(db, req).value)))
  }

  lemma LoadedFromDb(defs: Definitions, db: Db, runId: RunId, listing: seq<TaskId>, env: Env)
    requires Registered(defs) && DbOk(defs, db) && runId in db.runs && Lists(listing, RowsOf(db.tasks, runId))
    requires NewIds(db, env.uuid) && env.runId == runId
    ensures Load(defs, db, runId, listing).Ok?
    ensures LoadedOk(env, Load(defs, db, runId, listing).value)
  {
    assert RunOk(defs, db, runId);
    var v := ViewOf(db, runId);
    var def := defs[v.run.workflowName];
    var s := Replay(def, v.run, v.history).value.core;
    assert Fresh(env, s.tasks, 0) by {
      hide Inv, Committed, LegalFrom, Replay, ValidDefinition;
      var env0 := Env(0, 0, env.uuid);
      assert forall k: nat :: env.Id(k) == env0.Id(k);
      assert s.tasks.Keys == v.tasks.Keys;
      assert forall id :: id in v.tasks ==> id in db.tasks;
    }
    hide Inv, Committed, LegalFrom, Replay, ValidDefinition, Fresh, RowsAgree, NewIds, RowsOf;
    LoadIsOk(defs, env, v, listing) by { hide ViewOk, LoadedOk, LoadFrom; }
  }

  /** The rows the write touches are those of the run. */
  lemma WrittenRows(db: Db, env: Env, ld: Loaded, w: Work)
    requires forall id :: id in db.tasks ==> db.tasks[id].runId in db.runs && db.tasks[id].id == id
    requires NewIds(db, env.uuid) && ld.tasks == RowsOf(db.tasks, env.runId) && env.runId in db.runs
    requires Final(BaseOf(ld), env, w)
    ensures MutateTables(db.tasks, w.mutations).Ok?
    ensures var tasks := MutateTables(db.tasks, w.mutations).value;
            && RowsOf(tasks, env.runId) == Mutated(ld.tasks, w.mutations)
            && (forall q :: q != env.runId ==> RowsOf(tasks, q) == RowsOf(db.tasks, q))
            && (forall id :: id in tasks ==> tasks[id].runId in db.runs && tasks[id].id == id)
  {
    assert forall k: nat :: env.Id(k) !in db.tasks by {
      hide Final;
      var env0 := Env(0, 0, env.uuid);
      assert forall k: nat :: env.Id(k) == env0.Id(k);
    }
    assert AllProper(ld.tasks, env, w.mutations) by { hide Chained, RowsAgree, AllProper, Committed, NewIds, RowsOf; }
    hide Final, NewIds, AllProper, MutateTables, Mutated;
    assert OnlyRun(db.tasks, db.tasks, env.runId, ld.tasks);
    hide RowsOf;
    MutatedTables(db.tasks, env, w.mutations) by { hide OnlyRun; }
    var tasks := MutateTables(db.tasks, w.mutations).value;
    OnlyRunRows(db.tasks, tasks, env.runId, Mutated(ld.tasks, w.mutations)) by { hide OnlyRun; }
  }

  lemma WrittenEvents(db: Db, env: Env, ld: Loaded, w: Work)
    requires Numbered(HistoryOf(db.history, env.runId)) && ld.run.version == |HistoryOf(db.history, env.runId)|
    requires Final(BaseOf(ld), env, w) && w.events != []
    ensures InsertEvents(db.history, w.events)
              == Ok(db.history[env.runId := HistoryOf(db.history, env.runId) + w.events])
  {
    hide Inv, Committed, LegalFrom, Fold, Tracked, Fresh, InsertEvents;
    InsertedEvents(db.history, env.runId, w.events);
  }

  lemma WrittenFrames(db: Db, db': Db, runId: RunId, run: RunRecord, events: seq<Event>, mutations: seq<Mutation>,
                      tasks: map<TaskId, TaskRecord>)
    requires runId in db.runs && (forall r :: r !in db.runs ==> r !in db.history)
    requires db' == Db(db.runs[runId := RunColumns(db.runs[runId], run)],
                       db.history[runId := HistoryOf(db.history, runId) + events], tasks)
    requires RowsOf(tasks, runId) == Mutated(RowsOf(db.tasks, runId), mutations)
    requires forall q :: q != runId ==> RowsOf(tasks, q) == RowsOf(db.tasks, q)
    requires forall id :: id in tasks ==> tasks[id].runId in db.runs && tasks[id].id == id
    ensures Frames(db, db', runId) && ViewOf(db', runId) == Committing(ViewOf(db, runId), run, events, mutations)
  {
    hide RowsOf, Mutated, RunColumns;
    forall q | q in db.runs && q != runId ensures ViewOf(db', q) == ViewOf(db, q) {
      assert HistoryOf(db'.history, q) == HistoryOf(db.history, q);
    }
    forall q | q !in db'.runs ensures q !in db'.history {
      assert q !in db.history;
    }
  }

  lemma {:induction false} MutatedKeepsRows(rows: map<TaskId, TaskRecord>, mutations: seq<Mutation>)
    ensures rows.Keys <= Mutated(rows, mutations).Keys
  {
    if mutations != [] { MutatedKeepsRows(rows, mutations[..|mutations| - 1]); }
  }

  /** What a command appends is written, and its run moves on to a state that satisfies the invariant. */
  lemma WriteAdvances(defs: Definitions, db: Db, env: Env, ld: Loaded, outcome: Outcome, w: Work)
    requires Registered(defs) && DbOk(defs, db) && env.runId in db.runs && NewIds(db, env.uuid)
    requires Load(defs, db, env.runId, ld.listing) == Ok(ld)
    requires Commits(env, ld, outcome, w)
    ensures Write(db, ld.run.version, outcome).Ok?
    ensures var db' := Write(db, ld.run.version, outcome).value;
            && Advances(defs, db, db', env.runId)
            && ViewOf(db', env.runId) == Committing(ViewOf(db, env.runId), outcome.run, w.events, w.mutations)
  {
    var r, v := env.runId, ViewOf(db, env.runId);
    assert RunOk(defs, db, r) by { hide RunOk; }
    LoadedView(defs, db, r, ld) by { hide DbOk, RunOk; }
    hide DbOk, RunOk, ViewOk, Final, Replay, Registered, NewIds, RowsOf, Mutated, InsertEvents, MutateTables, Load,
         Frames;
    WorkKeepsId(env, ld, w);
    CommitKeepsView(env, ld, v, w, outcome.run) by { hide Committing; }
    WrittenEvents(db, env, ld, w);
    DbTasks(defs, db);
    WrittenRows(db, env, ld, w);
    var db' := Write(db, ld.run.version, outcome).value;
    WrittenFrames(db, db', r, outcome.run, w.events, w.mutations, MutateTables(db.tasks, w.mutations).value);
    WrittenRunOk(defs, db, db', r) by { hide Commits, Write; }
    MutatedKeepsRows(v.tasks, w.mutations);
  }

  lemma WrittenRunOk(defs: Definitions, db: Db, db': Db, runId: RunId)
    requires runId in db.runs && runId in db'.runs && RunOk(defs, db, runId)
    requires db'.runs[runId].id == db.runs[runId].id && db'.runs[runId].workflowName == db.runs[runId].workflowName
    requires ViewOk(defs[db.runs[runId].workflowName], ViewOf(db', runId))
    ensures RunOk(defs, db', runId)
  {
    hide ViewOk;
  }

  lemma DbTasks(defs: Definitions, db: Db)
    requires DbOk(defs, db)
    ensures forall id :: id in db.tasks ==> db.tasks[id].runId in db.runs && db.tasks[id].id == id
    ensures forall r :: r !in db.runs ==> r !in db.history
  {
    hide RunOk;
    forall r | r !in db.runs ensures r !in db.history {
      assert r !in db.history;
    }
  }

  /** What a command loads from the store is one view of the run. */
  lemma LoadedView(defs: Definitions, db: Db, runId: RunId, ld: Loaded)
    requires runId in db.runs && RunOk(defs, db, runId) && Load(defs, db, runId, ld.listing) == Ok(ld)
    ensures var v := ViewOf(db, runId);
            && ld.run == v.run && ld.events == v.history && ld.tasks == v.tasks
            && ld.def == defs[v.run.workflowName]
            && Replay(ld.def, v.run, v.history) == Ok(ld.state)
            && ViewOk(ld.def, v) && v.run.id == runId
            && Numbered(v.history) && ld.run.version == |v.history|
            && ld.state.run.id == ld.run.id
  {
    FoldKeepsId(Initial(ld.def, ld.run), ld.events) by { hide RunOk, RowsOf; }
    hide Inv, Committed, LegalFrom, Fold, RowsAgree, RowsOf;
  }

  lemma {:induction false} FoldKeepsId(s: RunState, events: seq<Event>)
    requires Fold(s, events).Ok?
    ensures Fold(s, events).value.run.id == s.run.id
  {
    hide ApplyCore;
    if events != [] {
      FoldKeepsId(s, events[..|events| - 1]);
    }
  }

  lemma WorkKeepsId(env: Env, ld: Loaded, w: Work)
    requires Final(BaseOf(ld), env, w) && ld.state.run.id == ld.run.id
    ensures w.state.run.id == ld.run.id
  {
    hide Inv, Committed, LegalFrom, Fold, Tracked, Fresh;
    FoldKeepsId(ld.state, w.events);
  }
}
