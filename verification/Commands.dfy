/** What each engine command computes from the state it loaded (internal/engine/service.go). */
module Commands {
  import opened Prelude
  import opened Workflow
  import opened History
  import opened Engine
  import opened Reducer
  import opened Invariant

  datatype Mutation = Insert(task: TaskRecord) | Update(task: TaskRecord)

  /** What a command read: the run row, its definition, the history with its replay, and the task rows in listing
      order. */
  datatype Loaded = Loaded(
    run: RunRecord,
    def: Definition,
    events: seq<Event>,
    state: RunState,
    listing: seq<TaskId>,
    tasks: map<TaskId, TaskRecord>)

  /** What a command is building: the state so far, the next sequence number, the new events and the row changes. */
  datatype Work = Work(state: RunState, next: nat, events: seq<Event>, mutations: seq<Mutation>)

  /** The clock reading of a command and the identifiers it will draw, one for each sequence number. */
  datatype Env = Env(runId: RunId, now: Time, uuid: nat -> TaskId) {
    function Id(k: nat): TaskId {
      uuid(k)
    }
  }

  datatype Outcome =
    | Rejected(error: Error)
    | Unchanged
    | Append(run: RunRecord, events: seq<Event>, mutations: seq<Mutation>)

  function Emit(env: Env, w: Work, stepId: StepId, taskId: Option<TaskId>, payload: Payload): Result<Work, Error> {
    var e := Event(env.runId, w.next, stepId, taskId, payload, env.now);
    var state :- Apply(w.state, e);
    Ok(Work(state, w.next + 1, w.events + [e], w.mutations))
  }

  function Mutate(w: Work, m: Mutation): Work {
    w.(mutations := w.mutations + [m])
  }

  // ------------------------------------------------------------------ new tasks

  function NewTask(env: Env, outputs: map<StepId, Json>, step: Step, phase: TaskPhase, id: TaskId): TaskRecord {
    var timer := step.kind.Timer?;
    TaskRecord(id, env.runId, step.id, step.kind, phase,
               if timer then "" else step.activity,
               if timer then TIMER_QUEUE else step.queue,
               Available, 1,
               if timer then 1 else MaxAttempts(step),
               if timer then env.now + step.delay else env.now,
               "", None, None,
               TaskInput(outputs, step.id, step.dependencies, phase.Compensation?),
               "", env.now, env.now)
  }

  function ScheduledPayload(t: TaskRecord): Payload {
    TaskScheduled(t.id, t.stepId, t.kind, t.queue, t.activity, t.attempt, t.maxAttempts, t.availableAt,
                  t.dependencies, t.phase.Compensation?)
  }

  /** Records the scheduling of a new task and the insertion of its row. */
  function Schedule(env: Env, w: Work, step: Step, phase: TaskPhase): Result<Work, Error> {
    var task := NewTask(env, w.state.core.outputs, step, phase, env.Id(w.next));
    var w' :- Emit(env, w, step.id, Some(task.id), ScheduledPayload(task));
    Ok(Mutate(w', Insert(task)))
  }

  predicate Ready(state: Core, x: StepId)
    requires x in state.steps
  {
    var step := state.steps[x];
    && step.forwardTaskId.None?
    && step.forwardStatus != Some(TaskStatus.Completed)
    && step.forwardStatus != Some(TaskStatus.Cancelled)
    && step.forwardStatus != Some(TaskStatus.Failed)
    && DependenciesCompleted(step.definition, state.outputs)
  }

  function ScheduleIfReady(env: Env, w: Work, x: StepId): Result<Work, Error> {
    if x !in w.state.core.steps then Err(UnknownStep(x))
    else if Ready(w.state.core, x) then Schedule(env, w, w.state.core.steps[x].definition, Forward)
    else Ok(w)
  }

  /** Schedules the ready steps, in declaration order. */
  function ScheduleForwardReady(env: Env, w: Work, order: seq<StepId>): Result<Work, Error> {
    if |order| == 0 then Ok(w)
    else
      var w' :- ScheduleForwardReady(env, w, order[..|order| - 1]);
      ScheduleIfReady(env, w', order[|order| - 1])
  }

  // ------------------------------------------------------------------ after a task has ended

  predicate HasOpen(s: Core, phase: TaskPhase) {
    exists id :: id in s.tasks && s.tasks[id].phase == phase && s.tasks[id].status.Open()
  }

  predicate AllForwardCompleted(order: seq<StepId>, s: Core) {
    forall i :: 0 <= i < |order| ==>
                  order[i] in s.steps && s.steps[order[i]].forwardStatus == Some(TaskStatus.Completed)
  }

  function FinishWithoutCompensation(env: Env, w: Work): Result<Work, Error> {
    if w.state.core.cancelRequested
    then Emit(env, w, "", None, RunCancelled(w.state.run.cancelReason))
    else Emit(env, w, "", None, RunFailed(w.state.run.failure))
  }

  function ScheduleCompensation(env: Env, w: Work, x: StepId): Result<Work, Error> {
    if x !in w.state.core.steps then Err(UnknownStep(x))
    else Schedule(env, w, CompensationStep(w.state.core.steps[x].definition), Compensation)
  }

  function AdvanceCompensation(env: Env, w: Work): Result<Work, Error> {
    if HasOpen(w.state.core, Compensation) then Ok(w)
    else
      match NextCompensation(w.state.core)
      case Some(x) => ScheduleCompensation(env, w, x)
      case None => FinishWithoutCompensation(env, w)
  }

  function BeginCompensationOrFinish(env: Env, w: Work): Result<Work, Error> {
    match NextCompensation(w.state.core)
    case Some(x) =>
      var reason := if w.state.core.cancelRequested then w.state.run.cancelReason else w.state.run.failure;
      var w' :- Emit(env, w, "", None, RunCompensating(reason));
      ScheduleCompensation(env, w', x)
    case None => FinishWithoutCompensation(env, w)
  }

  function PostProcess(env: Env, order: seq<StepId>, w: Work): Result<Work, Error> {
    if w.state.core.compensating then AdvanceCompensation(env, w)
    else
      var w' :- ScheduleForwardReady(env, w, order);
      if AllForwardCompleted(order, w'.state.core) && !HasOpen(w'.state.core, Forward)
      then Emit(env, w', "", None, RunCompleted(RunOutput(w'.state.core)))
      else Ok(w')
  }

  // ------------------------------------------------------------------ the commands

  /** A task row brought up to date with the replayed task. */
  function UpdateRow(row: TaskRecord, t: TaskState, now: Time): TaskRecord {
    row.(status := t.status, attempt := t.attempt, availableAt := t.availableAt,
         leaseOwner := if t.status.Leased? then t.leaseOwner else "",
         leaseExpiresAt := if t.status.Leased? then t.leaseExpiresAt else None,
         heartbeatAt := t.heartbeatAt, lastError := t.error, updatedAt := now)
  }

  /** The row found for a task that was not listed: every field is empty. */
  const NO_ROW := TaskRecord(0, 0, "", Unsupported(""), Forward, "", "", Available, 0, 0, 0, "", None, None, map[],
                             "", 0, 0)

  function Row(ld: Loaded, id: TaskId): TaskRecord {
    if id in ld.tasks then ld.tasks[id] else NO_ROW
  }

  function UpdateOf(env: Env, ld: Loaded, w: Work, id: TaskId): Result<Mutation, Error> {
    if id in w.state.core.tasks then Ok(Update(UpdateRow(Row(ld, id), w.state.core.tasks[id], env.now)))
        else Err(UnknownTask(id))
  }

  function NormalizeJson(output: Json): Json {
    if output == Raw("") then Null else output
  }

  function Begin(ld: Loaded): Work {
    Work(ld.state, ld.run.version + 1, [], [])
  }

  /** The lease check, made for activities only. */
  function LeaseCheck(ld: Loaded, worker: string, id: TaskId): Option<Error> {
    if id !in ld.state.core.tasks then Some(TaskNotFound)
    else
      var t := ld.state.core.tasks[id];
      if t.kind.Activity? && (!t.status.Leased? || t.leaseOwner != worker) then Some(TaskLeaseLost) else None
  }

  lemma CheckedTask(ld: Loaded, worker: string, id: TaskId)
    requires LeaseCheck(ld, worker, id).None?
    ensures id in ld.state.core.tasks
  {
  }

  /** Emits the event that ends (or moves) task `id` and updates its row. */
  function EmitAndUpdate(env: Env, ld: Loaded, w: Work, stepId: StepId, id: TaskId,
                         payload: Payload): Result<Work, Error> {
    var w' :- Emit(env, w, stepId, Some(id), payload);
    var m :- UpdateOf(env, ld, w', id);
    Ok(Mutate(w', m))
  }

  function CompleteWork(env: Env, ld: Loaded, worker: string, id: TaskId, output: Json): Result<Work, Error>
    requires id in ld.state.core.tasks
  {
    var t := ld.state.core.tasks[id];
    var w :- EmitAndUpdate(env, ld, Begin(ld), t.stepId, id,
                           TaskCompleted(id, t.stepId, worker, NormalizeJson(output), t.phase.Compensation?));
    PostProcess(env, ld.def.order, w)
  }

  /** The run row a command writes back: the reduced summary, the new version and the time. */
  function CloseRun(env: Env, ld: Loaded, w: Work): RunRecord {
    var run := w.state.run.(version := |ld.events| + |w.events|, updatedAt := env.now);
    if run.status.Terminal() && run.completedAt.None? then run.(completedAt := Some(env.now)) else run
  }

  function Close(env: Env, ld: Loaded, result: Result<Work, Error>): Outcome {
    match result
    case Err(error) => Rejected(error)
    case Ok(w) => Append(CloseRun(env, ld, w), w.events, w.mutations)
  }

  function CompleteTask(env: Env, ld: Loaded, worker: string, id: TaskId, output: Json): Outcome {
    var lost := LeaseCheck(ld, worker, id);
    if lost.Some? then Rejected(lost.value) else Close(env, ld, CompleteWork(env, ld, worker, id, output))
  }

  predicate Retries(ld: Loaded, id: TaskId, cancelRequested: bool, retryable: bool)
    requires id in ld.state.core.tasks
  {
    var t := ld.state.core.tasks[id];
    && !t.phase.Compensation? && retryable && !cancelRequested
    && t.stepId in ld.def.steps
    && t.attempt < MaxAttempts(ld.def.steps[t.stepId])
  }

  /** Whatever is left of its attempts, the failed task will not be tried again. */
  predicate ForGood(ld: Loaded, id: TaskId, retryable: bool)
    requires id in ld.state.core.tasks
  {
    var t := ld.state.core.tasks[id];
    || t.phase.Compensation? || !retryable || ld.state.core.cancelRequested
    || t.stepId !in ld.def.steps
    || t.attempt >= (if ld.def.steps[t.stepId].retry.maxAttempts >= 1 then ld.def.steps[t.stepId].retry.maxAttempts
           else 1)
  }

  lemma RetriesUnlessForGood(ld: Loaded, id: TaskId, retryable: bool)
    requires id in ld.state.core.tasks
    ensures Retries(ld, id, ld.state.core.cancelRequested, retryable) <==> !ForGood(ld, id, retryable)
  {
  }

  function CompensationFailure(stepId: StepId, error: string): string {
    "compensation for step " + stepId + " failed: " + error
  }

  /** The failed event and, before the row update, the retry or the start of the unwinding. */
  function FailEvent(env: Env, ld: Loaded, worker: string, id: TaskId, error: string): Result<Work, Error>
    requires id in ld.state.core.tasks
  {
    var t := ld.state.core.tasks[id];
    Emit(env, Begin(ld), t.stepId, Some(id), TaskFailed(id, t.stepId, worker, error, t.phase.Compensation?))
  }

  function RetryWork(env: Env, ld: Loaded, w: Work, id: TaskId, error: string): Result<Work, Error>
    requires id in ld.state.core.tasks && ld.state.core.tasks[id].stepId in ld.def.steps
  {
    var t := ld.state.core.tasks[id];
    var policy := ld.def.steps[t.stepId].retry.Normalize();
    var nextAt := env.now + BackoffForAttempt(policy, t.attempt);
    var w' :- Emit(env, w, t.stepId, Some(id), TaskRetryScheduled(id, t.stepId, t.attempt + 1, nextAt, error));
    if id !in w'.state.core.tasks then Err(UnknownTask(id))
    else
      var row := UpdateRow(Row(ld, id), w'.state.core.tasks[id], env.now).(
        attempt := t.attempt + 1, availableAt := nextAt, lastError := error);
      Ok(Mutate(w', Update(row)))
  }

  function FinalFailureWork(env: Env, ld: Loaded, w: Work, id: TaskId, error: string): Result<Work, Error>
    requires id in ld.state.core.tasks
  {
    var t := ld.state.core.tasks[id];
    var m :- UpdateOf(env, ld, w, id);
    var failure := if t.phase.Compensation? then CompensationFailure(t.stepId, error) else error;
    var w' := Mutate(w, m).(state := w.state.(run := w.state.run.(failure := failure)));
    BeginCompensationOrFinish(env, w')
  }

  /** A retried task leaves the summary alone, apart from version and time. */
  function CloseRetry(env: Env, ld: Loaded, result: Result<Work, Error>): Outcome {
    match result
    case Err(error) => Rejected(error)
    case Ok(w) =>
      Append(w.state.run.(version := |ld.events| + |w.events|, updatedAt := env.now), w.events, w.mutations)
  }

  function FailTask(env: Env, ld: Loaded, worker: string, id: TaskId, error: string, retryable: bool): Outcome {
    var lost := LeaseCheck(ld, worker, id);
    if lost.Some? then Rejected(lost.value)
    else
      match FailEvent(env, ld, worker, id, error)
      case Err(problem) => Rejected(problem)
      case Ok(w) =>
        if Retries(ld, id, w.state.core.cancelRequested, retryable)
        then CloseRetry(env, ld, RetryWork(env, ld, w, id, error))
        else Close(env, ld, FinalFailureWork(env, ld, w, id, error))
  }

  /** Revokes one listed task, if the replayed state knows it and it is open. */
  function CancelOne(env: Env, ld: Loaded, w: Work, id: TaskId, reason: string): Result<Work, Error> {
    if id !in w.state.core.tasks || !w.state.core.tasks[id].status.Open() then Ok(w)
    else
      EmitAndUpdate(env, ld, w, Row(ld, id).stepId, id,
                    TaskCancelled(id, Row(ld, id).stepId, reason, w.state.core.tasks[id].phase.Compensation?))
  }

  function CancelTasks(env: Env, ld: Loaded, w: Work, listing: seq<TaskId>, reason: string): Result<Work, Error> {
    if |listing| == 0 then Ok(w)
    else
      var w' :- CancelTasks(env, ld, w, listing[..|listing| - 1], reason);
      CancelOne(env, ld, w', listing[|listing| - 1], reason)
  }

  function CancelWork(env: Env, ld: Loaded, reason: string): Result<Work, Error> {
    var w :- Emit(env, Begin(ld), "", None, RunCancelRequested(reason));
    var w' :- CancelTasks(env, ld, w, ld.listing, reason);
    BeginCompensationOrFinish(env, w')
  }

  function CancelRun(env: Env, ld: Loaded, reason: string): Outcome {
    if ld.run.status.Terminal() then Unchanged else Close(env, ld, CancelWork(env, ld, reason))
  }

  function FireWork(env: Env, ld: Loaded, id: TaskId): Result<Work, Error>
    requires id in ld.state.core.tasks
  {
    var stepId := ld.state.core.tasks[id].stepId;
    var w :- EmitAndUpdate(env, ld, Begin(ld), stepId, id, TimerFired(id, stepId));
    PostProcess(env, ld.def.order, w)
  }

  predicate TimerDue(ld: Loaded, id: TaskId, now: Time) {
    && id in ld.state.core.tasks
    && ld.state.core.tasks[id].kind.Timer? && ld.state.core.tasks[id].status.Available?
    && ld.state.core.tasks[id].availableAt <= now
  }

  function FireTimer(env: Env, ld: Loaded, id: TaskId): Outcome {
    if !TimerDue(ld, id, env.now) then Unchanged else Close(env, ld, FireWork(env, ld, id))
  }

  // ------------------------------------------------------------------ starting a run

  function StartedEvent(env: Env, workflow: string, input: Json): Event {
    Event(env.runId, 1, "", None, WorkflowStarted(workflow, input), env.now)
  }

  function NewRun(env: Env, workflow: string, input: Json): RunRecord {
    RunRecord(env.runId, workflow, Running, input, None, "", "", env.now, env.now, None, 0)
  }

  function StartWork(env: Env, def: Definition, input: Json): Result<Work, Error> {
    var started := StartedEvent(env, def.name, NormalizeJson(input));
    var state :- Replay(def, NewRun(env, def.name, NormalizeJson(input)), [started]);
    ScheduleForwardReady(env, Work(state, 2, [started], []), def.order)
  }

  /** The run row, history and task rows of a new run. The row keeps the summary it was created with. */
  function StartRun(env: Env, def: Definition, input: Json): Outcome {
    match StartWork(env, def, input)
    case Err(error) => Rejected(error)
    case Ok(w) =>
      Append(NewRun(env, def.name, NormalizeJson(input)).(version := |w.events|), w.events, w.mutations)
  }
}
