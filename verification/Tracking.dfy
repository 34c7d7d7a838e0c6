/** A command's events are legal one after another, and its row changes keep the task table equal to replay. */
module Tracking {
  import opened Prelude
  import opened Workflow
  import opened History
  import opened Engine
  import opened Reducer
  import opened Invariant
  import opened Chronicle
  import opened Commands

  // ------------------------------------------------------------------ events

  /** `w` was reached from `s` by legal events numbered from `base + 1`; only the failure text may have been edited. */
  ghost predicate Chained(def: Definition, s: RunState, base: nat, env: Env, w: Work) {
    && w.next > 1 && Inv(def, w.state.core)
    && LegalFrom(s.core, w.events)
    && Fold(s, w.events).Ok?
    && w.state == RunState(Fold(s, w.events).value.run.(failure := w.state.run.failure), Fold(s, w.events).value.core)
    && w.next == base + |w.events| + 1
    && (forall i :: 0 <= i < |w.events| ==>
          w.events[i].sequence == base + i + 1 && w.events[i].runId == env.runId && w.events[i].createdAt == env.now)
  }

  function EventOf(env: Env, w: Work, stepId: StepId, taskId: Option<TaskId>, payload: Payload): Event {
    Event(env.runId, w.next, stepId, taskId, payload, env.now)
  }

  lemma BeginChains(ld: Loaded, env: Env)
    requires Inv(ld.def, ld.state.core) && ld.run.version >= 1
    ensures Chained(ld.def, ld.state, ld.run.version, env, Begin(ld))
  {
    hide Inv;
  }

  lemma EmitChains(def: Definition, s: RunState, base: nat, env: Env, w: Work, stepId: StepId, taskId: Option<TaskId>,
                   payload: Payload)
    requires Chained(def, s, base, env, w)
    requires Legal(w.state.core, EventOf(env, w, stepId, taskId, payload))
    ensures var e := EventOf(env, w, stepId, taskId, payload);
            && ApplyCore(w.state.core, e).Ok?
            && Emit(env, w, stepId, taskId, payload).Ok?
            && var w' := Emit(env, w, stepId, taskId, payload).value;
            && Chained(def, s, base, env, w')
            && w' == Work(RunState(ApplyRun(w.state.run, w.state.core.cancelRequested, e),
                                   ApplyCore(w.state.core, e).value),
                          w.next + 1, w.events + [e], w.mutations)
  {
    hide Inv, Legal, ApplyCore;
    var e := EventOf(env, w, stepId, taskId, payload);
    LegalKeepsInv(def, w.state.core, e);
    FoldIsCoreFold(s, w.events);
    LegalFromSnoc(s.core, w.events, e);
    FoldSnoc(s, w.events, e);
  }

  // ------------------------------------------------------------------ rows

  /** An UPDATE sets these columns of an existing row and no others. */
  function Columns(row: TaskRecord, task: TaskRecord): TaskRecord {
    row.(status := task.status, attempt := task.attempt, maxAttempts := task.maxAttempts,
         availableAt := task.availableAt,
         leaseOwner := task.leaseOwner, leaseExpiresAt := task.leaseExpiresAt, heartbeatAt := task.heartbeatAt,
         dependencies := task.dependencies, lastError := task.lastError, updatedAt := task.updatedAt)
  }

  function MutateRows(rows: map<TaskId, TaskRecord>, m: Mutation): map<TaskId, TaskRecord> {
    match m
    case Insert(task) => rows[task.id := task]
    case Update(task) => if task.id in rows then rows[task.id := Columns(rows[task.id], task)] else rows
  }

  function Mutated(rows: map<TaskId, TaskRecord>, mutations: seq<Mutation>): map<TaskId, TaskRecord> {
    if |mutations| == 0 then rows
    else MutateRows(Mutated(rows, mutations[..|mutations| - 1]), mutations[|mutations| - 1])
  }

  lemma MutatedSnoc(rows: map<TaskId, TaskRecord>, mutations: seq<Mutation>, m: Mutation)
    ensures Mutated(rows, mutations + [m]) == MutateRows(Mutated(rows, mutations), m)
  {
    assert (mutations + [m])[..|mutations|] == mutations;
  }

  /** A row says of a task what replay says of it, heartbeats of leased tasks apart. */
  predicate RowAgrees(t: TaskState, row: TaskRecord) {
    && row.id == t.id && row.stepId == t.stepId && row.kind == t.kind && row.phase == t.phase
    && row.status == t.status && row.attempt == t.attempt && row.availableAt == t.availableAt
         && row.lastError == t.error
    && (t.status.Leased? ==> row.leaseOwner == t.leaseOwner && row.leaseExpiresAt == t.leaseExpiresAt)
    && (!t.status.Leased? ==> row.leaseOwner == "" && row.leaseExpiresAt == None && row.heartbeatAt == t.heartbeatAt)
  }

  predicate RowAt(tasks: map<TaskId, TaskState>, rows: map<TaskId, TaskRecord>, runId: RunId, id: TaskId) {
    id in tasks && id in rows && RowAgrees(tasks[id], rows[id]) && rows[id].runId == runId && rows[id].id == id
  }

  ghost predicate RowsAgree(tasks: map<TaskId, TaskState>, rows: map<TaskId, TaskRecord>, runId: RunId) {
    && tasks.Keys == rows.Keys
    && (forall id {:trigger RowAt(tasks, rows, runId, id)} :: id in tasks ==> RowAt(tasks, rows, runId, id))
  }

  lemma OneRowChanges(tasks: map<TaskId, TaskState>, rows: map<TaskId, TaskRecord>, runId: RunId, id: TaskId,
                      t: TaskState, row: TaskRecord)
    requires RowsAgree(tasks, rows, runId)
    requires RowAgrees(t, row) && row.runId == runId && row.id == id
    ensures RowsAgree(tasks[id := t], rows[id := row], runId)
  {
    hide RowAgrees;
    var tasks', rows' := tasks[id := t], rows[id := row];
    forall k | k in tasks' ensures RowAt(tasks', rows', runId, k) {
      if k != id { assert RowAt(tasks, rows, runId, k); }
    }
  }

  /** `m` may follow on `table`: it inserts a row of this run under a newly drawn identifier, or updates a row that
      exists. */
  ghost predicate Proper(table: map<TaskId, TaskRecord>, env: Env, m: Mutation) {
    match m
    case Insert(task) => task.id !in table && task.runId == env.runId && exists k: nat :: task.id == env.Id(k)
    case Update(task) => task.id in table
  }

  ghost predicate AllProper(rows: map<TaskId, TaskRecord>, env: Env, mutations: seq<Mutation>) {
    |mutations| == 0 ||
    (var init := mutations[..|mutations| - 1];
     AllProper(rows, env, init) && Proper(Mutated(rows, init), env, mutations[|mutations| - 1]))
  }

  lemma AllProperSnoc(rows: map<TaskId, TaskRecord>, env: Env, mutations: seq<Mutation>, m: Mutation)
    requires AllProper(rows, env, mutations) && Proper(Mutated(rows, mutations), env, m)
    ensures AllProper(rows, env, mutations + [m])
  {
    hide Proper, Mutated;
    assert (mutations + [m])[..|mutations|] == mutations;
  }

  ghost predicate Tracked(rows: map<TaskId, TaskRecord>, env: Env, w: Work) {
    && RowsAgree(w.state.core.tasks, Mutated(rows, w.mutations), env.runId)
    && AllProper(rows, env, w.mutations)
  }

  /** A further row change that matches a further task change. */
  lemma TrackedSnoc(rows: map<TaskId, TaskRecord>, env: Env, w: Work, w': Work, m: Mutation)
    requires Tracked(rows, env, w) && w'.mutations == w.mutations + [m]
    requires Proper(Mutated(rows, w.mutations), env, m)
    requires RowsAgree(w'.state.core.tasks, MutateRows(Mutated(rows, w.mutations), m), env.runId)
    ensures Tracked(rows, env, w')
  {
    hide Proper, RowsAgree, MutateRows;
    MutatedSnoc(rows, w.mutations, m);
    AllProperSnoc(rows, env, w.mutations, m);
  }

  /** The identifiers the command has yet to draw belong to no task. */
  ghost predicate Fresh(env: Env, tasks: map<TaskId, TaskState>, from: nat) {
    && (forall k: nat :: k >= from ==> env.Id(k) !in tasks)
    && (forall j: nat, k: nat :: j < k ==> env.Id(j) != env.Id(k))
  }

  // ------------------------------------------------------------------ an open task ends or moves

  /** What an event about task `id` leaves alone. */
  predicate Moves(s: Core, s': Core, id: TaskId) {
    && id in s.tasks && id in s'.tasks && s.tasks[id].stepId in s.steps && s.tasks[id].stepId in s'.steps
    && var t, t', x := s.tasks[id], s'.tasks[id], s.tasks[id].stepId;
    && s'.tasks == s.tasks[id := t'] && s'.steps == s.steps[x := s'.steps[x]]
    && t'.id == t.id && t'.stepId == x && t'.kind == t.kind && t'.phase == t.phase
    && s'.cancelRequested == s.cancelRequested && s'.compensating == s.compensating
    && var step, step' := s.steps[x], s'.steps[x];
    && step'.definition == step.definition && step'.forwardTaskId == step.forwardTaskId
    && step'.compensationScheduled == step.compensationScheduled
    && step'.compensationTaskId == step.compensationTaskId
    && step'.forwardStatus == (if t.phase.Forward? then Some(t'.status) else step.forwardStatus)
    && (step'.compensationCompleted <==> step.compensationCompleted || (t.phase.Compensation? && t'.status.Completed?))
    && (t.phase.Forward? && t'.status.Completed? && !t.status.Completed? ==>
          s'.completedOrder == s.completedOrder + [x] && s'.outputs.Keys == s.outputs.Keys + {x})
    && (t.phase.Compensation? || !t'.status.Completed? ==>
          s'.completedOrder == s.completedOrder && s'.outputs == s.outputs)
  }

  lemma TaskEventMoves(def: Definition, s: Core, e: Event)
    requires Inv(def, s) && Legal(s, e)
    requires e.payload.TaskLeased? || e.payload.TaskFailed? || e.payload.TaskRetryScheduled? || e.payload.TaskCancelled?
    ensures ApplyCore(s, e).Ok? && Moves(s, ApplyCore(s, e).value, e.payload.taskId)
  {
    hide OrderOk, DependenciesCompleted;
    var id := e.payload.taskId;
    assert TaskOk(s, id);
    assert StepOk(def, s, s.tasks[id].stepId);
    assert s.steps[s.tasks[id].stepId := s.steps[s.tasks[id].stepId]] == s.steps;
  }

  lemma CompletionMoves(def: Definition, s: Core, e: Event)
    requires Inv(def, s) && Legal(s, e) && (e.payload.TaskCompleted? || e.payload.TimerFired?)
    ensures ApplyCore(s, e).Ok? && Moves(s, ApplyCore(s, e).value, e.payload.taskId)
  {
    var id := e.payload.taskId;
    if e.payload.TaskCompleted? && s.tasks[id].phase.Compensation? {
      CompensationCompletionMoves(def, s, e);
    } else {
      if e.payload.TimerFired? { TimerIsForward(def, s, id); }
      ForwardCompletionMoves(def, s, e);
    }
  }

  lemma CompensationCompletionMoves(def: Definition, s: Core, e: Event)
    requires Inv(def, s) && Legal(s, e) && e.payload.TaskCompleted? && e.payload.compensation
    ensures ApplyCore(s, e).Ok? && Moves(s, ApplyCore(s, e).value, e.payload.taskId)
  {
    hide OrderOk, DependenciesCompleted;
    assert TaskOk(s, e.payload.taskId);
  }

  lemma ForwardCompletionMoves(def: Definition, s: Core, e: Event)
    requires Inv(def, s) && Legal(s, e) && (e.payload.TaskCompleted? || e.payload.TimerFired?)
    requires s.tasks[e.payload.taskId].phase.Forward?
    ensures ApplyCore(s, e).Ok? && Moves(s, ApplyCore(s, e).value, e.payload.taskId)
  {
    NotYetCompleted(def, s, e.payload.taskId) by { hide OrderOk; }
    hide OrderOk, DependenciesCompleted, StepOk;
    assert TaskOk(s, e.payload.taskId);
  }

  lemma NotYetCompleted(def: Definition, s: Core, id: TaskId)
    requires Inv(def, s) && id in s.tasks && s.tasks[id].phase.Forward? && s.tasks[id].status.Open()
    ensures s.tasks[id].stepId in s.steps && s.tasks[id].stepId !in s.completedOrder
  {
    assert TaskOk(s, id);
    assert StepOk(def, s, s.tasks[id].stepId);
  }
}
