/** What a command can write: which events it appends, and which task rows it touches. */
module Footprint {
  import opened Prelude
  import opened Workflow
  import opened History
  import opened Engine
  import opened Reducer
  import opened Invariant
  import opened Commands
  import opened Tracking
  import opened System

  /** The event a command appends first: what it was asked to record. */
  predicate Acts(p: Payload) {
    p.WorkflowStarted? || p.TaskCompleted? || p.TaskFailed? || p.TimerFired? || p.RunCancelRequested?
  }

  /** Leases and heartbeats are recorded by the store itself. */
  predicate FromStore(p: Payload) {
    p.TaskLeased? || p.TaskHeartbeat?
  }

  predicate Consequence(p: Payload) {
    !Acts(p) && !FromStore(p)
  }

  predicate AboutRun(p: Payload) {
    || p.WorkflowStarted? || p.RunCancelRequested? || p.RunCompensating?
    || p.RunCompleted? || p.RunFailed? || p.RunCancelled?
  }

  /** The columns of the event name the step and the task that its payload names. */
  predicate Headed(e: Event) {
    if AboutRun(e.payload) then e.stepId == "" && e.taskId.None?
    else e.taskId == Some(e.payload.taskId) && (e.payload.TaskHeartbeat? || e.stepId == e.payload.stepId)
  }

  predicate Consequent(e: Event) {
    Consequence(e.payload) && Headed(e)
  }

  /** A row change that leaves no task leased, and updates no row but that of task `id`, if one is named. */
  predicate Touches(m: Mutation, id: Option<TaskId>) {
    !m.task.status.Leased? && (m.Update? && id.Some? ==> m.task.id == id.value)
  }

  /** From `w` to `w'` only consequences have been added. */
  ghost predicate FollowsUp(w: Work, w': Work, id: Option<TaskId>) {
    && w.events <= w'.events && w.mutations <= w'.mutations
    && (forall i :: |w.events| <= i < |w'.events| ==> Consequent(w'.events[i]))
    && (forall i :: |w.mutations| <= i < |w'.mutations| ==> Touches(w'.mutations[i], id))
  }

  lemma FollowsUpTransitive(w: Work, w': Work, w'': Work, id: Option<TaskId>)
    requires FollowsUp(w, w', id) && FollowsUp(w', w'', id)
    ensures FollowsUp(w, w'', id)
  {
    hide Consequent, Touches;
    forall i | |w.events| <= i < |w''.events| ensures Consequent(w''.events[i]) {
      if i < |w'.events| { assert w''.events[i] == w'.events[i]; }
    }
    forall i | |w.mutations| <= i < |w''.mutations| ensures Touches(w''.mutations[i], id) {
      if i < |w'.mutations| { assert w''.mutations[i] == w'.mutations[i]; }
    }
  }

  // ------------------------------------------------------------------ the stages of a command

  lemma EmitFollows(env: Env, w: Work, stepId: StepId, taskId: Option<TaskId>, payload: Payload, id: Option<TaskId>)
    requires Emit(env, w, stepId, taskId, payload).Ok?
    requires Consequent(EventOf(env, w, stepId, taskId, payload))
    ensures FollowsUp(w, Emit(env, w, stepId, taskId, payload).value, id)
  {
    hide Apply, Consequent;
  }

  lemma ScheduleFollows(env: Env, w: Work, step: Step, phase: TaskPhase, id: Option<TaskId>)
    requires Schedule(env, w, step, phase).Ok?
    ensures FollowsUp(w, Schedule(env, w, step, phase).value, id)
  {
    hide Apply;
  }

  lemma {:induction false} ReadyFollows(env: Env, w: Work, list: seq<StepId>, id: Option<TaskId>)
    requires ScheduleForwardReady(env, w, list).Ok?
    ensures FollowsUp(w, ScheduleForwardReady(env, w, list).value, id)
  {
    hide FollowsUp, Schedule, Ready;
    if list == [] {
      NothingFollows(w, id);
    } else {
      var init, x := list[..|list| - 1], list[|list| - 1];
      ReadyFollows(env, w, init, id);
      var w1 := ScheduleForwardReady(env, w, init).value;
      if Ready(w1.state.core, x) {
        ScheduleFollows(env, w1, w1.state.core.steps[x].definition, Forward, id);
        FollowsUpTransitive(w, w1, ScheduleForwardReady(env, w, list).value, id);
      }
    }
  }

  lemma NothingFollows(w: Work, id: Option<TaskId>)
    ensures FollowsUp(w, w, id)
  {
  }

  lemma FinishFollows(env: Env, w: Work, id: Option<TaskId>)
    requires FinishWithoutCompensation(env, w).Ok?
    ensures FollowsUp(w, FinishWithoutCompensation(env, w).value, id)
  {
    hide Apply;
  }

  lemma AdvanceFollows(env: Env, w: Work, id: Option<TaskId>)
    requires AdvanceCompensation(env, w).Ok?
    ensures FollowsUp(w, AdvanceCompensation(env, w).value, id)
  {
    hide FollowsUp, Schedule, FinishWithoutCompensation, NextCompensation, HasOpen;
    NothingFollows(w, id);
    if !HasOpen(w.state.core, Compensation) {
      match NextCompensation(w.state.core)
      case Some(x) => ScheduleFollows(env, w, CompensationStep(w.state.core.steps[x].definition), Compensation, id);
      case None => FinishFollows(env, w, id);
    }
  }

  lemma BeginFollows(env: Env, w: Work, id: Option<TaskId>)
    requires BeginCompensationOrFinish(env, w).Ok?
    ensures FollowsUp(w, BeginCompensationOrFinish(env, w).value, id)
  {
    hide FollowsUp, Emit, Schedule, FinishWithoutCompensation, NextCompensation;
    match NextCompensation(w.state.core)
    case Some(x) =>
      var reason := if w.state.core.cancelRequested then w.state.run.cancelReason else w.state.run.failure;
      EmitFollows(env, w, "", None, RunCompensating(reason), id);
      var w1 := Emit(env, w, "", None, RunCompensating(reason)).value;
      ScheduleFollows(env, w1, CompensationStep(w1.state.core.steps[x].definition), Compensation, id);
      FollowsUpTransitive(w, w1, BeginCompensationOrFinish(env, w).value, id);
    case None => FinishFollows(env, w, id);
  }

  lemma PostProcessFollows(env: Env, order: seq<StepId>, w: Work, id: Option<TaskId>)
    requires PostProcess(env, order, w).Ok?
    ensures FollowsUp(w, PostProcess(env, order, w).value, id)
  {
    hide FollowsUp, Emit, AdvanceCompensation, ScheduleForwardReady, HasOpen, AllForwardCompleted, RunOutput;
    if w.state.core.compensating {
      AdvanceFollows(env, w, id);
    } else {
      ReadyFollows(env, w, order, id);
      var w1 := ScheduleForwardReady(env, w, order).value;
      if AllForwardCompleted(order, w1.state.core) && !HasOpen(w1.state.core, Forward) {
        EmitFollows(env, w1, "", None, RunCompleted(RunOutput(w1.state.core)), id);
        FollowsUpTransitive(w, w1, PostProcess(env, order, w).value, id);
      }
    }
  }

  lemma {:induction false} CancelTasksFollow(env: Env, ld: Loaded, w: Work, list: seq<TaskId>, reason: string)
    requires CancelTasks(env, ld, w, list, reason).Ok?
    ensures FollowsUp(w, CancelTasks(env, ld, w, list, reason).value, None)
  {
    hide FollowsUp, CancelOne;
    if list == [] {
      NothingFollows(w, None);
    } else {
      var init, id := list[..|list| - 1], list[|list| - 1];
      CancelTasksFollow(env, ld, w, init, reason);
      var w1 := CancelTasks(env, ld, w, init, reason).value;
      CancelOneFollows(env, ld, w1, id, reason);
      FollowsUpTransitive(w, w1, CancelTasks(env, ld, w, list, reason).value, None);
    }
  }

  lemma CancelOneFollows(env: Env, ld: Loaded, w: Work, id: TaskId, reason: string)
    requires CancelOne(env, ld, w, id, reason).Ok?
    ensures FollowsUp(w, CancelOne(env, ld, w, id, reason).value, None)
  {
    hide ApplyRun;
  }

  // ------------------------------------------------------------------ the commands

  /** The first event of a command, by what was asked for. */
  predicate Answers(ld: Loaded, req: Request, p: Payload) {
    match req
    case CompleteRequest(worker, id, output) =>
      && id in ld.state.core.tasks
      && var t := ld.state.core.tasks[id];
      var recorded := if output == Raw("") then Null else output;
      p == TaskCompleted(id, t.stepId, worker, recorded, t.phase.Compensation?)
    case FailRequest(worker, id, error, _) =>
      && id in ld.state.core.tasks
      && var t := ld.state.core.tasks[id];
      p == TaskFailed(id, t.stepId, worker, error, t.phase.Compensation?)
    case FireRequest(id) =>
      id in ld.state.core.tasks && p == TimerFired(id, ld.state.core.tasks[id].stepId)
    case CancelRequest(_, reason) => p == RunCancelRequested(reason)
  }

  /** The task a request is about; a cancel request is about all of them. */
  function Target(req: Request): Option<TaskId> {
    if req.CancelRequest? then None else Some(req.task)
  }

  predicate WritesOnly(ld: Loaded, req: Request, events: seq<Event>, mutations: seq<Mutation>) {
    && events != [] && Answers(ld, req, events[0].payload) && Headed(events[0])
    && (forall i :: 1 <= i < |events| ==> Consequent(events[i]))
    && (forall i :: 0 <= i < |mutations| ==> Touches(mutations[i], Target(req)))
  }

  lemma FollowedWrites(ld: Loaded, req: Request, w: Work, w': Work)
    requires |w.events| == 1 && WritesOnly(ld, req, w.events, w.mutations) && FollowsUp(w, w', Target(req))
    ensures WritesOnly(ld, req, w'.events, w'.mutations)
  {
    hide Answers, Consequent, Headed, Touches;
    assert w'.events[0] == w.events[0];
    forall i | 0 <= i < |w'.mutations| ensures Touches(w'.mutations[i], Target(req)) {
      if i < |w.mutations| { assert w'.mutations[i] == w.mutations[i]; }
    }
  }

  /** Rows are filed under their identifiers, and the task to be moved has one. */
  predicate RowFiled(ld: Loaded, id: TaskId) {
    id in ld.state.core.tasks && id in ld.tasks && ld.tasks[id].id == id
  }

  /** The event and the row change with which a task completes. */
  lemma EndRecorded(env: Env, ld: Loaded, id: TaskId, payload: Payload)
    requires RowFiled(ld, id) && (payload.TaskCompleted? || payload.TimerFired?) && payload.taskId == id
    requires payload.stepId == ld.state.core.tasks[id].stepId
    requires EmitAndUpdate(env, ld, Begin(ld), ld.state.core.tasks[id].stepId, id, payload).Ok?
    ensures var w := EmitAndUpdate(env, ld, Begin(ld), ld.state.core.tasks[id].stepId, id, payload).value;
            && |w.events| == 1 && w.events[0].payload == payload && Headed(w.events[0])
            && |w.mutations| == 1 && Touches(w.mutations[0], Some(id))
  {
    hide ApplyRun;
  }

  lemma CompleteWrites(env: Env, ld: Loaded, worker: string, id: TaskId, output: Json)
    requires RowFiled(ld, id) && CompleteWork(env, ld, worker, id, output).Ok?
    ensures var w := CompleteWork(env, ld, worker, id, output).value;
            WritesOnly(ld, CompleteRequest(worker, id, output), w.events, w.mutations)
  {
    hide PostProcess, EmitAndUpdate, Consequent, Touches;
    var t, req := ld.state.core.tasks[id], CompleteRequest(worker, id, output);
    var payload := TaskCompleted(id, t.stepId, worker, NormalizeJson(output), t.phase.Compensation?);
    var w := EmitAndUpdate(env, ld, Begin(ld), t.stepId, id, payload).value;
    EndRecorded(env, ld, id, payload);
    assert WritesOnly(ld, req, w.events, w.mutations);
    hide WritesOnly;
    PostProcessFollows(env, ld.def.order, w, Some(id));
    FollowedWrites(ld, req, w, CompleteWork(env, ld, worker, id, output).value);
  }

  lemma FireWrites(env: Env, ld: Loaded, id: TaskId)
    requires RowFiled(ld, id) && FireWork(env, ld, id).Ok?
    ensures var w := FireWork(env, ld, id).value; WritesOnly(ld, FireRequest(id), w.events, w.mutations)
  {
    hide PostProcess, EmitAndUpdate, Consequent, Touches;
    var stepId, req := ld.state.core.tasks[id].stepId, FireRequest(id);
    var w := EmitAndUpdate(env, ld, Begin(ld), stepId, id, TimerFired(id, stepId)).value;
    EndRecorded(env, ld, id, TimerFired(id, stepId));
    assert WritesOnly(ld, req, w.events, w.mutations);
    hide WritesOnly;
    PostProcessFollows(env, ld.def.order, w, Some(id));
    FollowedWrites(ld, req, w, FireWork(env, ld, id).value);
  }

  lemma CancelWrites(env: Env, ld: Loaded, run: RunId, reason: string)
    requires CancelWork(env, ld, reason).Ok?
    ensures var w := CancelWork(env, ld, reason).value;
            WritesOnly(ld, CancelRequest(run, reason), w.events, w.mutations)
  {
    hide ApplyRun, CancelTasks, BeginCompensationOrFinish;
    var w := Emit(env, Begin(ld), "", None, RunCancelRequested(reason)).value;
    assert WritesOnly(ld, CancelRequest(run, reason), w.events, w.mutations);
    hide ApplyCore, WritesOnly, Emit;
    var w' := CancelTasks(env, ld, w, ld.listing, reason).value;
    CancelTasksFollow(env, ld, w, ld.listing, reason);
    BeginFollows(env, w', None);
    FollowsUpTransitive(w, w', CancelWork(env, ld, reason).value, None);
    FollowedWrites(ld, CancelRequest(run, reason), w, CancelWork(env, ld, reason).value);
  }

  lemma FailEventWrites(env: Env, ld: Loaded, worker: string, id: TaskId, error: string, retryable: bool)
    requires id in ld.state.core.tasks && FailEvent(env, ld, worker, id, error).Ok?
    ensures var w := FailEvent(env, ld, worker, id, error).value;
            && |w.events| == 1 && WritesOnly(ld, FailRequest(worker, id, error, retryable), w.events, w.mutations)
            && id in w.state.core.tasks && w.state.core.tasks[id].status.Failed?
            && w.state.core.cancelRequested == ld.state.core.cancelRequested
  {
    hide ApplyRun;
  }

  lemma RetryWrites(env: Env, ld: Loaded, w: Work, id: TaskId, error: string)
    requires RowFiled(ld, id) && ld.state.core.tasks[id].stepId in ld.def.steps && RetryWork(env, ld, w, id, error).Ok?
    ensures FollowsUp(w, RetryWork(env, ld, w, id, error).value, Some(id))
  {
    hide ApplyRun, BackoffForAttempt;
  }

  lemma FinalFailureWrites(env: Env, ld: Loaded, w: Work, id: TaskId, error: string)
    requires RowFiled(ld, id) && id in w.state.core.tasks && w.state.core.tasks[id].status.Failed?
    requires FinalFailureWork(env, ld, w, id, error).Ok?
    ensures FollowsUp(w, FinalFailureWork(env, ld, w, id, error).value, Some(id))
  {
    hide BeginCompensationOrFinish, CompensationFailure;
    var t := ld.state.core.tasks[id];
    var failure := if t.phase.Compensation? then CompensationFailure(t.stepId, error) else error;
    var w1 := Mutate(w, UpdateOf(env, ld, w, id).value).(state := w.state.(run := w.state.run.(failure := failure)));
    assert FollowsUp(w, w1, Some(id));
    hide FollowsUp;
    BeginFollows(env, w1, Some(id));
    FollowsUpTransitive(w, w1, FinalFailureWork(env, ld, w, id, error).value, Some(id));
  }

  lemma FailWrites(env: Env, ld: Loaded, worker: string, id: TaskId, error: string, retryable: bool)
    requires RowFiled(ld, id) && FailTask(env, ld, worker, id, error, retryable).Append?
    ensures var o := FailTask(env, ld, worker, id, error, retryable);
            WritesOnly(ld, FailRequest(worker, id, error, retryable), o.events, o.mutations)
  {
    hide FailEvent, RetryWork, FinalFailureWork, WritesOnly, FollowsUp, LeaseCheck;
    var req := FailRequest(worker, id, error, retryable);
    FailEventWrites(env, ld, worker, id, error, retryable);
    var w := FailEvent(env, ld, worker, id, error).value;
    if Retries(ld, id, ld.state.core.cancelRequested, retryable) {
      RetryWrites(env, ld, w, id, error);
      FollowedWrites(ld, req, w, RetryWork(env, ld, w, id, error).value);
    } else {
      hide Retries;
      FinalFailureWrites(env, ld, w, id, error);
      FollowedWrites(ld, req, w, FinalFailureWork(env, ld, w, id, error).value);
    }
  }

  /** A command records what it was asked for, and then only what follows from it; it leaves no row leased, and
      updates no row but that of the task it is about. */
  lemma ExecuteWrites(env: Env, ld: Loaded, req: Request)
    requires Execute(env, ld, req).Append?
    requires !req.CancelRequest? && req.task in ld.state.core.tasks ==> RowFiled(ld, req.task)
    ensures var o := Execute(env, ld, req); WritesOnly(ld, req, o.events, o.mutations)
  {
    hide CompleteWork, FailTask, CancelWork, FireWork, WritesOnly;
    match req
    case CompleteRequest(worker, id, output) => CompleteWrites(env, ld, worker, id, output);
    case FailRequest(worker, id, error, retryable) =>
      FailedIsKnown(env, ld, worker, id, error, retryable);
      FailWrites(env, ld, worker, id, error, retryable);
    case FireRequest(id) => FireWrites(env, ld, id);
    case CancelRequest(run, reason) => CancelWrites(env, ld, run, reason);
  }

  lemma FailedIsKnown(env: Env, ld: Loaded, worker: string, id: TaskId, error: string, retryable: bool)
    requires FailTask(env, ld, worker, id, error, retryable).Append?
    ensures LeaseCheck(ld, worker, id).None? && id in ld.state.core.tasks
  {
    hide FailEvent, RetryWork, FinalFailureWork, Retries;
  }

  // ------------------------------------------------------------------ what that means for a row

  /** A row that no change is about stays as it is. */
  lemma {:induction false} OtherRowsStay(rows: map<TaskId, TaskRecord>, env: Env, mutations: seq<Mutation>,
                                         id: TaskId, k: TaskId)
    requires AllProper(rows, env, mutations) && k in rows && k != id
    requires forall i :: 0 <= i < |mutations| ==> Touches(mutations[i], Some(id))
    ensures k in Mutated(rows, mutations) && Mutated(rows, mutations)[k] == rows[k]
  {
    if mutations != [] {
      OtherRowsStay(rows, env, mutations[..|mutations| - 1], id, k);
    }
  }

  /** A row that is leased afterwards has not been touched. */
  lemma {:induction false} LeasedRowsStay(rows: map<TaskId, TaskRecord>, mutations: seq<Mutation>, id: Option<TaskId>,
                                          k: TaskId)
    requires forall i :: 0 <= i < |mutations| ==> Touches(mutations[i], id)
    requires k in Mutated(rows, mutations) && Mutated(rows, mutations)[k].status.Leased?
    ensures k in rows && rows[k] == Mutated(rows, mutations)[k]
  {
    if mutations != [] {
      var init := mutations[..|mutations| - 1];
      assert Touches(mutations[|mutations| - 1], id);
      assert k in Mutated(rows, init) && Mutated(rows, init)[k].status.Leased?;
      LeasedRowsStay(rows, init, id, k);
    }
  }
}
