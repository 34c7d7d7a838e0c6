/** What commands write into the summary of a run, whatever state they loaded. */
module Summaries {
  import opened Prelude
  import opened Workflow
  import opened History
  import opened Engine
  import opened Reducer
  import opened Invariant
  import opened Commands
  import opened System

  predicate SameTexts(r: RunRecord, r': RunRecord) {
    r'.id == r.id && r'.failure == r.failure && r'.cancelReason == r.cancelReason
  }

  lemma {:induction false} ReadyKeepsTexts(env: Env, w: Work, list: seq<StepId>)
    requires ScheduleForwardReady(env, w, list).Ok?
    ensures SameTexts(w.state.run, ScheduleForwardReady(env, w, list).value.state.run)
  {
    hide ApplyCore, Ready, NewTask;
    if list != [] { ReadyKeepsTexts(env, w, list[..|list| - 1]); }
  }

  /** Unwinding records the texts it finds, so it leaves them as they are. */
  lemma UnwindKeepsTexts(env: Env, w: Work)
    ensures BeginCompensationOrFinish(env, w).Ok?
            ==> SameTexts(w.state.run, BeginCompensationOrFinish(env, w).value.state.run)
    ensures AdvanceCompensation(env, w).Ok? ==> SameTexts(w.state.run, AdvanceCompensation(env, w).value.state.run)
  {
    hide ApplyCore, NewTask, HasOpen, LatestEligible;
  }

  lemma PostProcessKeepsTexts(env: Env, order: seq<StepId>, w: Work)
    requires PostProcess(env, order, w).Ok?
    ensures SameTexts(w.state.run, PostProcess(env, order, w).value.state.run)
  {
    hide ApplyCore, AdvanceCompensation, HasOpen, AllForwardCompleted, RunOutput, ScheduleForwardReady;
    UnwindKeepsTexts(env, w);
    if ScheduleForwardReady(env, w, order).Ok? { ReadyKeepsTexts(env, w, order); }
  }

  lemma {:induction false} CancelTasksKeepTexts(env: Env, ld: Loaded, w: Work, list: seq<TaskId>, reason: string)
    requires CancelTasks(env, ld, w, list, reason).Ok?
    ensures SameTexts(w.state.run, CancelTasks(env, ld, w, list, reason).value.state.run)
  {
    hide ApplyCore;
    if list != [] { CancelTasksKeepTexts(env, ld, w, list[..|list| - 1], reason); }
  }

  lemma CompleteKeepsTexts(env: Env, ld: Loaded, worker: string, id: TaskId, output: Json)
    requires id in ld.state.core.tasks && CompleteWork(env, ld, worker, id, output).Ok?
    ensures SameTexts(ld.state.run, CompleteWork(env, ld, worker, id, output).value.state.run)
  {
    hide ApplyCore, PostProcess;
    var t := ld.state.core.tasks[id];
    var payload := TaskCompleted(id, t.stepId, worker, NormalizeJson(output), t.phase.Compensation?);
    PostProcessKeepsTexts(env, ld.def.order, EmitAndUpdate(env, ld, Begin(ld), t.stepId, id, payload).value);
  }

  lemma FireKeepsTexts(env: Env, ld: Loaded, id: TaskId)
    requires id in ld.state.core.tasks && FireWork(env, ld, id).Ok?
    ensures SameTexts(ld.state.run, FireWork(env, ld, id).value.state.run)
  {
    hide ApplyCore, PostProcess;
    var stepId := ld.state.core.tasks[id].stepId;
    PostProcessKeepsTexts(env, ld.def.order,
                          EmitAndUpdate(env, ld, Begin(ld), stepId, id, TimerFired(id, stepId)).value);
  }

  lemma FailEventKeepsTexts(env: Env, ld: Loaded, worker: string, id: TaskId, error: string)
    requires id in ld.state.core.tasks && FailEvent(env, ld, worker, id, error).Ok?
    ensures var w := FailEvent(env, ld, worker, id, error).value;
            && SameTexts(ld.state.run, w.state.run) && w.state.core.cancelRequested == ld.state.core.cancelRequested
            && |w.events| == 1 && w.events[0].payload.TaskFailed?
  {
  }

  lemma RetryKeepsTexts(env: Env, ld: Loaded, w: Work, id: TaskId, error: string)
    requires id in ld.state.core.tasks && ld.state.core.tasks[id].stepId in ld.def.steps
             && RetryWork(env, ld, w, id, error).Ok?
    ensures SameTexts(w.state.run, RetryWork(env, ld, w, id, error).value.state.run)
  {
    hide ApplyCore, BackoffForAttempt;
  }

  function FailureOf(t: TaskState, error: string): string {
    if t.phase.Compensation? then CompensationFailure(t.stepId, error) else error
  }

  lemma FinalFailureSetsText(env: Env, ld: Loaded, w: Work, id: TaskId, error: string)
    requires id in ld.state.core.tasks && FinalFailureWork(env, ld, w, id, error).Ok?
    ensures SameTexts(w.state.run.(failure := FailureOf(ld.state.core.tasks[id], error)),
                      FinalFailureWork(env, ld, w, id, error).value.state.run)
  {
    hide BeginCompensationOrFinish, UpdateOf, CompensationFailure;
    var m := UpdateOf(env, ld, w, id).value;
    var run := w.state.run.(failure := FailureOf(ld.state.core.tasks[id], error));
    UnwindKeepsTexts(env, Mutate(w, m).(state := w.state.(run := run)));
  }

  lemma CancelSetsText(env: Env, ld: Loaded, reason: string)
    requires CancelWork(env, ld, reason).Ok?
    ensures SameTexts(ld.state.run.(cancelReason := reason), CancelWork(env, ld, reason).value.state.run)
  {
    hide ApplyCore, BeginCompensationOrFinish, CancelTasks;
    var w := Emit(env, Begin(ld), "", None, RunCancelRequested(reason)).value;
    CancelTasksKeepTexts(env, ld, w, ld.listing, reason);
    UnwindKeepsTexts(env, CancelTasks(env, ld, w, ld.listing, reason).value);
  }

  /** The request reports a failure that is not retried. */
  predicate IsFinalFailure(ld: Loaded, req: Request) {
    && req.FailRequest? && req.task in ld.state.core.tasks
    && ForGood(ld, req.task, req.retryable)
  }

  /** A cancel request sets the cancel reason, a final failure the failure text, and nothing else sets either. */
  lemma SummaryTexts(env: Env, ld: Loaded, req: Request)
    requires Execute(env, ld, req).Append?
    ensures var r, r' := ld.state.run, Execute(env, ld, req).run;
            && r'.id == r.id
            && r'.cancelReason == (if req.CancelRequest? then req.reason else r.cancelReason)
            && (!IsFinalFailure(ld, req) ==> r'.failure == r.failure)
            && (IsFinalFailure(ld, req) ==>
                  var t := ld.state.core.tasks[req.task];
                  r'.failure == if t.phase.Forward? then req.error
                                else "compensation for step " + t.stepId + " failed: " + req.error)
  {
    hide CompleteWork, FailEvent, FinalFailureWork, RetryWork, CancelWork, FireWork, LeaseCheck, Retries, ForGood;
    match req
    case CompleteRequest(worker, id, output) =>
      CheckedTask(ld, worker, id);
      CompleteKeepsTexts(env, ld, worker, id, output);
    case FailRequest(worker, id, error, retryable) =>
      CheckedTask(ld, worker, id);
      FailEventKeepsTexts(env, ld, worker, id, error);
      var w := FailEvent(env, ld, worker, id, error).value;
      RetriesUnlessForGood(ld, id, retryable);
      if Retries(ld, id, ld.state.core.cancelRequested, retryable) {
        RetriedStep(ld, id, retryable);
        RetryKeepsTexts(env, ld, w, id, error);
      } else {
        FinalFailureSetsText(env, ld, w, id, error);
      }
    case FireRequest(id) =>
      FireKeepsTexts(env, ld, id);
    case CancelRequest(_, reason) =>
      CancelSetsText(env, ld, reason);
  }

  lemma RetriedStep(ld: Loaded, id: TaskId, retryable: bool)
    requires id in ld.state.core.tasks && Retries(ld, id, ld.state.core.cancelRequested, retryable)
    ensures ld.state.core.tasks[id].stepId in ld.def.steps
  {
  }
}
